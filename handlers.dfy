/**
 * The two attach handlers the sidecar can run with, and the decision table
 * that picks one from what the driver reports.
 */
module Handlers {
  import opened Capabilities

  /**
   * Trivial marks every VolumeAttachment as attached without contacting the
   * driver; Csi forwards ControllerPublish/Unpublish to it and carries whether
   * the driver can publish read-only.
   */
  datatype Handler = Trivial | Csi(readOnly: bool)

  /**
   * The handler a driver with these capabilities gets, row by row:
   * no controller service, Trivial; controller service without
   * PUBLISH_UNPUBLISH_VOLUME, Trivial; both, Csi with PUBLISH_READONLY as the
   * read-only flag. Absent entries read as false throughout.
   */
  function SelectHandler(plugin: PluginCapabilities, controller: ControllerCapabilities): (h: Handler)
    ensures !Has(plugin, ControllerService) ==> h == Trivial
    ensures Has(plugin, ControllerService) && !Has(controller, PublishUnpublishVolume) ==> h == Trivial
    ensures Has(plugin, ControllerService) && Has(controller, PublishUnpublishVolume) ==>
              h == Csi(Has(controller, PublishReadonly))
  {
    if !Has(plugin, ControllerService) then Trivial
    else if Has(controller, PublishUnpublishVolume) then Csi(Has(controller, PublishReadonly))
    else Trivial
  }

  /** The real handler is chosen exactly when both capabilities are reported as true. */
  lemma CsiIffControllerPublish(plugin: PluginCapabilities, controller: ControllerCapabilities)
    ensures SelectHandler(plugin, controller).Csi? <==>
              Has(plugin, ControllerService) && Has(controller, PublishUnpublishVolume)
  {
  }

  /** Without the controller service, the controller capabilities make no difference. */
  lemma ControllerIgnoredWithoutService(plugin: PluginCapabilities, c1: ControllerCapabilities, c2: ControllerCapabilities)
    requires !Has(plugin, ControllerService)
    ensures SelectHandler(plugin, c1) == SelectHandler(plugin, c2) == Trivial
  {
  }
}
