/**
 * The capabilities a CSI driver reports about itself, and the two probes of
 * cmd/csi-attacher/main.go that read them (supportsPluginControllerService and
 * supportsControllerPublish).
 */
module Capabilities {
  import opened Wrappers

  /** PluginCapability_Service_Type of the CSI specification. */
  datatype PluginCapability =
    | UnknownService
    | ControllerService
    | VolumeAccessibilityConstraints

  /** ControllerServiceCapability_RPC_Type of the CSI specification. */
  datatype ControllerCapability =
    | UnknownRpc
    | CreateDeleteVolume
    | PublishUnpublishVolume
    | ListVolumes
    | GetCapacity
    | CreateDeleteSnapshot
    | ListSnapshots
    | CloneVolume
    | PublishReadonly
    | ExpandVolume

  /** The maps returned by GetPluginCapabilities and GetControllerCapabilities. */
  type PluginCapabilities = map<PluginCapability, bool>
  type ControllerCapabilities = map<ControllerCapability, bool>

  /** Reading a Go `map[K]bool`: a key that is absent reads as false. */
  predicate Has<K>(caps: map<K, bool>, key: K) {
    key in caps && caps[key]
  }

  /** What supportsPluginControllerService returns: `(bool, error)`. */
  datatype ServiceSupport = ServiceSupport(supported: bool, err: Option<Error>)

  /** What supportsControllerPublish returns: `(bool, bool, error)`. */
  datatype PublishSupport = PublishSupport(attach: bool, readOnly: bool, err: Option<Error>)

  /**
   * supportsPluginControllerService, given the reply of GetPluginCapabilities:
   * a failed query yields `(false, err)`; otherwise the CONTROLLER_SERVICE entry,
   * with an absent entry meaning false.
   */
  function SupportsPluginControllerService(reply: Result<PluginCapabilities>): (r: ServiceSupport)
    ensures r.err.Some? <==> reply.Err?
    ensures reply.Err? ==> r == ServiceSupport(false, Some(reply.error))
    ensures reply.Ok? ==> (r.supported <==> ControllerService in reply.value && reply.value[ControllerService])
  {
    match reply
    case Err(e) => ServiceSupport(false, Some(e))
    case Ok(caps) => ServiceSupport(Has(caps, ControllerService), None)
  }

  /**
   * supportsControllerPublish, given the reply of GetControllerCapabilities:
   * a failed query yields `(false, false, err)`; otherwise the
   * PUBLISH_UNPUBLISH_VOLUME and PUBLISH_READONLY entries, absent meaning false.
   */
  function SupportsControllerPublish(reply: Result<ControllerCapabilities>): (r: PublishSupport)
    ensures r.err.Some? <==> reply.Err?
    ensures reply.Err? ==> r == PublishSupport(false, false, Some(reply.error))
    ensures reply.Ok? ==> (r.attach <==> PublishUnpublishVolume in reply.value && reply.value[PublishUnpublishVolume])
    ensures reply.Ok? ==> (r.readOnly <==> PublishReadonly in reply.value && reply.value[PublishReadonly])
  {
    match reply
    case Err(e) => PublishSupport(false, false, Some(e))
    case Ok(caps) => PublishSupport(Has(caps, PublishUnpublishVolume), Has(caps, PublishReadonly), None)
  }
}
