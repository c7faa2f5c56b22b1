/**
 * How the sidecar decides between running its controller directly and
 * running it under leader election, and the name of the lock it contends for.
 */
module LeaderElection {
  import opened Wrappers

  const LeaderElectionTypeLeases: string := "leases"
  const LeaderElectionTypeConfigMaps: string := "configmaps"

  /** The default of the leader-election-type flag. */
  const DefaultLeaderElectionType: string := LeaderElectionTypeConfigMaps

  const LockPrefix: string := "external-attacher-leader-"

  /** The lock backend: the deprecated ConfigMap lock or the Lease lock. */
  datatype Backend = ConfigMapLock | LeaseLock

  /**
   * RunDirect: the controller runs at once, without a lock.
   * Elect: it runs under a lock of the given backend and name, in the given
   * namespace (None: the library's default, the pod namespace), with the
   * deprecation warning logged or not.
   * Fatal: the election type is not recognised and the process exits with 1.
   */
  datatype Election =
    | RunDirect
    | Elect(backend: Backend, lockName: string, namespace: Option<string>, deprecationWarning: bool)
    | Fatal

  /** The name of the leader election lock for a driver. */
  function LockName(driverName: string): string {
    LockPrefix + driverName
  }

  /** A lock name begins with the fixed prefix and continues with the driver name. */
  lemma LockNameShape(driverName: string)
    ensures |LockName(driverName)| == |LockPrefix| + |driverName|
    ensures LockName(driverName)[..|LockPrefix|] == LockPrefix
    ensures LockName(driverName)[|LockPrefix|..] == driverName
  {
  }

  /** Two drivers get the same lock name exactly when their names are equal. */
  lemma LockNameInjective(d1: string, d2: string)
    ensures LockName(d1) == LockName(d2) <==> d1 == d2
  {
    if LockName(d1) == LockName(d2) {
      calc {
        d1;
        LockName(d1)[|LockPrefix|..];
        LockName(d2)[|LockPrefix|..];
        d2;
      }
    }
  }

  /**
   * The leader election plan for the flags leader-election (enabled),
   * leader-election-type and leader-election-namespace, and the driver name.
   */
  function PlanLeaderElection(enabled: bool, electionType: string, namespace: string, driverName: string): (p: Election)
    ensures !enabled ==> p == RunDirect
    ensures enabled && electionType == LeaderElectionTypeConfigMaps ==>
              p.Elect? && p.backend == ConfigMapLock && p.deprecationWarning
    ensures enabled && electionType == LeaderElectionTypeLeases ==>
              p.Elect? && p.backend == LeaseLock && !p.deprecationWarning
    ensures enabled && electionType != LeaderElectionTypeConfigMaps && electionType != LeaderElectionTypeLeases ==>
              p == Fatal
    ensures p.Elect? ==> p.lockName == LockName(driverName)
    ensures p.Elect? ==> p.namespace == (if namespace == "" then None else Some(namespace))
  {
    if !enabled then RunDirect
    else
      var lockName := LockName(driverName);
      var ns := if namespace != "" then Some(namespace) else None;
      if electionType == LeaderElectionTypeConfigMaps then Elect(ConfigMapLock, lockName, ns, true)
      else if electionType == LeaderElectionTypeLeases then Elect(LeaseLock, lockName, ns, false)
      else Fatal
  }

  /** With leader election on and the type flag left at its default, the ConfigMap lock is used and the deprecation warning is logged. */
  lemma DefaultTypeIsDeprecatedConfigMaps(namespace: string, driverName: string)
    ensures PlanLeaderElection(true, DefaultLeaderElectionType, namespace, driverName).Elect?
    ensures PlanLeaderElection(true, DefaultLeaderElectionType, namespace, driverName).backend == ConfigMapLock
    ensures PlanLeaderElection(true, DefaultLeaderElectionType, namespace, driverName).deprecationWarning
  {
  }

  /**
   * When a sidecar elects, another started with the same leader election flags
   * elects too, and their plans are equal exactly when their drivers have the
   * same name. Without a namespace flag the lock lives in each pod's own
   * namespace, so equal plans share a lock only for pods of one namespace.
   */
  lemma SameLockIffSameDriver(enabled: bool, electionType: string, namespace: string, d1: string, d2: string)
    requires PlanLeaderElection(enabled, electionType, namespace, d1).Elect?
    ensures PlanLeaderElection(enabled, electionType, namespace, d2).Elect?
    ensures (PlanLeaderElection(enabled, electionType, namespace, d1) ==
             PlanLeaderElection(enabled, electionType, namespace, d2)) <==> d1 == d2
  {
    LockNameInjective(d1, d2);
  }
}
