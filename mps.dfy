/** The MPS daemon-provisioning decision of the device plugin's MPS control daemon.

    A manager is chosen once from the configured sharing strategy: the real MPS
    manager when the strategy is MPS, a null manager otherwise. Asked for its
    daemons, the real manager walks the resource groups reported by the hardware
    enumeration, skips the groups that have no devices or no shared (annotated)
    device, checks the replica configuration of every non-MIG device of the
    remaining groups, and builds one daemon per remaining group. One bad replica
    configuration fails the whole call.

    The collaborators the decision only consults (the NVML resource-manager
    enumeration, the annotation lookup, the MIG test, the replica assertion and
    the daemon constructor) are abstracted into the fields of plain records. */
module Mps {

  datatype Option<T> = None | Some(value: T)

  datatype Result<T> = Ok(value: T) | Err(error: Error)

  /** The errors a caller of the provisioning decision can see. */
  datatype Error =
    | EnumerationFailed(reason: string)        // the resource-manager enumeration failed
    | InvalidMpsConfiguration(device: string)  // a device's replica configuration was rejected
    | ManagerCreationFailed(cause: Error)      // New failed (it never does)

  /** The sharing strategy of the plugin configuration. */
  datatype SharingStrategy = SharingNone | SharingTimeSlicing | SharingMps

  /** One device of a resource group, reduced to the facts the decision reads:
      whether its ID carries a sharing annotation, whether it is a MIG device,
      and whether its replica configuration passes the replica assertion. */
  datatype Device = Device(id: string, annotated: bool, isMig: bool, replicasOk: bool)

  /** A resource manager: the resource it exposes and its devices. The source keeps the
      devices in a map, visited in no fixed order; the sequence is the order in which
      one call visits them. */
  datatype ResourceGroup = ResourceGroup(resource: string, devices: seq<Device>)

  /** What the resource-manager enumeration produced: the groups, or its error. */
  datatype Enumeration = Enumerated(groups: seq<ResourceGroup>) | EnumerationError(reason: string)

  /** The daemon specification handed to the supervisor. */
  datatype Daemon = Daemon(rm: ResourceGroup, root: string)

  /** The two implementations of the Manager interface. */
  datatype Manager = MpsManager | NullManager

  /** The fixed root directory every daemon is created with. Its definition lives in
      daemon.go, which is not part of this model; the value here is a stand-in and
      nothing proved depends on it. */
  const ContainerRoot: string := "/mps"

  /** The daemon constructor, whose body is not part of this model. */
  function NewDaemon(rm: ResourceGroup, root: string): Daemon
  {
    Daemon(rm, root)
  }

  /** Some device ID of the group carries a sharing annotation. */
  predicate AnyHasAnnotations(devices: seq<Device>)
  {
    exists k :: 0 <= k < |devices| && devices[k].annotated
  }

  /** The group passes both skip filters: it has devices and at least one is shared. */
  predicate Qualifies(rm: ResourceGroup)
  {
    |rm.devices| > 0 && AnyHasAnnotations(rm.devices)
  }

  /** The device fails the replica check; MIG devices are never checked. */
  predicate Rejected(d: Device)
  {
    !d.isMig && !d.replicasOk
  }

  /** No device of the sequence fails the replica check. */
  predicate ReplicasValid(devices: seq<Device>)
  {
    forall k :: 0 <= k < |devices| ==> !Rejected(devices[k])
  }

  /** The ID of the first device, in visiting order, that fails the replica check. */
  function FirstRejected(devices: seq<Device>): (r: Option<string>)
    ensures r.None? <==> ReplicasValid(devices)
    ensures r.Some? ==> exists k :: 0 <= k < |devices| && Rejected(devices[k]) && devices[k].id == r.value
  {
    if devices == [] then None
    else if Rejected(devices[0]) then Some(devices[0].id)
    else
      var rest := FirstRejected(devices[1..]);
      assert forall k :: 0 < k < |devices| ==> devices[k] == devices[1..][k - 1];
      rest
  }

  /** FirstRejected names the device at k when k is the first rejected index. */
  lemma {:induction false} FirstRejectedAt(devices: seq<Device>, k: nat)
    requires k < |devices| && Rejected(devices[k])
    requires forall m :: 0 <= m < k ==> !Rejected(devices[m])
    ensures FirstRejected(devices) == Some(devices[k].id)
  {
    if k > 0 {
      assert !Rejected(devices[0]);
      FirstRejectedAt(devices[1..], k - 1);
    }
  }

  /** What one iteration of the group loop contributes: nothing for a skipped group,
      an error for a group with a rejected device, otherwise one daemon. */
  function GroupDaemons(rm: ResourceGroup): (r: Result<seq<Daemon>>)
    ensures r.Ok? ==> |r.value| <= 1
    ensures r.Ok? && |r.value| == 1 <==> Qualifies(rm) && ReplicasValid(rm.devices)
    ensures r.Err? <==> Qualifies(rm) && !ReplicasValid(rm.devices)
  {
    if !Qualifies(rm) then Ok([])
    else match FirstRejected(rm.devices)
      case Some(id) => Err(InvalidMpsConfiguration(id))
      case None => Ok([NewDaemon(rm, ContainerRoot)])
  }

  /** The outcome of the group loop over the groups in order: the daemons of all
      groups, or the first error met, which discards the daemons built so far. */
  function Provision(groups: seq<ResourceGroup>): (r: Result<seq<Daemon>>)
    ensures r.Ok? ==> |r.value| <= |groups|
    ensures r.Ok? ==> forall k :: 0 <= k < |r.value| ==> r.value[k].root == ContainerRoot
    ensures r.Err? ==> r.error.InvalidMpsConfiguration?
    decreases |groups|
  {
    if groups == [] then Ok([])
    else
      match Provision(groups[..|groups| - 1])
      case Err(e) => Err(e)
      case Ok(daemons) =>
        match GroupDaemons(groups[|groups| - 1])
        case Err(e) => Err(e)
        case Ok(more) => Ok(daemons + more)
  }

  /** Once a prefix of the groups has failed, the rest of the groups do not matter. */
  lemma {:induction false} ProvisionErrPersists(groups: seq<ResourceGroup>, n: nat)
    requires n <= |groups| && Provision(groups[..n]).Err?
    ensures Provision(groups) == Provision(groups[..n])
    decreases |groups| - n
  {
    if n < |groups| {
      var init := groups[..|groups| - 1];
      assert init[..n] == groups[..n];
      ProvisionErrPersists(init, n);
    } else {
      assert groups[..n] == groups;
    }
  }

  /** New: the strategy gate. The option closures are not modelled; their net
      effect is the strategy passed in. */
  function New(strategy: SharingStrategy): (r: Result<Manager>)
    ensures r.Ok?
    ensures r.value.NullManager? <==> strategy != SharingMps
  {
    if strategy != SharingMps then Ok(NullManager) else Ok(MpsManager)
  }

  /** Daemons of the real manager: enumerate the resource groups, then filter,
      validate and construct, group by group. */
  method ManagerDaemons(enumeration: Enumeration) returns (r: Result<seq<Daemon>>)
    ensures enumeration.EnumerationError? ==> r == Err(EnumerationFailed(enumeration.reason))
    ensures enumeration.Enumerated? ==> r == Provision(enumeration.groups)
  {
    if enumeration.EnumerationError? {
      return Err(EnumerationFailed(enumeration.reason));
    }
    var groups := enumeration.groups;
    var daemons: seq<Daemon> := [];
    for i := 0 to |groups|
      invariant Provision(groups[..i]) == Ok(daemons)
    {
      var rm := groups[i];
      assert groups[..i + 1][..i] == groups[..i];
      assert Provision(groups[..i + 1]) == match GroupDaemons(rm)
        case Err(e) => Err(e)
        case Ok(more) => Ok(daemons + more);
      assert daemons + [] == daemons;
      if |rm.devices| == 0 {
        continue;
      }
      if !AnyHasAnnotations(rm.devices) {
        continue;
      }
      for j := 0 to |rm.devices|
        invariant forall m :: 0 <= m < j ==> !Rejected(rm.devices[m])
      {
        var device := rm.devices[j];
        if device.isMig {
          continue;
        }
        if !device.replicasOk {
          FirstRejectedAt(rm.devices, j);
          ProvisionErrPersists(groups, i + 1);
          return Err(InvalidMpsConfiguration(device.id));
        }
      }
      assert GroupDaemons(rm) == Ok([NewDaemon(rm, ContainerRoot)]);
      daemons := daemons + [NewDaemon(rm, ContainerRoot)];
    }
    assert groups[..|groups|] == groups;
    return Ok(daemons);
  }

  /** Daemons of the null manager: no daemons and no error, without enumerating. */
  method NullManagerDaemons() returns (r: Result<seq<Daemon>>)
    ensures r == Ok([])
  {
    return Ok([]);
  }

  /** NewDaemons: create the manager for the strategy and ask it for its daemons. */
  method NewDaemons(strategy: SharingStrategy, enumeration: Enumeration) returns (r: Result<seq<Daemon>>)
    ensures strategy != SharingMps ==> r == Ok([])
    ensures strategy == SharingMps && enumeration.EnumerationError? ==>
              r == Err(EnumerationFailed(enumeration.reason))
    ensures strategy == SharingMps && enumeration.Enumerated? ==> r == Provision(enumeration.groups)
    ensures r.Err? ==> !r.error.ManagerCreationFailed?
  {
    match New(strategy)
    case Err(e) =>
      r := Err(ManagerCreationFailed(e));
    case Ok(manager) =>
      match manager
      case NullManager =>
        r := NullManagerDaemons();
      case MpsManager =>
        r := ManagerDaemons(enumeration);
  }
}
