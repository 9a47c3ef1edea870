/** Properties of the MPS provisioning decision: which groups get a daemon, in
    what order, when the whole call fails and which device the error names. */
module MpsProperties {

  import opened Mps

  /** The groups that pass both skip filters, in input order: an independent
      reference definition of which groups the real manager provisions. */
  function Survivors(groups: seq<ResourceGroup>): (r: seq<ResourceGroup>)
    ensures |r| <= |groups|
    ensures forall k :: 0 <= k < |r| ==> Qualifies(r[k])
  {
    if groups == [] then []
    else if Qualifies(groups[0]) then [groups[0]] + Survivors(groups[1..])
    else Survivors(groups[1..])
  }

  /** `a` is `b` with some elements removed and the rest kept in order
      (matching each element of `a` against the earliest possible one of `b`). */
  predicate IsSubsequence<T(==)>(a: seq<T>, b: seq<T>)
    decreases |b|
  {
    if a == [] then true
    else if b == [] then false
    else if a[0] == b[0] then IsSubsequence(a[1..], b[1..])
    else IsSubsequence(a, b[1..])
  }

  /** The daemon specifications for the given groups, one per group, in order. */
  function DaemonsFor(groups: seq<ResourceGroup>): seq<Daemon>
  {
    seq(|groups|, k requires 0 <= k < |groups| => NewDaemon(groups[k], ContainerRoot))
  }

  lemma {:induction false} SurvivorsSnoc(groups: seq<ResourceGroup>, rm: ResourceGroup)
    ensures Survivors(groups + [rm]) == Survivors(groups) + (if Qualifies(rm) then [rm] else [])
  {
    if groups == [] {
      assert [] + [rm] == [rm];
      assert [rm][1..] == [];
    } else {
      assert (groups + [rm])[0] == groups[0];
      assert (groups + [rm])[1..] == groups[1..] + [rm];
      SurvivorsSnoc(groups[1..], rm);
    }
  }

  /** The surviving groups are exactly the qualifying input groups, kept in input order. */
  lemma {:induction false} SurvivorsAreOrderedSubsequence(groups: seq<ResourceGroup>)
    ensures IsSubsequence(Survivors(groups), groups)
    ensures forall rm :: rm in Survivors(groups) <==> rm in groups && Qualifies(rm)
  {
    if groups != [] {
      SurvivorsAreOrderedSubsequence(groups[1..]);
      assert groups == [groups[0]] + groups[1..];
      var s := Survivors(groups);
      if !Qualifies(groups[0]) && s != [] {
        assert s[0] != groups[0];
      }
    }
  }

  /** The call succeeds exactly when every group that passes the skip filters has
      no non-MIG device that fails the replica check. */
  lemma {:induction false} ProvisionOkIff(groups: seq<ResourceGroup>)
    ensures Provision(groups).Ok? <==>
              forall i :: 0 <= i < |groups| && Qualifies(groups[i]) ==> ReplicasValid(groups[i].devices)
  {
    if groups != [] {
      var init := groups[..|groups| - 1];
      ProvisionOkIff(init);
      assert forall i :: 0 <= i < |init| ==> init[i] == groups[i];
    }
  }

  lemma DaemonsForSnoc(groups: seq<ResourceGroup>, rm: ResourceGroup)
    ensures DaemonsFor(groups + [rm]) == DaemonsFor(groups) + [NewDaemon(rm, ContainerRoot)]
  {
    var longer := groups + [rm];
    assert forall k :: 0 <= k < |groups| ==> longer[k] == groups[k];
  }

  /** On success the daemons are those of the surviving groups, one each, in input
      order, all with the fixed container root. */
  lemma {:induction false} ProvisionOkIsSurvivors(groups: seq<ResourceGroup>)
    requires Provision(groups).Ok?
    ensures Provision(groups).value == DaemonsFor(Survivors(groups))
  {
    if groups != [] {
      var init := groups[..|groups| - 1];
      var rm := groups[|groups| - 1];
      assert Provision(init).Ok?;
      ProvisionOkIsSurvivors(init);
      assert groups == init + [rm];
      SurvivorsSnoc(init, rm);
      var before := Survivors(init);
      var done := Provision(init).value;
      assert done == DaemonsFor(before);
      if Qualifies(rm) {
        assert GroupDaemons(rm) == Ok([NewDaemon(rm, ContainerRoot)]);
        assert Provision(groups).value == done + [NewDaemon(rm, ContainerRoot)];
        assert Survivors(groups) == before + [rm];
        DaemonsForSnoc(before, rm);
      } else {
        assert GroupDaemons(rm) == Ok([]);
        assert Provision(groups).value == done + [];
        assert done + [] == done;
        assert Survivors(groups) == before;
      }
    }
  }

  /** The error names the first rejected device of the first qualifying group that
      has one: the groups before it all pass, and so do its devices before it. */
  lemma {:induction false} ProvisionErrNamesFirstRejected(groups: seq<ResourceGroup>, i: nat, k: nat)
    requires i < |groups| && Qualifies(groups[i])
    requires forall j :: 0 <= j < i && Qualifies(groups[j]) ==> ReplicasValid(groups[j].devices)
    requires k < |groups[i].devices| && Rejected(groups[i].devices[k])
    requires forall m :: 0 <= m < k ==> !Rejected(groups[i].devices[m])
    ensures Provision(groups) == Err(InvalidMpsConfiguration(groups[i].devices[k].id))
  {
    var prefix := groups[..i];
    assert forall j :: 0 <= j < |prefix| ==> prefix[j] == groups[j];
    ProvisionOkIff(prefix);
    FirstRejectedAt(groups[i].devices, k);
    assert groups[..i + 1][..i] == prefix;
    ProvisionErrPersists(groups, i + 1);
  }

  /** Provisioning two runs of groups one after the other: daemons are concatenated
      when both succeed; any failure wins, and an error in the second run discards
      the daemons already built for the first. */
  lemma {:induction false} ProvisionConcat(first: seq<ResourceGroup>, second: seq<ResourceGroup>)
    ensures Provision(first).Err? ==> Provision(first + second) == Provision(first)
    ensures Provision(first).Ok? && Provision(second).Err? ==> Provision(first + second) == Provision(second)
    ensures Provision(first).Ok? && Provision(second).Ok? ==>
              Provision(first + second) == Ok(Provision(first).value + Provision(second).value)
    decreases |second|
  {
    if second == [] {
      assert first + second == first;
      if Provision(first).Ok? {
        assert Provision(first).value + [] == Provision(first).value;
      }
    } else {
      var init := second[..|second| - 1];
      var rm := second[|second| - 1];
      ProvisionConcat(first, init);
      assert (first + second)[..|first + second| - 1] == first + init;
      assert (first + second)[|first + second| - 1] == rm;
      match Provision(first)
      case Err(_) =>
      case Ok(a) =>
        match Provision(init)
        case Err(_) =>
        case Ok(b) =>
          match GroupDaemons(rm)
          case Err(_) =>
          case Ok(more) =>
            assert a + b + more == a + (b + more);
    }
  }

  /** A group that has no devices, or no shared device, changes nothing: none of its
      devices is replica-checked, so even one with bad replicas causes no error. */
  lemma SkippedGroupIsInvisible(before: seq<ResourceGroup>, rm: ResourceGroup, after: seq<ResourceGroup>)
    requires !Qualifies(rm)
    ensures Provision(before + [rm] + after) == Provision(before + after)
  {
    assert Provision([rm]) == Ok([]);
    ProvisionConcat(before, [rm]);
    assert before + [rm] + after == (before + [rm]) + after;
    if Provision(before).Ok? {
      assert Provision(before).value + [] == Provision(before).value;
    }
    ProvisionConcat(before + [rm], after);
    ProvisionConcat(before, after);
  }

  /** The skip filters and the replica check see a group's devices as a collection:
      reordering the devices changes none of them. */
  lemma DeviceOrderDoesNotDecideOutcome(devices: seq<Device>, reordered: seq<Device>)
    requires multiset(devices) == multiset(reordered)
    ensures |devices| == |reordered|
    ensures AnyHasAnnotations(devices) <==> AnyHasAnnotations(reordered)
    ensures ReplicasValid(devices) <==> ReplicasValid(reordered)
  {
    assert |multiset(devices)| == |multiset(reordered)|;
    SameElementsPreserveTests(devices, reordered);
    SameElementsPreserveTests(reordered, devices);
  }

  lemma SameElementsPreserveTests(devices: seq<Device>, other: seq<Device>)
    requires multiset(devices) == multiset(other)
    ensures AnyHasAnnotations(devices) ==> AnyHasAnnotations(other)
    ensures !ReplicasValid(devices) ==> !ReplicasValid(other)
  {
    if AnyHasAnnotations(devices) {
      var k :| 0 <= k < |devices| && devices[k].annotated;
      assert devices[k] in multiset(other);
      var m :| 0 <= m < |other| && other[m] == devices[k];
    }
    if !ReplicasValid(devices) {
      var k :| 0 <= k < |devices| && Rejected(devices[k]);
      assert devices[k] in multiset(other);
      var m :| 0 <= m < |other| && other[m] == devices[k];
    }
  }

  /** A group that passes the skip filters and whose non-MIG devices all pass the
      replica check gets exactly one daemon, whatever its MIG devices' replicas say. */
  lemma MigDevicesAreExempt(rm: ResourceGroup)
    requires Qualifies(rm)
    requires forall k :: 0 <= k < |rm.devices| && !rm.devices[k].isMig ==> rm.devices[k].replicasOk
    ensures Provision([rm]) == Ok([NewDaemon(rm, ContainerRoot)])
  {
    assert [rm][..0] == [];
    assert ReplicasValid(rm.devices);
    var one := [NewDaemon(rm, ContainerRoot)];
    assert GroupDaemons(rm) == Ok(one);
    assert [] + one == one;
  }

  /** MIG devices do not stop daemon creation: a shared group made only of MIG
      devices still gets its daemon, even if every replica check would fail. */
  lemma AllMigGroupGetsDaemon(rm: ResourceGroup)
    requires |rm.devices| > 0 && AnyHasAnnotations(rm.devices)
    requires forall k :: 0 <= k < |rm.devices| ==> rm.devices[k].isMig
    ensures Provision([rm]) == Ok([NewDaemon(rm, ContainerRoot)])
  {
    MigDevicesAreExempt(rm);
  }

  /** Two groups, a shared one and an unshared one: only the shared one gets a daemon. */
  lemma SharedAndUnsharedGroups()
    ensures
      var gpu0 := ResourceGroup("gpu0", [Device("gpu0-dev", true, false, true)]);
      var gpu1 := ResourceGroup("gpu1", [Device("gpu1-dev", false, false, true)]);
      Provision([gpu0, gpu1]) == Ok([NewDaemon(gpu0, ContainerRoot)])
  {
    var gpu0 := ResourceGroup("gpu0", [Device("gpu0-dev", true, false, true)]);
    var gpu1 := ResourceGroup("gpu1", [Device("gpu1-dev", false, false, true)]);
    assert [gpu0, gpu1][..1] == [gpu0];
    assert gpu0.devices[0].annotated;
    MigDevicesAreExempt(gpu0);
    assert [NewDaemon(gpu0, ContainerRoot)] + [] == [NewDaemon(gpu0, ContainerRoot)];
  }

  /** A shared group whose only device is a MIG device gets a daemon, no error. */
  lemma SharedMigGroupGetsDaemon()
    ensures
      var gpu0 := ResourceGroup("gpu0", [Device("gpu0-mig", true, true, false)]);
      Provision([gpu0]) == Ok([NewDaemon(gpu0, ContainerRoot)])
  {
    var gpu0 := ResourceGroup("gpu0", [Device("gpu0-mig", true, true, false)]);
    assert gpu0.devices[0].annotated;
    AllMigGroupGetsDaemon(gpu0);
  }

  /** A shared, non-MIG device with a bad replica configuration fails the whole call,
      discarding the daemon already built for the group before it. */
  lemma BadReplicasFailTheWholeCall()
    ensures
      var good := ResourceGroup("gpu0", [Device("gpu0-dev", true, false, true)]);
      var bad := ResourceGroup("gpu1", [Device("gpu1-dev", true, false, false)]);
      Provision([good, bad]) == Err(InvalidMpsConfiguration("gpu1-dev"))
  {
    var good := ResourceGroup("gpu0", [Device("gpu0-dev", true, false, true)]);
    var bad := ResourceGroup("gpu1", [Device("gpu1-dev", true, false, false)]);
    assert good.devices[0].annotated && bad.devices[0].annotated;
    ProvisionErrNamesFirstRejected([good, bad], 1, 0);
  }
}
