/**
 * What `create_snapshots` promises, stated over the plan of calls and its
 * execution (see module Orchestrator): which volumes get a create, in what
 * order, and what a failing call does to the rest of the batch.
 */
module SnapshotProperties {
  import opened Wrappers
  import opened Fleet
  import opened Locator
  import opened Inspector
  import opened Provider
  import opened Orchestrator

  /** The number of volumes of `vols` without a pending snapshot. */
  function CountEligible(vols: seq<Volume>): nat {
    if vols == [] then 0
    else CountEligible(vols[..|vols| - 1]) + (if HasPendingSnapshot(vols[|vols| - 1]) then 0 else 1)
  }

  lemma {:induction false} VolumeActionsAppend(a: seq<Volume>, b: seq<Volume>)
    ensures VolumeActions(a + b) == VolumeActions(a) + VolumeActions(b)
  {
    if a == [] {
      assert a + b == b;
    } else {
      assert (a + b)[0] == a[0] && (a + b)[1..] == a[1..] + b;
      VolumeActionsAppend(a[1..], b);
    }
  }

  /** One create call per volume without a pending snapshot, and nothing else. */
  lemma {:induction false} VolumeActionsCount(vols: seq<Volume>)
    ensures |VolumeActions(vols)| == CountEligible(vols)
  {
    if vols != [] {
      var n := |vols| - 1;
      assert vols == vols[..n] + [vols[n]];
      VolumeActionsAppend(vols[..n], [vols[n]]);
      assert [vols[n]][1..] == [];
      VolumeActionsCount(vols[..n]);
    }
  }

  /**
   * The creates follow volume order: the create of the `j`th volume, when it
   * has no pending snapshot, is preceded by exactly one create for each
   * earlier volume without a pending snapshot.
   */
  lemma VolumeCreatePosition(vols: seq<Volume>, j: nat)
    requires j < |vols| && !HasPendingSnapshot(vols[j])
    ensures CountEligible(vols[..j]) < |VolumeActions(vols)|
    ensures VolumeActions(vols)[CountEligible(vols[..j])] == CreateFor(vols[j])
  {
    assert vols == vols[..j] + vols[j..];
    VolumeActionsAppend(vols[..j], vols[j..]);
    VolumeActionsCount(vols[..j]);
    assert vols[j..][0] == vols[j];
  }

  /** Every call planned for a list of volumes creates a snapshot of one of them that has none pending. */
  lemma {:induction false} VolumeActionsEligible(vols: seq<Volume>, a: Action)
    requires a in VolumeActions(vols)
    ensures exists v :: v in vols && !HasPendingSnapshot(v) && a == CreateFor(v)
  {
    if !HasPendingSnapshot(vols[0]) && a == CreateFor(vols[0]) {
      assert vols[0] in vols;
    } else {
      VolumeActionsEligible(vols[1..], a);
      var v :| v in vols[1..] && !HasPendingSnapshot(v) && a == CreateFor(v);
      assert v in vols;
    }
  }

  /** Every volume without a pending snapshot is planned a create. */
  lemma {:induction false} EligibleVolumePlanned(vols: seq<Volume>, v: Volume)
    requires v in vols && !HasPendingSnapshot(v)
    ensures CreateFor(v) in VolumeActions(vols)
  {
    if vols[0] != v {
      EligibleVolumePlanned(vols[1..], v);
    }
  }

  /**
   * `create_snapshots` never asks for a snapshot of a volume whose newest
   * snapshot is pending: every create it makes is for a volume of a selected
   * instance that has no pending snapshot.
   */
  lemma NoCreateForPending(sel: seq<Instance>, faults: map<Action, ProviderError>, a: Action)
    requires a in Execute(Plan(sel), faults).calls && a.CreateSnapshot?
    ensures exists inst, v :: inst in sel && v in inst.volumes && !HasPendingSnapshot(v) && a == CreateFor(v)
  {
    ExecuteIsPrefix(Plan(sel), faults);
    PlannedCreateEligible(sel, a);
  }

  lemma {:induction false} PlannedCreateEligible(sel: seq<Instance>, a: Action)
    requires a in Plan(sel) && a.CreateSnapshot?
    ensures exists inst, v :: inst in sel && v in inst.volumes && !HasPendingSnapshot(v) && a == CreateFor(v)
  {
    if a in InstanceActions(sel[0]) {
      VolumeActionsEligible(sel[0].volumes, a);
      var v :| v in sel[0].volumes && !HasPendingSnapshot(v) && a == CreateFor(v);
      assert sel[0] in sel;
    } else {
      PlannedCreateEligible(sel[1..], a);
      var inst, v :| inst in sel[1..] && v in inst.volumes && !HasPendingSnapshot(v) && a == CreateFor(v);
      assert inst in sel;
    }
  }

  /**
   * When no call fails, every volume without a pending snapshot on every
   * selected instance receives a create with the fixed description.
   */
  lemma EveryEligibleVolumeCreated(sel: seq<Instance>, faults: map<Action, ProviderError>, inst: Instance, v: Volume)
    requires Execute(Plan(sel), faults).outcome.Done?
    requires inst in sel && v in inst.volumes && !HasPendingSnapshot(v)
    ensures CreateSnapshot(v.id, Description) in Execute(Plan(sel), faults).calls
  {
    ExecuteCompletes(Plan(sel), faults);
    InstancePlanned(sel, inst);
    EligibleVolumePlanned(inst.volumes, v);
  }

  lemma {:induction false} InstancePlanned(sel: seq<Instance>, inst: Instance)
    requires inst in sel
    ensures forall a :: a in InstanceActions(inst) ==> a in Plan(sel)
  {
    if sel[0] != inst {
      InstancePlanned(sel[1..], inst);
    }
  }

  /** An instance without volumes is only stopped, waited for, started and waited for. */
  lemma InstanceWithoutVolumes(inst: Instance)
    requires inst.volumes == []
    ensures InstanceActions(inst)
            == [StopInstance(inst.id), WaitUntilStopped(inst.id), StartInstance(inst.id), WaitUntilRunning(inst.id)]
  {
  }

  /** When no planned call fails, the run makes exactly the planned calls, instance by instance. */
  lemma CleanRun(sel: seq<Instance>, faults: map<Action, ProviderError>)
    requires FaultFree(faults, Plan(sel))
    ensures Execute(Plan(sel), faults) == Run(Plan(sel), Done)
  {
    ExecuteCompletes(Plan(sel), faults);
  }

  /**
   * No isolation between instances: when the calls for the first `k`
   * instances all succeed and a call for instance `k` raises, the run ends
   * right there, with that instance's error, and no call is made for any
   * later instance.
   */
  lemma FailureEndsBatch(sel: seq<Instance>, faults: map<Action, ProviderError>, k: nat)
    requires k < |sel|
    requires FaultFree(faults, Plan(sel[..k]))
    requires Execute(InstanceActions(sel[k]), faults).outcome.Raised?
    ensures Execute(Plan(sel), faults)
            == Run(Plan(sel[..k]) + Execute(InstanceActions(sel[k]), faults).calls,
                   Execute(InstanceActions(sel[k]), faults).outcome)
  {
    assert sel == sel[..k] + ([sel[k]] + sel[k + 1..]);
    PlanAppend(sel[..k], [sel[k]] + sel[k + 1..]);
    assert ([sel[k]] + sel[k + 1..])[0] == sel[k] && ([sel[k]] + sel[k + 1..])[1..] == sel[k + 1..];
    ExecuteCompletes(Plan(sel[..k]), faults);
    ExecuteAppend(Plan(sel[..k]), Plan([sel[k]] + sel[k + 1..]), faults);
    ExecuteAppend(InstanceActions(sel[k]), Plan(sel[k + 1..]), faults);
  }

  /** The ids of the volumes that `calls` asked to snapshot. */
  function CreatedVolumes(calls: seq<Action>): set<string> {
    set a | a in calls && a.CreateSnapshot? :: a.volumeId
  }

  /**
   * The provider's record of a volume once the creates `created` are
   * accepted: a volume whose id was asked for has the new snapshot `newest` at
   * the head of its history.
   */
  function RecordVolume(v: Volume, created: set<string>, newest: Snapshot): Volume {
    if v.id in created then v.(snapshots := [newest] + v.snapshots) else v
  }

  function RecordInstance(i: Instance, created: set<string>, newest: Snapshot): Instance {
    i.(volumes := seq(|i.volumes|, k requires 0 <= k < |i.volumes| => RecordVolume(i.volumes[k], created, newest)))
  }

  /** The fleet as the provider records it after accepting the creates `created`. */
  function RecordFleet(fleet: seq<Instance>, created: set<string>, newest: Snapshot): seq<Instance> {
    seq(|fleet|, k requires 0 <= k < |fleet| => RecordInstance(fleet[k], created, newest))
  }

  /** Recording creates changes no tag, so it keeps the same instances in scope. */
  lemma {:induction false} RecordKeepsScope(fleet: seq<Instance>, p: string, created: set<string>, newest: Snapshot)
    ensures TaggedWith(RecordFleet(fleet, created, newest), p) == RecordFleet(TaggedWith(fleet, p), created, newest)
  {
    var recorded := RecordFleet(fleet, created, newest);
    if fleet != [] {
      assert recorded[0] == RecordInstance(fleet[0], created, newest);
      assert recorded[1..] == RecordFleet(fleet[1..], created, newest);
      RecordKeepsScope(fleet[1..], p, created, newest);
      assert Tagged(recorded[0], p) == Tagged(fleet[0], p);
      if Tagged(fleet[0], p) {
        var kept := TaggedWith(fleet, p);
        assert kept == [fleet[0]] + TaggedWith(fleet[1..], p);
        assert RecordFleet(kept, created, newest)
            == [RecordInstance(fleet[0], created, newest)] + RecordFleet(TaggedWith(fleet[1..], p), created, newest);
      }
    }
  }

  /** Recording creates keeps the working set of every project, up to the recorded volumes. */
  lemma RecordKeepsSelection(fleet: seq<Instance>, project: Option<string>, created: set<string>, newest: Snapshot)
    ensures FilterInstances(RecordFleet(fleet, created, newest), project) == RecordFleet(FilterInstances(fleet, project), created, newest)
  {
    if Scoped(project) {
      RecordKeepsScope(fleet, project.value, created, newest);
    }
  }

  /** After a clean run is recorded, every volume of every instance it covered has a pending newest snapshot. */
  lemma RecordedVolumePending(sel: seq<Instance>, faults: map<Action, ProviderError>, newest: Snapshot, inst: Instance, v: Volume)
    requires Execute(Plan(sel), faults).outcome.Done? && newest.state == Pending
    requires inst in sel && v in inst.volumes
    ensures HasPendingSnapshot(RecordVolume(v, CreatedVolumes(Execute(Plan(sel), faults).calls), newest))
  {
    if !HasPendingSnapshot(v) {
      EveryEligibleVolumeCreated(sel, faults, inst, v);
      assert v.id in CreatedVolumes(Execute(Plan(sel), faults).calls);
    }
  }

  /**
   * Re-running `create_snapshots` is harmless: once a clean run's creates
   * have been recorded, and before the provider completes any of the new
   * snapshots, a second run over the same project creates nothing, because
   * every volume in scope now has a pending newest snapshot.
   */
  lemma RerunCreatesNothing(
    fleet: seq<Instance>, project: Option<string>, faults: map<Action, ProviderError>,
    newest: Snapshot, faults': map<Action, ProviderError>, a: Action)
    requires Execute(Plan(FilterInstances(fleet, project)), faults).outcome.Done?
    requires newest.state == Pending
    requires var created := CreatedVolumes(Execute(Plan(FilterInstances(fleet, project)), faults).calls);
             a in Execute(Plan(FilterInstances(RecordFleet(fleet, created, newest), project)), faults').calls
    ensures !a.CreateSnapshot?
  {
    var sel := FilterInstances(fleet, project);
    var created := CreatedVolumes(Execute(Plan(sel), faults).calls);
    var sel' := FilterInstances(RecordFleet(fleet, created, newest), project);
    RecordKeepsSelection(fleet, project, created, newest);
    if a.CreateSnapshot? {
      NoCreateForPending(sel', faults', a);
      var inst', v' :| inst' in sel' && v' in inst'.volumes && !HasPendingSnapshot(v') && a == CreateFor(v');
      var k :| 0 <= k < |sel'| && sel'[k] == inst';
      var j :| 0 <= j < |inst'.volumes| && inst'.volumes[j] == v';
      RecordedVolumePending(sel, faults, newest, sel[k], sel[k].volumes[j]);
      assert false;
    }
  }

  /** A volume with no snapshots on an instance tagged `proj=dev` gets exactly one create. */
  lemma ScenarioFreshVolume()
    ensures var vol := Volume("vol-1", 8, false, "in-use", []);
            var inst := Instance("i-1", "t2.micro", "us-east-1a", "running", "", Some([Tag("proj", "dev")]), [vol]);
            Execute(Plan(FilterInstances([inst], Some("dev"))), map[])
            == Run([StopInstance("i-1"), WaitUntilStopped("i-1"), CreateSnapshot("vol-1", Description),
                    StartInstance("i-1"), WaitUntilRunning("i-1")], Done)
  {
    var vol := Volume("vol-1", 8, false, "in-use", []);
    var inst := Instance("i-1", "t2.micro", "us-east-1a", "running", "", Some([Tag("proj", "dev")]), [vol]);
    assert Tagged(inst, "dev");
    assert FilterInstances([inst], Some("dev")) == [inst];
    assert [inst][1..] == [] && [vol][1..] == [];
    assert Plan([inst]) == InstanceActions(inst);
    assert VolumeActions([vol]) == VolumeActions([]) + (if HasPendingSnapshot(vol) then [] else [CreateFor(vol)]);
    CleanRun([inst], map[]);
  }

  /** A volume whose newest snapshot is pending is skipped: the instance is only stopped and started. */
  lemma ScenarioPendingVolume()
    ensures var vol := Volume("vol-2", 8, false, "in-use", [Snapshot("snap-1", Pending, "10%")]);
            var inst := Instance("i-2", "t2.micro", "us-east-1a", "running", "", Some([Tag("proj", "dev")]), [vol]);
            Execute(Plan(FilterInstances([inst], Some("dev"))), map[])
            == Run([StopInstance("i-2"), WaitUntilStopped("i-2"), StartInstance("i-2"), WaitUntilRunning("i-2")], Done)
  {
    var vol := Volume("vol-2", 8, false, "in-use", [Snapshot("snap-1", Pending, "10%")]);
    var inst := Instance("i-2", "t2.micro", "us-east-1a", "running", "", Some([Tag("proj", "dev")]), [vol]);
    assert Tagged(inst, "dev");
    assert FilterInstances([inst], Some("dev")) == [inst];
    assert [inst][1..] == [] && [vol][1..] == [];
    assert Plan([inst]) == InstanceActions(inst);
    assert VolumeActions([vol]) == VolumeActions([]) + (if HasPendingSnapshot(vol) then [] else [CreateFor(vol)]);
    CleanRun([inst], map[]);
  }

  /**
   * Two instances, the first of which cannot be stopped: the run ends with
   * that error and the second instance receives no call at all.
   */
  lemma ScenarioStopFailureAbortsBatch()
    ensures var i1 := Instance("i-1", "t2.micro", "us-east-1a", "running", "", None, []);
            var i2 := Instance("i-2", "t2.micro", "us-east-1a", "running", "", None, []);
            var faults := map[StopInstance("i-1") := ClientError("IncorrectInstanceState")];
            Execute(Plan(FilterInstances([i1, i2], None)), faults)
            == Run([StopInstance("i-1")], Raised(ClientError("IncorrectInstanceState")))
  {
  }
}
