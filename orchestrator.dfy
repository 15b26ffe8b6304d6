/**
 * Snapshot orchestration (`create_snapshots`). For each selected instance in
 * order: stop it and wait until it is stopped; for each volume, skip it if a
 * snapshot is pending, otherwise create one; start it and wait until it runs.
 * Nothing is caught: the first call that raises ends the whole run.
 */
module Orchestrator {
  import opened Wrappers
  import opened Fleet
  import opened Locator
  import opened Inspector
  import opened Provider

  /** The fixed description every created snapshot is given. */
  const Description: string := "Created by my program to create CLI"

  /** The create call issued for one volume. */
  function CreateFor(v: Volume): Action {
    CreateSnapshot(v.id, Description)
  }

  /** The calls planned for a list of volumes: one create per volume without a pending snapshot. */
  function VolumeActions(vols: seq<Volume>): seq<Action> {
    if vols == [] then []
    else (if HasPendingSnapshot(vols[0]) then [] else [CreateFor(vols[0])]) + VolumeActions(vols[1..])
  }

  /** The calls planned for one instance when none of them fails. */
  function InstanceActions(i: Instance): seq<Action> {
    [StopInstance(i.id), WaitUntilStopped(i.id)]
    + VolumeActions(i.volumes)
    + [StartInstance(i.id), WaitUntilRunning(i.id)]
  }

  /** The calls planned for the selected instances, in selection order. */
  function Plan(sel: seq<Instance>): seq<Action> {
    if sel == [] then [] else InstanceActions(sel[0]) + Plan(sel[1..])
  }

  /** No call of `acts` is in the fault table. */
  predicate FaultFree(faults: map<Action, ProviderError>, acts: seq<Action>) {
    forall a :: a in acts ==> a !in faults
  }

  /** The calls actually made when `acts` is attempted in order, and how the attempt ended. */
  datatype Run = Run(calls: seq<Action>, outcome: Outcome)

  /**
   * Attempt `acts` in order with no exception handling: the calls made are
   * the longest fault-free prefix of `acts` plus the first faulting call, and
   * the run ends with that call's error, or normally if none fails.
   */
  function Execute(acts: seq<Action>, faults: map<Action, ProviderError>): Run {
    if acts == [] then Run([], Done)
    else if acts[0] in faults then Run([acts[0]], Raised(faults[acts[0]]))
    else
      var rest := Execute(acts[1..], faults);
      Run([acts[0]] + rest.calls, rest.outcome)
  }

  /** The calls a run makes are a prefix of the calls it plans. */
  lemma {:induction false} ExecuteIsPrefix(acts: seq<Action>, faults: map<Action, ProviderError>)
    ensures |Execute(acts, faults).calls| <= |acts|
    ensures Execute(acts, faults).calls == acts[..|Execute(acts, faults).calls|]
  {
    if acts != [] && acts[0] !in faults {
      ExecuteIsPrefix(acts[1..], faults);
      var rest := Execute(acts[1..], faults).calls;
      assert [acts[0]] + rest == acts[..1 + |rest|];
    }
  }

  /**
   * A run that raises ends with the failing call, whose error it reports, and
   * every call before that one succeeded.
   */
  lemma {:induction false} ExecuteRaisesAtLast(acts: seq<Action>, faults: map<Action, ProviderError>)
    requires Execute(acts, faults).outcome.Raised?
    ensures var calls := Execute(acts, faults).calls;
            && |calls| > 0
            && calls[|calls| - 1] in faults
            && Execute(acts, faults).outcome.error == faults[calls[|calls| - 1]]
            && FaultFree(faults, calls[..|calls| - 1])
  {
    if acts[0] !in faults {
      ExecuteRaisesAtLast(acts[1..], faults);
      var rest := Execute(acts[1..], faults).calls;
      assert ([acts[0]] + rest)[..|rest|] == [acts[0]] + rest[..|rest| - 1];
    }
  }

  /**
   * A run ends normally exactly when none of its planned calls fails, and
   * then it made every planned call.
   */
  lemma {:induction false} ExecuteCompletes(acts: seq<Action>, faults: map<Action, ProviderError>)
    ensures Execute(acts, faults).outcome.Done? <==> FaultFree(faults, acts)
    ensures Execute(acts, faults).outcome.Done? ==> Execute(acts, faults).calls == acts
  {
    if acts != [] {
      ExecuteCompletes(acts[1..], faults);
      assert [acts[0]] + acts[1..] == acts;
      assert forall a :: a in acts ==> a == acts[0] || a in acts[1..];
    }
  }

  /** Attempting `p + q` is attempting `p`, then, only if `p` ran to the end, attempting `q`. */
  lemma {:induction false} ExecuteAppend(p: seq<Action>, q: seq<Action>, faults: map<Action, ProviderError>)
    ensures Execute(p + q, faults)
            == if Execute(p, faults).outcome.Done?
               then Run(p + Execute(q, faults).calls, Execute(q, faults).outcome)
               else Execute(p, faults)
  {
    if p == [] {
      assert p + q == q;
    } else {
      assert (p + q)[0] == p[0] && (p + q)[1..] == p[1..] + q;
      ExecuteAppend(p[1..], q, faults);
      if p[0] !in faults {
        assert [p[0]] + p[1..] == p;
      }
    }
  }

  /** The run made of the calls `done` followed by the run `r`. */
  function After(done: seq<Action>, r: Run): Run {
    Run(done + r.calls, r.outcome)
  }

  /**
   * One step of `Execute`: when the run still has `[a] + next` ahead of it
   * after `done`, the call `a` either raises and ends it, or succeeds and
   * leaves `next` ahead.
   */
  lemma Advance(full: Run, done: seq<Action>, a: Action, next: seq<Action>, faults: map<Action, ProviderError>)
    requires full == After(done, Execute([a] + next, faults))
    ensures a in faults ==> full == Run(done + [a], Raised(faults[a]))
    ensures a !in faults ==> full == After(done + [a], Execute(next, faults))
  {
    assert ([a] + next)[0] == a && ([a] + next)[1..] == next;
  }

  /**
   * The volume loop of `create_snapshots` for one instance: skip each volume
   * with a pending snapshot, create one for every other volume.
   */
  method SnapshotVolumes(cloud: Cloud, vols: seq<Volume>) returns (outcome: Outcome)
    modifies cloud
    ensures Ran(old(cloud.calls), cloud.calls, VolumeActions(vols), outcome, cloud.faults)
  {
    ghost var faults := cloud.faults;
    ghost var full := Execute(VolumeActions(vols), faults);
    ghost var done: seq<Action> := [];
    assert vols[0..] == vols;
    outcome := Done;
    var j := 0;
    while j < |vols|
      invariant j <= |vols|
      invariant cloud.calls == old(cloud.calls) + done
      invariant full == After(done, Execute(VolumeActions(vols[j..]), faults))
      invariant outcome == Done
    {
      var v := vols[j];
      assert vols[j..][0] == v && vols[j..][1..] == vols[j + 1..];
      if HasPendingSnapshot(v) {
        assert VolumeActions(vols[j..]) == VolumeActions(vols[j + 1..]);
        j := j + 1;
        continue;
      }
      assert VolumeActions(vols[j..]) == [CreateFor(v)] + VolumeActions(vols[j + 1..]);
      Advance(full, done, CreateFor(v), VolumeActions(vols[j + 1..]), faults);
      outcome := cloud.Snapshot(v.id, Description);
      done := done + [CreateFor(v)];
      if outcome.Raised? {
        return;
      }
      j := j + 1;
    }
    assert vols[j..] == [];
  }

  /** The calls logged between `before` and `after` are the run of `acts`, which ended with `outcome`. */
  ghost predicate Ran(before: seq<Action>, after: seq<Action>, acts: seq<Action>, outcome: Outcome, faults: map<Action, ProviderError>) {
    after == before + Execute(acts, faults).calls && outcome == Execute(acts, faults).outcome
  }

  lemma RanOne(before: seq<Action>, a: Action, faults: map<Action, ProviderError>)
    ensures Ran(before, before + [a], [a], Response(faults, a), faults)
  {
    assert [a][1..] == [];
  }

  lemma RanThen(t0: seq<Action>, t1: seq<Action>, t2: seq<Action>, p: seq<Action>, q: seq<Action>, o: Outcome, faults: map<Action, ProviderError>)
    requires Ran(t0, t1, p, Done, faults) && Ran(t1, t2, q, o, faults)
    ensures Ran(t0, t2, p + q, o, faults)
  {
    ExecuteAppend(p, q, faults);
    ExecuteCompletes(p, faults);
  }

  lemma RanAbort(t0: seq<Action>, t1: seq<Action>, p: seq<Action>, q: seq<Action>, o: Outcome, faults: map<Action, ProviderError>)
    requires Ran(t0, t1, p, o, faults) && o.Raised?
    ensures Ran(t0, t1, p + q, o, faults)
  {
    ExecuteAppend(p, q, faults);
  }

  /** The body of the instance loop of `create_snapshots`: stop, snapshot the volumes, start. */
  method SnapshotInstance(cloud: Cloud, inst: Instance) returns (outcome: Outcome)
    modifies cloud
    ensures Ran(old(cloud.calls), cloud.calls, InstanceActions(inst), outcome, cloud.faults)
  {
    ghost var faults := cloud.faults;
    ghost var t0 := cloud.calls;
    ghost var halt := [StopInstance(inst.id), WaitUntilStopped(inst.id)];
    ghost var resume := [StartInstance(inst.id), WaitUntilRunning(inst.id)];
    ghost var volumes := VolumeActions(inst.volumes);
    assert InstanceActions(inst) == halt + (volumes + resume);

    outcome := cloud.Stop(inst.id);
    RanOne(t0, halt[0], faults);
    if outcome.Raised? {
      RanAbort(t0, cloud.calls, [halt[0]], [halt[1]], outcome, faults);
      RanAbort(t0, cloud.calls, halt, volumes + resume, outcome, faults);
      return;
    }
    ghost var t1 := cloud.calls;
    outcome := cloud.AwaitStopped(inst.id);
    RanOne(t1, halt[1], faults);
    RanThen(t0, t1, cloud.calls, [halt[0]], [halt[1]], outcome, faults);
    assert [halt[0]] + [halt[1]] == halt;
    if outcome.Raised? {
      RanAbort(t0, cloud.calls, halt, volumes + resume, outcome, faults);
      return;
    }
    ghost var t2 := cloud.calls;
    outcome := SnapshotVolumes(cloud, inst.volumes);
    RanThen(t0, t2, cloud.calls, halt, volumes, outcome, faults);
    if outcome.Raised? {
      RanAbort(t0, cloud.calls, halt + volumes, resume, outcome, faults);
      assert halt + volumes + resume == halt + (volumes + resume);
      return;
    }
    ghost var t3 := cloud.calls;
    outcome := cloud.Start(inst.id);
    RanOne(t3, resume[0], faults);
    if outcome.Raised? {
      RanAbort(t3, cloud.calls, [resume[0]], [resume[1]], outcome, faults);
      assert [resume[0]] + [resume[1]] == resume;
      RanThen(t0, t3, cloud.calls, halt + volumes, resume, outcome, faults);
      assert halt + volumes + resume == halt + (volumes + resume);
      return;
    }
    ghost var t4 := cloud.calls;
    outcome := cloud.AwaitRunning(inst.id);
    RanOne(t4, resume[1], faults);
    RanThen(t3, t4, cloud.calls, [resume[0]], [resume[1]], outcome, faults);
    assert [resume[0]] + [resume[1]] == resume;
    RanThen(t0, t3, cloud.calls, halt + volumes, resume, outcome, faults);
    assert halt + volumes + resume == halt + (volumes + resume);
  }

  /** The plan for a concatenation of selections is the concatenation of their plans. */
  lemma {:induction false} PlanAppend(a: seq<Instance>, b: seq<Instance>)
    ensures Plan(a + b) == Plan(a) + Plan(b)
  {
    if a == [] {
      assert a + b == b;
    } else {
      assert (a + b)[0] == a[0] && (a + b)[1..] == a[1..] + b;
      PlanAppend(a[1..], b);
    }
  }

  /** The instance loop of `create_snapshots` over the selected instances `sel`. */
  method SnapshotEach(cloud: Cloud, sel: seq<Instance>) returns (outcome: Outcome)
    modifies cloud
    ensures Ran(old(cloud.calls), cloud.calls, Plan(sel), outcome, cloud.faults)
  {
    ghost var faults := cloud.faults;
    ghost var t0 := cloud.calls;
    outcome := Done;
    var k := 0;
    while k < |sel|
      invariant k <= |sel|
      invariant Ran(t0, cloud.calls, Plan(sel[..k]), Done, faults)
      invariant outcome == Done
    {
      var inst := sel[k];
      assert Plan([inst]) == InstanceActions(inst) by {
        assert [inst][1..] == [];
      }
      assert sel[..k + 1] == sel[..k] + [inst];
      PlanAppend(sel[..k], [inst]);
      ghost var t1 := cloud.calls;
      outcome := SnapshotInstance(cloud, inst);
      RanThen(t0, t1, cloud.calls, Plan(sel[..k]), Plan([inst]), outcome, faults);
      if outcome.Raised? {
        RanAbort(t0, cloud.calls, Plan(sel[..k + 1]), Plan(sel[k + 1..]), outcome, faults);
        assert sel[..k + 1] + sel[k + 1..] == sel;
        PlanAppend(sel[..k + 1], sel[k + 1..]);
        return;
      }
      k := k + 1;
    }
    assert sel[..k] == sel;
  }

  /**
   * `create_snapshots(project)` against the provider `cloud`. Returns `Done`
   * when every call succeeded ("Job done!!"), or the error that ended the run.
   */
  method CreateSnapshots(cloud: Cloud, fleet: seq<Instance>, project: Option<string>) returns (outcome: Outcome)
    modifies cloud
    ensures Ran(old(cloud.calls), cloud.calls, Plan(FilterInstances(fleet, project)), outcome, cloud.faults)
  {
    var instances := FilterInstances(fleet, project);
    outcome := SnapshotEach(cloud, instances);
  }
}
