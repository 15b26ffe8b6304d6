/**
 * The fire-and-forget commands `stop_call` and `start_call`: one stop (start)
 * call per selected instance, in order, without waiting. A `ClientError` is
 * reported as "Could not stop/start" and the loop goes on; any other error is
 * not caught and ends the command.
 */
module Power {
  import opened Wrappers
  import opened Fleet
  import opened Locator
  import opened Provider

  datatype Command = StopCommand | StartCommand

  /** The provider call a command makes for one instance. */
  function CommandCall(c: Command, instanceId: string): Action {
    match c
    case StopCommand => StopInstance(instanceId)
    case StartCommand => StartInstance(instanceId)
  }

  /** The line printed before the call: "stopping <id>" / "starting <id>". */
  function Announcement(c: Command, instanceId: string): string {
    match c
    case StopCommand => "stopping " + instanceId
    case StartCommand => "starting " + instanceId
  }

  /** The line printed for a `ClientError`: " Could not stop <id>. <error>". */
  function Complaint(c: Command, instanceId: string, message: string): string {
    match c
    case StopCommand => " Could not stop " + instanceId + ". " + message
    case StartCommand => " Could not start " + instanceId + ". " + message
  }

  /** The calls made, the lines printed, and how the command ended. */
  datatype Report = Report(calls: seq<Action>, lines: seq<string>, outcome: Outcome)

  /** The report made of calls `calls` and lines `lines` followed by the report `r`. */
  function Then(calls: seq<Action>, lines: seq<string>, r: Report): Report {
    Report(calls + r.calls, lines + r.lines, r.outcome)
  }

  /** What the command does for the selected instances `sel` when the provider fails as `faults` says. */
  function Toggle(sel: seq<Instance>, c: Command, faults: map<Action, ProviderError>): Report {
    if sel == [] then Report([], [], Done)
    else
      var a := CommandCall(c, sel[0].id);
      var announce := [Announcement(c, sel[0].id)];
      match Response(faults, a)
      case Done =>
        Then([a], announce, Toggle(sel[1..], c, faults))
      case Raised(ClientError(message)) =>
        Then([a], announce + [Complaint(c, sel[0].id, message)], Toggle(sel[1..], c, faults))
      case Raised(OtherError(message)) =>
        Report([a], announce, Raised(OtherError(message)))
  }

  /**
   * At most one call per selected instance, in selection order; the command
   * ends early only on an error other than `ClientError`, raised by its last
   * call, and otherwise attempts every instance.
   */
  lemma {:induction false} ToggleAttemptsInOrder(sel: seq<Instance>, c: Command, faults: map<Action, ProviderError>)
    ensures var r := Toggle(sel, c, faults);
            && |r.calls| <= |sel|
            && (forall k :: 0 <= k < |r.calls| ==> r.calls[k] == CommandCall(c, sel[k].id))
            && (r.outcome.Raised? ==>
                  && |r.calls| > 0
                  && r.outcome.error.OtherError?
                  && Response(faults, r.calls[|r.calls| - 1]) == r.outcome)
            && (r.outcome.Done? ==> |r.calls| == |sel|)
  {
    if sel != [] {
      ToggleAttemptsInOrder(sel[1..], c, faults);
    }
  }

  /** No call of the command for the instances of `sel` raises anything but a `ClientError`. */
  predicate OnlyClientErrors(sel: seq<Instance>, c: Command, faults: map<Action, ProviderError>) {
    forall k :: 0 <= k < |sel| && CommandCall(c, sel[k].id) in faults ==> faults[CommandCall(c, sel[k].id)].ClientError?
  }

  /**
   * A `ClientError` never ends the command: unless some call raises another
   * kind of error, every selected instance gets exactly one call, in order.
   */
  lemma {:induction false} ClientErrorsDoNotStopBatch(sel: seq<Instance>, c: Command, faults: map<Action, ProviderError>)
    requires OnlyClientErrors(sel, c, faults)
    ensures Toggle(sel, c, faults).outcome == Done
    ensures |Toggle(sel, c, faults).calls| == |sel|
  {
    if sel != [] {
      assert forall k :: 0 <= k < |sel[1..]| ==> sel[1..][k] == sel[k + 1];
      ClientErrorsDoNotStopBatch(sel[1..], c, faults);
    }
  }

  /**
   * Conversely, any error other than a `ClientError` ends the command: it
   * finishes only when every failing call raised a `ClientError`.
   */
  lemma {:induction false} DoneOnlyIfClientErrors(sel: seq<Instance>, c: Command, faults: map<Action, ProviderError>)
    requires Toggle(sel, c, faults).outcome == Done
    ensures OnlyClientErrors(sel, c, faults)
  {
    if sel != [] {
      DoneOnlyIfClientErrors(sel[1..], c, faults);
      forall k | 1 <= k < |sel|
        ensures sel[1..][k - 1] == sel[k]
      {
      }
    }
  }

  /**
   * Every instance that was attempted is announced, and one whose call raised
   * a `ClientError` is reported as "Could not stop/start" with the error's text.
   */
  lemma {:induction false} AttemptsAreReported(sel: seq<Instance>, c: Command, faults: map<Action, ProviderError>, k: nat)
    requires k < |sel| && k < |Toggle(sel, c, faults).calls|
    ensures Announcement(c, sel[k].id) in Toggle(sel, c, faults).lines
    ensures var resp := Response(faults, CommandCall(c, sel[k].id));
            resp.Raised? && resp.error.ClientError? ==>
              Complaint(c, sel[k].id, resp.error.message) in Toggle(sel, c, faults).lines
  {
    if k > 0 {
      AttemptsAreReported(sel[1..], c, faults, k - 1);
      assert sel[1..][k - 1] == sel[k];
    }
  }

  /**
   * The lines printed for one attempted instance: its announcement, followed
   * by a complaint only when its call raised a `ClientError`.
   */
  function InstanceLines(c: Command, i: Instance, faults: map<Action, ProviderError>): seq<string> {
    var resp := Response(faults, CommandCall(c, i.id));
    [Announcement(c, i.id)]
      + if resp.Raised? && resp.error.ClientError? then [Complaint(c, i.id, resp.error.message)] else []
  }

  /** The lines for the attempted instances `sel`, instance after instance. */
  function LinesFor(sel: seq<Instance>, c: Command, faults: map<Action, ProviderError>): seq<string> {
    if sel == [] then [] else InstanceLines(c, sel[0], faults) + LinesFor(sel[1..], c, faults)
  }

  /**
   * The printed output, line by line: for each attempted instance, in
   * selection order, its announcement and, only after a `ClientError`, its
   * complaint.
   */
  lemma {:induction false} ToggleLinesExact(sel: seq<Instance>, c: Command, faults: map<Action, ProviderError>)
    ensures |Toggle(sel, c, faults).calls| <= |sel|
    ensures Toggle(sel, c, faults).lines == LinesFor(sel[..|Toggle(sel, c, faults).calls|], c, faults)
  {
    if sel != [] {
      var i := sel[0];
      var a := CommandCall(c, i.id);
      var rest := Toggle(sel[1..], c, faults);
      var resp := Response(faults, a);
      if resp.Raised? && resp.error.OtherError? {
        assert Toggle(sel, c, faults) == Report([a], [Announcement(c, i.id)], resp);
        assert sel[..1][1..] == [];
      } else {
        ToggleLinesExact(sel[1..], c, faults);
        var n := 1 + |rest.calls|;
        assert |Toggle(sel, c, faults).calls| == n;
        assert Toggle(sel, c, faults).lines == InstanceLines(c, i, faults) + rest.lines;
        assert sel[..n][0] == i;
        assert sel[..n][1..] == sel[1..][..|rest.calls|];
      }
    }
  }

  /** One turn of the loop: `Toggle` on `[i] + rest` in terms of `Toggle` on `rest`. */
  lemma ToggleStep(i: Instance, rest: seq<Instance>, c: Command, faults: map<Action, ProviderError>)
    ensures var a := CommandCall(c, i.id);
            var announce := [Announcement(c, i.id)];
            var resp := Response(faults, a);
            Toggle([i] + rest, c, faults)
            == if resp.Done? then Then([a], announce, Toggle(rest, c, faults))
               else if resp.error.ClientError? then Then([a], announce + [Complaint(c, i.id, resp.error.message)], Toggle(rest, c, faults))
               else Report([a], announce, resp)
  {
    assert ([i] + rest)[0] == i && ([i] + rest)[1..] == rest;
  }

  /**
   * The loop of `stop_call` / `start_call` over the selected instances: one
   * call each; a `ClientError` is reported and the loop continues.
   */
  method SetDesiredState(cloud: Cloud, sel: seq<Instance>, c: Command) returns (lines: seq<string>, outcome: Outcome)
    modifies cloud
    ensures var r := Toggle(sel, c, cloud.faults);
            cloud.calls == old(cloud.calls) + r.calls && lines == r.lines && outcome == r.outcome
  {
    ghost var faults := cloud.faults;
    ghost var full := Toggle(sel, c, faults);
    ghost var done: seq<Action> := [];
    lines := [];
    outcome := Done;
    assert sel[0..] == sel;
    var k := 0;
    while k < |sel|
      invariant k <= |sel|
      invariant cloud.calls == old(cloud.calls) + done
      invariant full == Then(done, lines, Toggle(sel[k..], c, faults))
      invariant outcome == Done
    {
      var inst := sel[k];
      assert sel[k..] == [inst] + sel[k + 1..];
      ToggleStep(inst, sel[k + 1..], c, faults);
      ghost var a := CommandCall(c, inst.id);
      ghost var rest := Toggle(sel[k + 1..], c, faults);
      var printed := [Announcement(c, inst.id)];
      var r := Attempt(cloud, c, inst.id);
      if r.Raised? && r.error.OtherError? {
        done, lines, outcome := done + [a], lines + printed, r;
        return;
      }
      if r.Raised? {
        printed := printed + [Complaint(c, inst.id, r.error.message)];
      }
      ThenThen(done, lines, [a], printed, rest);
      done, lines := done + [a], lines + printed;
      k := k + 1;
    }
    assert sel[k..] == [];
  }

  /** Prefixing calls and lines twice is prefixing their concatenations once. */
  lemma ThenThen(calls: seq<Action>, lines: seq<string>, calls': seq<Action>, lines': seq<string>, r: Report)
    ensures Then(calls, lines, Then(calls', lines', r)) == Then(calls + calls', lines + lines', r)
  {
  }

  /** The one provider call the command makes for an instance. */
  method Attempt(cloud: Cloud, c: Command, instanceId: string) returns (r: Outcome)
    modifies cloud
    ensures cloud.calls == old(cloud.calls) + [CommandCall(c, instanceId)]
    ensures r == Response(cloud.faults, CommandCall(c, instanceId))
  {
    match c {
      case StopCommand => r := cloud.Stop(instanceId);
      case StartCommand => r := cloud.Start(instanceId);
    }
  }

  /** `stop_call(project)`: stop every instance in scope, without waiting. */
  method StopCall(cloud: Cloud, fleet: seq<Instance>, project: Option<string>) returns (lines: seq<string>, outcome: Outcome)
    modifies cloud
    ensures var r := Toggle(FilterInstances(fleet, project), StopCommand, cloud.faults);
            cloud.calls == old(cloud.calls) + r.calls && lines == r.lines && outcome == r.outcome
  {
    var instances := FilterInstances(fleet, project);
    lines, outcome := SetDesiredState(cloud, instances, StopCommand);
  }

  /** `start_call(project)`: start every instance in scope, without waiting. */
  method StartCall(cloud: Cloud, fleet: seq<Instance>, project: Option<string>) returns (lines: seq<string>, outcome: Outcome)
    modifies cloud
    ensures var r := Toggle(FilterInstances(fleet, project), StartCommand, cloud.faults);
            cloud.calls == old(cloud.calls) + r.calls && lines == r.lines && outcome == r.outcome
  {
    var instances := FilterInstances(fleet, project);
    lines, outcome := SetDesiredState(cloud, instances, StartCommand);
  }
}
