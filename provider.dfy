/**
 * The cloud provider as seen by the tool: every call it receives is logged,
 * and a per-call fault table decides which calls raise an error. The blocking
 * waits `wait_until_stopped` / `wait_until_running` are single calls here.
 */
module Provider {

  /** One provider call, named after the boto3 call it stands for. */
  datatype Action =
    | StopInstance(instanceId: string)
    | WaitUntilStopped(instanceId: string)
    | CreateSnapshot(volumeId: string, description: string)
    | StartInstance(instanceId: string)
    | WaitUntilRunning(instanceId: string)

  /**
   * An exception raised by a call: `ClientError` is botocore's
   * `ClientError` (the only kind `stop_call` / `start_call` catch); every
   * other exception (waiter, connection, ...) is `OtherError`.
   */
  datatype ProviderError = ClientError(message: string) | OtherError(message: string)

  /** What one call did: returned normally, or raised. */
  datatype Outcome = Done | Raised(error: ProviderError)

  /** The provider's answer to `a` under the fault table `faults`. */
  function Response(faults: map<Action, ProviderError>, a: Action): Outcome {
    if a in faults then Raised(faults[a]) else Done
  }

  /** The provider: the calls it has received so far, and which calls fail. */
  class Cloud {
    const faults: map<Action, ProviderError>
    var calls: seq<Action>

    constructor (faults: map<Action, ProviderError>)
      ensures this.faults == faults && calls == []
    {
      this.faults := faults;
      calls := [];
    }

    /** Receive one call: log it and answer it. */
    method Receive(a: Action) returns (r: Outcome)
      modifies this
      ensures calls == old(calls) + [a]
      ensures r == Response(faults, a)
    {
      calls := calls + [a];
      r := Response(faults, a);
    }

    /** `i.stop()` */
    method Stop(instanceId: string) returns (r: Outcome)
      modifies this
      ensures calls == old(calls) + [StopInstance(instanceId)]
      ensures r == Response(faults, StopInstance(instanceId))
    {
      r := Receive(StopInstance(instanceId));
    }

    /** `i.wait_until_stopped()` */
    method AwaitStopped(instanceId: string) returns (r: Outcome)
      modifies this
      ensures calls == old(calls) + [WaitUntilStopped(instanceId)]
      ensures r == Response(faults, WaitUntilStopped(instanceId))
    {
      r := Receive(WaitUntilStopped(instanceId));
    }

    /** `v.create_snapshot(Description=description)` */
    method Snapshot(volumeId: string, description: string) returns (r: Outcome)
      modifies this
      ensures calls == old(calls) + [CreateSnapshot(volumeId, description)]
      ensures r == Response(faults, CreateSnapshot(volumeId, description))
    {
      r := Receive(CreateSnapshot(volumeId, description));
    }

    /** `i.start()` */
    method Start(instanceId: string) returns (r: Outcome)
      modifies this
      ensures calls == old(calls) + [StartInstance(instanceId)]
      ensures r == Response(faults, StartInstance(instanceId))
    {
      r := Receive(StartInstance(instanceId));
    }

    /** `i.wait_until_running()` */
    method AwaitRunning(instanceId: string) returns (r: Outcome)
      modifies this
      ensures calls == old(calls) + [WaitUntilRunning(instanceId)]
      ensures r == Response(faults, WaitUntilRunning(instanceId))
    {
      r := Receive(WaitUntilRunning(instanceId));
    }
  }
}
