/** `main` (main.py:114-196) around the pump: the log group and stream are created,
    the Docker client and the container are acquired, the pump runs, and the
    `finally` block stops and removes the container. */
module Shipper {
  import opened Wrappers
  import opened Events
  import opened Sink
  import opened Pump

  /** A call made on the container object. */
  datatype ContainerCall = Stopped | Removed

  /** The running container. Only the calls made on it matter here. */
  class Container {
    /** `stop()` and `remove()` calls, in the order they were made. */
    ghost var calls: seq<ContainerCall>

    constructor ()
      ensures calls == []
    {
      calls := [];
    }

    /** `container.stop()`. */
    method Stop()
      modifies this
      ensures calls == old(calls) + [Stopped]
    {
      calls := calls + [Stopped];
    }

    /** `container.remove()`. */
    method Remove()
      modifies this
      ensures calls == old(calls) + [Removed]
    {
      calls := calls + [Removed];
    }
  }

  /** How CloudWatch answers `create_log_group` or `create_log_stream`. */
  datatype CreateReply = Created | AlreadyExists | CreateFailed

  /** `create_log_group` / `create_log_stream` (main.py:38-66): an existing resource
      is as good as a new one; any other error escapes to `main`'s outer handlers. */
  predicate Provided(reply: CreateReply) {
    !reply.CreateFailed?
  }

  /** What happens before the pump starts: the two creation replies, and whether the
      Docker client is built and `containers.run` starts the container. */
  datatype Setup = Setup(groupReply: CreateReply, streamReply: CreateReply, containerStarts: bool)

  /** Everything the pump needs exists. */
  predicate Ready(setup: Setup) {
    Provided(setup.groupReply) && Provided(setup.streamReply) && setup.containerStarts
  }

  /** `main`: without a container nothing is pushed. Once the container exists the
      pump runs, and afterwards the container is stopped and then removed, exactly once
      each, whether the run finished, hit a Docker `APIError` or had a push raise. A push
      still retrying when the script of answers runs out has not reached the cleanup
      yet, and the model records no container call for that run. */
  method Ship(setup: Setup, group: string, stream: string, source: LogSource, clock: nat -> Instant,
              script: seq<Response>)
    returns (container: Container?, streamed: seq<PushCall>, consumed: nat, final: Option<PushCall>, exit: Exit)
    ensures container != null <==> Ready(setup)
    ensures container == null ==> exit == SetupFailed && streamed == [] && consumed == 0 && final == None
    ensures container != null ==>
      && fresh(container)
      && Session(group, stream, source, clock, script, streamed, consumed, final, exit)
      && container.calls == if exit == PushStalled then [] else [Stopped, Removed]
  {
    if !Ready(setup) {
      // an error while creating the log group, the log stream or the container
      return null, [], 0, None, SetupFailed;
    }
    container := new Container();
    streamed, consumed, final, exit := Pump.Pump(group, stream, source, clock, script);
    if exit != PushStalled {
      // the `finally` block
      container.Stop();
      container.Remove();
    }
  }
}
