/**
 * The health-probe server of src/health/health.go: three flags changed by
 * its lifecycle and setter methods, and three handlers that read them.  The
 * HTTP listener itself is abstracted away; whether `Shutdown` succeeds is an
 * input of `Stop`.
 */
module Health {
  import opened Wrappers

  /** The three flags of `Server`. */
  datatype Flags = Flags(started: bool, ready: bool, healthy: bool)

  /** The flags of a server fresh from `New`. */
  const Initial: Flags := Flags(started := false, ready := false, healthy := true)

  datatype HealthError = AlreadyStarted | ShutdownFailed

  /** The calls that change the flags. */
  datatype Op = Start | Stop(shutdownSucceeds: bool) | SetHealthy(healthy: bool) | SetReady(ready: bool)

  datatype StepResult = StepResult(flags: Flags, err: Option<HealthError>)

  /** What one call does to the flags and what it returns. */
  function Step(f: Flags, op: Op): (r: StepResult)
    ensures r.err.Some? ==> r.flags == f
    ensures r.err == Some(AlreadyStarted) <==> op == Start && f.started
    ensures r.err == Some(ShutdownFailed) <==> op == Stop(false) && f.started
    ensures r.flags.healthy == if op.SetHealthy? then op.healthy else f.healthy
    ensures r.flags.ready == if op.SetReady? then op.ready else if op == Start && !f.started then true else f.ready
    ensures r.flags.started == if r.err.Some? || op.SetHealthy? || op.SetReady? then f.started else op == Start
  {
    match op
    case Start =>
      if f.started then StepResult(f, Some(AlreadyStarted))
      else StepResult(f.(started := true, ready := true), None)
    case Stop(ok) =>
      if !f.started then StepResult(f, None)
      else if !ok then StepResult(f, Some(ShutdownFailed))
      else StepResult(f.(started := false), None)
    case SetHealthy(b) => StepResult(f.(healthy := b), None)
    case SetReady(b) => StepResult(f.(ready := b), None)
  }

  /**
   * The flags after a sequence of calls.  Only `SetHealthy` moves
   * `healthy`: after any run it holds the last value set, or its initial
   * value if no call set it.
   */
  function Run(f: Flags, ops: seq<Op>): (r: Flags)
    ensures r.healthy == LastSetHealthy(ops, f.healthy)
    decreases |ops|
  {
    if ops == [] then f else Run(Step(f, ops[0]).flags, ops[1..])
  }

  /** Running two sequences one after the other is running their concatenation. */
  lemma {:induction false} RunAppend(f: Flags, a: seq<Op>, b: seq<Op>)
    ensures Run(f, a + b) == Run(Run(f, a), b)
    decreases |a|
  {
    if a == [] {
      assert a + b == b;
    } else {
      var g := Step(f, a[0]).flags;
      assert (a + b)[0] == a[0] && (a + b)[1..] == a[1..] + b;
      assert Run(f, a + b) == Run(g, a[1..] + b);
      RunAppend(g, a[1..], b);
    }
  }

  /** The argument of the last `SetHealthy` in `ops`, or `dflt` if there is none. */
  function LastSetHealthy(ops: seq<Op>, dflt: bool): bool
    decreases |ops|
  {
    if ops == [] then dflt
    else LastSetHealthy(ops[1..], if ops[0].SetHealthy? then ops[0].healthy else dflt)
  }

  /**
   * Once ready, a server stays ready through any `Start`, `Stop` or
   * `SetHealthy`; only `SetReady(false)` clears the flag.
   */
  lemma {:induction false} ReadyUntilSetReadyFalse(f: Flags, ops: seq<Op>)
    requires f.ready
    requires forall i :: 0 <= i < |ops| ==> ops[i] != SetReady(false)
    ensures Run(f, ops).ready
    decreases |ops|
  {
    if ops != [] {
      ReadyUntilSetReadyFalse(Step(f, ops[0]).flags, ops[1..]);
    }
  }

  /** `Stop` after a successful `Stop` is a no-op, and a stopped server can be started again. */
  lemma StopThenRestart(f: Flags)
    requires f.started
    ensures var g := Step(f, Stop(true)).flags;
      !g.started && g.ready == f.ready && g.healthy == f.healthy &&
      Step(g, Stop(true)) == StepResult(g, None) && Step(g, Stop(false)) == StepResult(g, None) &&
      Step(g, Start) == StepResult(f.(ready := true), None)
  {
  }

  /** A response: status code and body. */
  datatype Response = Response(status: int, body: string)

  const StatusOK := 200
  const StatusServiceUnavailable := 503

  /** `/health`: success exactly when `healthy`. */
  function HealthHandler(f: Flags): (r: Response)
    ensures r.status == StatusOK <==> f.healthy
    ensures r == Response(StatusOK, "OK") || r == Response(StatusServiceUnavailable, "UNHEALTHY")
  {
    if f.healthy then Response(StatusOK, "OK") else Response(StatusServiceUnavailable, "UNHEALTHY")
  }

  /** `/ready`: success exactly when `ready`. */
  function ReadyHandler(f: Flags): (r: Response)
    ensures r.status == StatusOK <==> f.ready
    ensures r == Response(StatusOK, "READY") || r == Response(StatusServiceUnavailable, "NOT READY")
  {
    if f.ready then Response(StatusOK, "READY") else Response(StatusServiceUnavailable, "NOT READY")
  }

  /** `/live`: the same answer in every state. */
  function LiveHandler(f: Flags): (r: Response)
    ensures r.status == StatusOK && r.body == "ALIVE"
  {
    Response(StatusOK, "ALIVE")
  }

  /**
   * `/health` and `/ready` each read one flag only, and their bodies give it
   * back; `/live` reads none.
   */
  lemma HandlersReadOneFlag(f: Flags, g: Flags)
    ensures f.healthy == g.healthy ==> HealthHandler(f) == HealthHandler(g)
    ensures f.ready == g.ready ==> ReadyHandler(f) == ReadyHandler(g)
    ensures (HealthHandler(f).body == "OK") == f.healthy
    ensures (ReadyHandler(f).body == "READY") == f.ready
    ensures LiveHandler(f) == LiveHandler(g)
  {
  }

  /**
   * `Server`.  `hasServer` stands for `s.server != nil`: the listener
   * object `Start` creates and `Stop` shuts down.  `port` is kept only for
   * the listener's address.
   */
  class Server {
    const port: int
    var healthy: bool
    var ready: bool
    var started: bool
    var hasServer: bool

    /** A started server always has its listener object. */
    ghost predicate Valid()
      reads this
    {
      started ==> hasServer
    }

    function State(): Flags
      reads this
    {
      Flags(started, ready, healthy)
    }

    /** `New(port)`. */
    constructor (port: int)
      ensures Valid() && State() == Initial && !hasServer && this.port == port
    {
      this.port := port;
      healthy, ready, started, hasServer := true, false, false, false;
    }

    method Start() returns (err: Option<HealthError>)
      requires Valid()
      modifies this
      ensures Valid()
      ensures StepResult(State(), err) == Step(old(State()), Op.Start)
      ensures hasServer == (old(hasServer) || err.None?)
    {
      if started {
        return Some(AlreadyStarted);
      }
      hasServer := true;
      started := true;
      ready := true;
      return None;
    }

    /** `Stop(ctx)`; `shutdownSucceeds` is whether `Shutdown(ctx)` returns nil. */
    method Stop(shutdownSucceeds: bool) returns (err: Option<HealthError>)
      requires Valid()
      modifies this
      ensures Valid()
      ensures StepResult(State(), err) == Step(old(State()), Op.Stop(shutdownSucceeds))
      ensures hasServer == old(hasServer)
    {
      if !started {
        return None;
      }
      if hasServer && !shutdownSucceeds {
        return Some(ShutdownFailed);
      }
      started := false;
      return None;
    }

    method SetHealthy(healthy: bool)
      requires Valid()
      modifies this`healthy
      ensures Valid()
      ensures State() == Step(old(State()), Op.SetHealthy(healthy)).flags
    {
      this.healthy := healthy;
    }

    method SetReady(ready: bool)
      requires Valid()
      modifies this`ready
      ensures Valid()
      ensures State() == Step(old(State()), Op.SetReady(ready)).flags
    {
      this.ready := ready;
    }
  }

  /**
   * The probe answers the handlers compute from a server's flags over its
   * life: not ready before `Start`, ready after it.  A second `Start`
   * fails with AlreadyStarted and the first `Stop` succeeds.  A successful `Stop`
   * clears only `started`, so the `ready` flag stays true and `/ready`
   * computed from that state would still be 200, although the closed
   * listener no longer serves it.  `/health` succeeds throughout.
   */
  method ProbeLifecycle(port: int)
    returns (before: Response, running: Response, stopped: Response, health: Response,
             e1: Option<HealthError>, e2: Option<HealthError>, e3: Option<HealthError>)
    ensures e1 == None && e2 == Some(AlreadyStarted) && e3 == None
    ensures before == Response(StatusServiceUnavailable, "NOT READY")
    ensures running == Response(StatusOK, "READY")
    ensures stopped == Response(StatusOK, "READY")
    ensures health == Response(StatusOK, "OK")
  {
    var s := new Server(port);
    before := ReadyHandler(s.State());
    e1 := s.Start();
    running := ReadyHandler(s.State());
    e2 := s.Start();
    e3 := s.Stop(true);
    stopped := ReadyHandler(s.State());
    health := HealthHandler(s.State());
  }
}
