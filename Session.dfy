/** The kernel holder `KernelState` and the tools that drive it:
    `ensure_started`, `execute_python`, `install_package`, `restart_kernel`
    and `kernel_status` (src/pykernel_mcp/server.py:54-76, 168-286;
    pykernel_mcp.py:28-51, 55-216).

    The kernel process and its channels are not modelled: the holder
    records whether it holds a kernel manager and a client, and a log of the
    code sent to the current kernel. Fresh ids, clock readings, the outcome
    of starting a kernel and the IOPub events are supplied by the caller. */
module Session {
  import opened Wrappers
  import opened Protocol
  import opened Text
  import opened Aggregation
  import opened Rendering

  /** How an attempt to start a kernel goes: ready, `start_kernel` raising,
      or `wait_for_ready` raising. */
  datatype StartOutcome = Ready | SpawnFails | ReadyTimesOut

  /** The exception `ensure_started` passes on. */
  datatype StartError = SpawnFailure | NotReady

  /** The holder's state: whether `km` and `kc` are set, the kernel id,
      the start time, and the code sent to the current kernel so far. */
  datatype Holder = Holder(hasManager: bool, hasClient: bool, kernelId: string, startTime: int, sent: seq<string>)

  /** The holder after an operation, and the exception it raised, if any. */
  datatype Transition = Transition(after: Holder, error: Option<StartError>)

  /** The code sent to every fresh kernel before any request: the packaged
      server's imports and inline plotting; nothing for the standalone one. */
  function Priming(v: Variant): seq<string>
  {
    match v
    case Packaged => [Imports, InlinePlots]
    case Standalone => []
  }

  /** A holder holds a manager exactly when it holds a client; a held
      kernel was primed first; without one, no code is on record. */
  predicate Consistent(v: Variant, h: Holder)
  {
    && h.hasManager == h.hasClient
    && (h.hasManager ==> Priming(v) <= h.sent)
    && (!h.hasManager ==> h.sent == [])
  }

  /** `ensure_started` as the source writes it: `km` is assigned before
      `start_kernel` and `wait_for_ready` run, so when either raises the
      holder keeps a manager. */
  function StartAsWritten(v: Variant, h: Holder, outcome: StartOutcome, freshId: string, now: int): Transition
  {
    if h.hasManager then Transition(h, None)
    else match outcome
      case Ready => Transition(Holder(true, true, freshId, now, Priming(v)), None)
      case SpawnFails => Transition(h.(hasManager := true), Some(SpawnFailure))
      case ReadyTimesOut => Transition(h.(hasManager := true, hasClient := true, sent := []), Some(NotReady))
  }

  /** `ensure_started` as intended: a no-op while a kernel is held; else
      start one, prime it, and take a fresh id and start time; a failed
      start keeps nothing, so the next call tries again. */
  function Start(v: Variant, h: Holder, outcome: StartOutcome, freshId: string, now: int): Transition
  {
    if h.hasManager then Transition(h, None)
    else match outcome
      case Ready => Transition(Holder(true, true, freshId, now, Priming(v)), None)
      case SpawnFails => Transition(h, Some(SpawnFailure))
      case ReadyTimesOut => Transition(h, Some(NotReady))
  }

  /** Starting is idempotent and keeps the holder consistent: while a
      kernel is held nothing changes; otherwise a ready start holds a fresh,
      primed kernel and a failed one changes nothing. */
  lemma StartBehaviour(v: Variant, h: Holder, outcome: StartOutcome, freshId: string, now: int)
    requires Consistent(v, h)
    ensures var t := Start(v, h, outcome, freshId, now);
      && Consistent(v, t.after)
      && (h.hasManager ==> t == Transition(h, None))
      && (!h.hasManager ==> (t.error == None <==> outcome == Ready))
      && (!h.hasManager && outcome == Ready ==>
            t.after == Holder(true, true, freshId, now, Priming(v)))
      && (t.error.Some? ==> t.after == h)
  {
  }

  /** As written, a start whose `start_kernel` raises leaves a manager
      without a client: every later `ensure_started` is a no-op, so the
      kernel is not started again until `restart_kernel` clears `km`, and
      meanwhile `kernel_status` reports the old id as running. */
  lemma AsWrittenFailedSpawnIsNeverRetried(v: Variant, h: Holder, freshId: string, now: int,
                                           outcome: StartOutcome, laterId: string, later: int)
    requires Consistent(v, h) && !h.hasManager
    ensures var z := StartAsWritten(v, h, SpawnFails, freshId, now).after;
      && !Consistent(v, z)
      && z.hasManager && !z.hasClient
      && StartAsWritten(v, z, outcome, laterId, later) == Transition(z, None)
      && StatusOf(z, later) == Running(h.kernelId, later - h.startTime)
  {
  }

  /** As written, a kernel that fails its readiness wait is kept with a
      client but was never primed: the packaged server's imports are never
      sent to it, and its id and start time are never renewed. */
  lemma AsWrittenUnreadyKernelIsNeverPrimed(h: Holder, freshId: string, now: int,
                                            outcome: StartOutcome, laterId: string, later: int)
    requires Consistent(Packaged, h) && !h.hasManager
    ensures var z := StartAsWritten(Packaged, h, ReadyTimesOut, freshId, now).after;
      && !Consistent(Packaged, z)
      && z.hasManager && z.hasClient && Imports !in z.sent
      && z.kernelId == h.kernelId
      && StartAsWritten(Packaged, z, outcome, laterId, later) == Transition(z, None)
  {
  }

  /** As intended, a failed start is retried by the next call, which then
      holds a primed kernel with the new id. */
  lemma RetryAfterFailedStart(v: Variant, h: Holder, failed: StartOutcome, freshId: string, now: int,
                              laterId: string, later: int)
    requires Consistent(v, h) && !h.hasManager && failed != Ready
    ensures var z := Start(v, h, failed, freshId, now);
      && z.error.Some? && z.after == h
      && Start(v, z.after, Ready, laterId, later)
         == Transition(Holder(true, true, laterId, later, Priming(v)), None)
  {
  }

  /** Why `execute_python` raises instead of returning parts. */
  datatype ExecError =
    | StartFailed(cause: StartError)
    | NoClient                  // `state.kc` is None
    | MissingField(key: string) // a reply lacks a content key

  /** The holder after one `execute_python`, its result, and how many
      events it took from the channel. */
  datatype Execution = Execution(after: Holder, result: Result<seq<Part>, ExecError>, consumed: nat)

  /** `execute_python(code)`: start the kernel if needed, send the code, read
      its replies, and build the parts; `later` is the clock after the loop. */
  function Execute(v: Variant, h: Holder, code: string, outcome: StartOutcome, freshId: string,
                   now: int, requestId: string, events: seq<Event>, later: int): Execution
  {
    var t := Start(v, h, outcome, freshId, now);
    if t.error.Some? then Execution(t.after, Err(StartFailed(t.error.value)), 0)
    else if !t.after.hasClient then Execution(t.after, Err(NoClient), 0)
    else
      var h1 := t.after.(sent := t.after.sent + [code]);
      var d := Fold(v, requestId, events);
      var info := KernelInfo(Prefix(h1.kernelId, 8), later - h1.startTime);
      Execution(h1,
        if d.ending.MissingKey? then Err(MissingField(d.ending.key))
        else Ok(Layout(v, info, code, d.collected)),
        d.consumed)
  }

  /** On a running kernel, an execution sends exactly its code, after
      everything sent before, and leaves the id and start time alone. */
  lemma ExecuteKeepsSession(v: Variant, h: Holder, code: string, outcome: StartOutcome, freshId: string,
                            now: int, requestId: string, events: seq<Event>, later: int)
    requires Consistent(v, h) && h.hasManager
    ensures var x := Execute(v, h, code, outcome, freshId, now, requestId, events, later);
      && x.after == h.(sent := h.sent + [code])
      && Consistent(v, x.after)
      && x.result != Err(NoClient)
  {
  }

  /** The first execution starts the kernel, sends the priming code, then
      the request's code, and reports the new kernel's id and uptime. */
  lemma ExecuteFirstStartsKernel(v: Variant, h: Holder, code: string, freshId: string,
                                 now: int, requestId: string, events: seq<Event>, later: int)
    requires Consistent(v, h) && !h.hasManager
    ensures var x := Execute(v, h, code, Ready, freshId, now, requestId, events, later);
      && x.after == Holder(true, true, freshId, now, Priming(v) + [code])
      && (x.result.Ok? ==> x.result.value[0] == Info(KernelInfo(Prefix(freshId, 8), later - now)))
  {
    var x := Execute(v, h, code, Ready, freshId, now, requestId, events, later);
    if x.result.Ok? {
      var d := Fold(v, requestId, events);
      LayoutEnds(v, KernelInfo(Prefix(freshId, 8), later - now), code, d.collected);
    }
  }

  /** An execution on a consistent holder never meets a missing client, and
      fails exactly when the start fails or a reply lacks a key. */
  lemma ExecuteFailsOnlyWhen(v: Variant, h: Holder, code: string, outcome: StartOutcome, freshId: string,
                             now: int, requestId: string, events: seq<Event>, later: int)
    requires Consistent(v, h)
    ensures var x := Execute(v, h, code, outcome, freshId, now, requestId, events, later);
      && Consistent(v, x.after)
      && x.result != Err(NoClient)
      && (x.result.Err? <==>
            (!h.hasManager && outcome != Ready) || Fold(v, requestId, events).ending.MissingKey?)
  {
  }

  /** `restart_kernel`: shut down a held kernel, drop manager and client,
      then start afresh. */
  function Restart(v: Variant, h: Holder, outcome: StartOutcome, freshId: string, now: int): (Holder, Result<string, StartError>)
  {
    var down := if h.hasManager then Holder(false, false, h.kernelId, h.startTime, []) else h;
    var t := Start(v, down, outcome, freshId, now);
    (t.after, if t.error.Some? then Err(t.error.value) else Ok("Kernel restarted. New ID: " + t.after.kernelId))
  }

  /** A restart that starts its kernel holds a new kernel with the fresh id,
      which has seen only the priming code: nothing sent before survives.
      A failed restart holds no kernel. */
  lemma RestartGivesFreshKernel(v: Variant, h: Holder, outcome: StartOutcome, freshId: string, now: int)
    requires Consistent(v, h)
    ensures var (after, reply) := Restart(v, h, outcome, freshId, now);
      && Consistent(v, after)
      && (reply.Ok? <==> outcome == Ready)
      && (reply.Ok? ==>
            && after == Holder(true, true, freshId, now, Priming(v))
            && reply.value == "Kernel restarted. New ID: " + freshId)
      && (reply.Err? ==> !after.hasManager && after.sent == [])
  {
  }

  /** As written, after a raising `start_kernel` every `execute_python`
      goes on to a missing client and fails, whatever its code or replies,
      while a `restart_kernel` whose start succeeds recovers a primed
      kernel. */
  lemma AsWrittenZombieFailsUntilRestart(v: Variant, h: Holder, freshId: string, now: int,
                                         code: string, outcome: StartOutcome, laterId: string, later: int,
                                         requestId: string, events: seq<Event>, last: int)
    requires Consistent(v, h) && !h.hasManager
    ensures var z := StartAsWritten(v, h, SpawnFails, freshId, now).after;
      && Execute(v, z, code, outcome, laterId, later, requestId, events, last) == Execution(z, Err(NoClient), 0)
      && Restart(v, z, Ready, laterId, later) == (Holder(true, true, laterId, later, Priming(v)),
                                                  Ok("Kernel restarted. New ID: " + laterId))
  {
  }

  /** What `kernel_status` reports. */
  datatype StatusReport = NoKernel | Running(id: string, uptime: int)

  /** "No kernel running" exactly when no manager is held; else the id and uptime. */
  function StatusOf(h: Holder, now: int): StatusReport
  {
    if !h.hasManager then NoKernel else Running(h.kernelId, now - h.startTime)
  }

  /** Two status reads with no operation between agree on the id, and the
      uptime does not decrease while the clock does not. */
  lemma StatusStable(h: Holder, now: int, later: int)
    requires now <= later
    ensures StatusOf(h, now).NoKernel? <==> StatusOf(h, later).NoKernel?
    ensures StatusOf(h, now).Running? ==>
      StatusOf(h, now).id == StatusOf(h, later).id && StatusOf(h, now).uptime <= StatusOf(h, later).uptime
  {
  }

  /** The module-level `state` object. */
  class KernelState {
    const variant: Variant
    var hasManager: bool
    var hasClient: bool
    var kernelId: string
    var startTime: int
    /** Code sent to the current kernel. */
    ghost var sent: seq<string>
    /** Every kernel id held so far; fresh ids come from outside it. */
    ghost var issued: set<string>

    ghost function View(): Holder
      reads this
    {
      Holder(hasManager, hasClient, kernelId, startTime, sent)
    }

    ghost predicate Valid()
      reads this
    {
      Consistent(variant, View()) && kernelId in issued
    }

    /** `KernelState()`: no kernel yet, but an id and a start time already. */
    constructor (variant: Variant, initialId: string, now: int)
      ensures Valid() && this.variant == variant
      ensures View() == Holder(false, false, initialId, now, []) && issued == {initialId}
    {
      this.variant := variant;
      hasManager, hasClient := false, false;
      kernelId, startTime := initialId, now;
      sent, issued := [], {initialId};
    }

    /** `get_uptime`. */
    function Uptime(now: int): int
      reads this
    {
      now - startTime
    }

    method EnsureStarted(outcome: StartOutcome, freshId: string, now: int) returns (error: Option<StartError>)
      requires Valid() && freshId !in issued
      modifies this
      ensures Valid()
      ensures issued == if !old(hasManager) && outcome == Ready then old(issued) + {freshId} else old(issued)
      ensures Transition(View(), error) == Start(variant, old(View()), outcome, freshId, now)
    {
      error := None;
      if !hasManager {
        match outcome
        case SpawnFails =>
          error := Some(SpawnFailure);
        case ReadyTimesOut =>
          error := Some(NotReady);
        case Ready =>
          hasManager, hasClient := true, true;
          sent := [];
          if variant == Packaged {
            sent := sent + [Imports];
            sent := sent + [InlinePlots];
          }
          kernelId, startTime := freshId, now;
          issued := issued + {freshId};
      }
    }
  }

  /** The `execute_python` tool. `requestId` is the id `kc.execute` tags the
      request with; `events` is what the IOPub channel delivers. */
  method ExecutePython(state: KernelState, code: string, outcome: StartOutcome, freshId: string,
                       now: int, requestId: string, events: seq<Event>, later: int)
    returns (result: Result<seq<Part>, ExecError>, consumed: nat)
    requires state.Valid() && freshId !in state.issued
    modifies state
    ensures state.Valid()
    ensures state.issued == if !old(state.hasManager) && outcome == Ready then old(state.issued) + {freshId} else old(state.issued)
    ensures Execution(state.View(), result, consumed)
            == Execute(state.variant, old(state.View()), code, outcome, freshId, now, requestId, events, later)
  {
    var error := state.EnsureStarted(outcome, freshId, now);
    if error.Some? {
      return Err(StartFailed(error.value)), 0;
    }
    state.sent := state.sent + [code];
    var outputs, errors, images, ending, n := CollectReplies(state.variant, requestId, events);
    consumed := n;
    if ending.MissingKey? {
      return Err(MissingField(ending.key)), consumed;
    }
    var info := KernelInfo(Prefix(state.kernelId, 8), state.Uptime(later));
    var parts := AssembleParts(state.variant, info, code, Collected(outputs, errors, images));
    result := Ok(parts);
  }

  /** The packaged server's `install_package(package)`. */
  method InstallPackage(state: KernelState, package: string, outcome: StartOutcome, freshId: string,
                        now: int, requestId: string, events: seq<Event>, later: int)
    returns (result: Result<seq<Part>, ExecError>, consumed: nat)
    requires state.variant == Packaged
    requires state.Valid() && freshId !in state.issued
    modifies state
    ensures state.Valid()
    ensures state.issued == if !old(state.hasManager) && outcome == Ready then old(state.issued) + {freshId} else old(state.issued)
    ensures Execution(state.View(), result, consumed)
            == Execute(Packaged, old(state.View()), PipInstall + package, outcome, freshId, now, requestId, events, later)
  {
    result, consumed := ExecutePython(state, PipInstall + package, outcome, freshId, now, requestId, events, later);
  }

  /** The `restart_kernel` tool. */
  method RestartKernel(state: KernelState, outcome: StartOutcome, freshId: string, now: int)
    returns (reply: Result<string, StartError>)
    requires state.Valid() && freshId !in state.issued
    modifies state
    ensures state.Valid()
    ensures state.issued == if outcome == Ready then old(state.issued) + {freshId} else old(state.issued)
    ensures (state.View(), reply) == Restart(state.variant, old(state.View()), outcome, freshId, now)
    ensures reply.Ok? ==> state.kernelId != old(state.kernelId)
  {
    if state.hasManager {
      // the held kernel is shut down and both references dropped
      state.hasManager, state.hasClient := false, false;
      state.sent := [];
    }
    var error := state.EnsureStarted(outcome, freshId, now);
    if error.Some? {
      reply := Err(error.value);
    } else {
      reply := Ok("Kernel restarted. New ID: " + state.kernelId);
    }
  }

  /** The standalone server's `kernel_status` tool; it changes nothing. */
  function KernelStatus(state: KernelState, now: int): (report: StatusReport)
    requires state.variant == Standalone
    reads state
    ensures report == StatusOf(state.View(), now)
  {
    if state.hasManager then Running(state.kernelId, state.Uptime(now)) else NoKernel
  }
}
