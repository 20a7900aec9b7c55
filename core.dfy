/**
 * The Windows event-loop engine of deps/uv/src/win/core.c as a class whose
 * methods update the loop record in place. `InvokePhase`, `InsertBatch`,
 * `Poll`, `PollEx`, `LoopOnce`, `RunOnce` and `Run` are proved to leave the
 * loop in the state the matching function of UvSpec computes, so the
 * properties proved there (phase order, idle and block conditions, FIFO
 * completions, exit conditions) hold of them. `Refcount`, `Ref`, `Unref`,
 * `InsertPendingReq` and `FatalError` state their effect directly.
 */
module UvWinCore {
  import opened UvTypes
  import opened UvSpec

  /** `uv_loop_t`. */
  class Loop {
    var now: int
    var refs: int
    var pending: seq<Req>
    var endgame: seq<Handle>
    var idle: seq<Handle>
    var prepare: seq<Handle>
    var check: seq<Handle>
    var nextIdle: Option<Handle>
    var nextPrepare: Option<Handle>
    var nextCheck: Option<Handle>
    var lastErr: UvErr
    /** Set by `uv_fatal_error`, which ends the process: once set, nothing runs. */
    var fatal: Option<Fatal>
    /** Every phase executed so far, with the loop fields when it began. */
    ghost var trace: seq<Event>

    /** The fields the phase helpers and the completion port are given. */
    function Data(): Fields
      reads this
    {
      Fields(now, refs, pending, endgame, idle, prepare, check, nextIdle, nextPrepare, nextCheck, lastErr)
    }

    ghost function Snapshot(): State
      reads this
    {
      State(Data(), fatal, trace)
    }

    /**
     * `uv_loop_init`: open the completion port (its creation succeeding or
     * failing with `lastError`), sample the time, and empty every queue and
     * handle list.
     */
    constructor (portCreated: bool, lastError: uint32, startTime: int)
      ensures refs == 0 && now == startTime
      ensures pending == [] && endgame == []
      ensures idle == [] && prepare == [] && check == []
      ensures nextIdle == None && nextPrepare == None && nextCheck == None
      ensures lastErr == UV_OK
      ensures fatal == if portCreated then None else Some(Fatal(lastError, CreateIoCompletionPort))
      ensures trace == []
    {
      fatal := if portCreated then None else Some(Fatal(lastError, CreateIoCompletionPort));
      refs := 0;
      now := startTime;
      pending := [];
      endgame := [];
      check, prepare, idle := [], [], [];
      nextPrepare, nextCheck, nextIdle := None, None, None;
      lastErr := UV_OK;
      trace := [];
    }

    /** `uv_loop_refcount`. */
    method Refcount() returns (n: int)
      ensures n == refs
    {
      n := refs;
    }

    /** `uv_ref`: no bound is checked. */
    method Ref()
      modifies this`refs
      ensures refs == old(refs) + 1
    {
      refs := refs + 1;
    }

    /** `uv_unref`: no clamping at zero. */
    method Unref()
      modifies this`refs
      ensures refs == old(refs) - 1
    {
      refs := refs - 1;
    }

    /** Write back the loop fields a phase helper returns. */
    method SetData(f: Fields)
      modifies this
      ensures Data() == f && fatal == old(fatal) && trace == old(trace)
    {
      now, refs, pending, endgame := f.now, f.refs, f.pending, f.endgame;
      idle, prepare, check := f.idle, f.prepare, f.check;
      nextIdle, nextPrepare, nextCheck := f.nextIdle, f.nextPrepare, f.nextCheck;
      lastErr := f.lastErr;
    }

    /**
     * One of the phase helpers defined outside this file: `uv_update_time`,
     * `uv_process_timers`, `uv_idle_invoke`, `uv_process_reqs`,
     * `uv_process_endgames`, `uv_prepare_invoke` or `uv_check_invoke`.
     */
    method InvokePhase(p: Phase, hooks: Hooks)
      modifies this
      ensures Snapshot() == UvSpec.Invoke(old(Snapshot()), p, hooks)
    {
      var before := Data();
      SetData(hooks.Apply(p, before));
      trace := trace + [Entered(p, before)];
    }

    /** `uv_insert_pending_req`: append at the tail of the pending queue. */
    method InsertPendingReq(req: Req)
      modifies this`pending
      ensures pending == old(pending) + [req]
    {
      pending := pending + [req];
    }

    /** `uv_fatal_error`. */
    method FatalError(code: uint32, syscall: Syscall)
      modifies this`fatal
      ensures fatal == Some(Fatal(code, syscall))
    {
      fatal := Some(Fatal(code, syscall));
    }

    /** `uv_poll`: wait for at most one packet. */
    method Poll(block: bool, env: Env)
      requires fatal.None?
      modifies this
      ensures Snapshot() == UvSpec.Poll(old(Snapshot()), block, Single, env)
    {
      var timeout: uint32;
      if block {
        timeout := env.hooks.pollTimeout(Data());
      } else {
        timeout := 0;
      }
      trace := trace + [Polled(block, timeout, Data())];
      var result := env.os.getQueued(Data(), timeout);
      match result
      case Dequeued(ov) =>
        var req := OverlappedToReq(ov);
        InsertPendingReq(req);
      case NothingDequeued(e) =>
        if e != WAIT_TIMEOUT {
          FatalError(e, GetQueuedCompletionStatus);
        }
    }

    /**
     * The loop of `uv_poll_ex` over the removed entries: each entry's request
     * is queued in turn, exactly as that many single polls would.
     */
    method InsertBatch(entries: Batch)
      modifies this`pending
      ensures Data() == InsertEach(old(Data()), entries)
    {
      ghost var start := Data();
      for i := 0 to |entries|
        invariant Data() == InsertEach(start, entries[..i])
      {
        var req := OverlappedToReq(entries[i]);
        InsertPendingReq(req);
        InsertEachIsBatch(start, entries[..i]);
        InsertEachIsBatch(start, entries[..i + 1]);
        assert ToReqs(entries[..i + 1]) == ToReqs(entries[..i]) + [req];
      }
      assert entries[..|entries|] == entries;
    }

    /** `uv_poll_ex`: wait for up to 128 packets and queue them in array order. */
    method PollEx(block: bool, ex: BatchedWait, env: Env)
      requires fatal.None?
      modifies this
      ensures Snapshot() == UvSpec.Poll(old(Snapshot()), block, Batched(ex), env)
    {
      var timeout: uint32;
      if block {
        timeout := env.hooks.pollTimeout(Data());
      } else {
        timeout := 0;
      }
      trace := trace + [Polled(block, timeout, Data())];
      var result := ex(Data(), timeout);
      match result
      case Removed(entries) =>
        InsertBatch(entries);
        InsertEachIsBatch(old(Data()), entries);
      case NotRemoved(e) =>
        if e != WAIT_TIMEOUT {
          FatalError(e, GetQueuedCompletionStatusEx);
        }
    }

    /**
     * `UV_LOOP_ONCE`. The `break` after the endgames leaves only the
     * `do { } while (0)` body; `uv_fatal_error` does not return, so a fatal
     * poll is the last step.
     */
    method LoopOnce(strategy: Strategy, env: Env)
      modifies this
      ensures Snapshot() == Once(old(Snapshot()), strategy, env)
    {
      if fatal.Some? {
        return;
      }
      InvokePhase(UpdateTime, env.hooks);
      InvokePhase(Timers, env.hooks);
      if pending == [] && endgame == [] {
        InvokePhase(Idle, env.hooks);
      }
      InvokePhase(ProcessReqs, env.hooks);
      InvokePhase(Endgames, env.hooks);
      assert Snapshot() == Head(old(Snapshot()), env.hooks);
      if refs <= 0 {
        return;
      }
      InvokePhase(Prepare, env.hooks);
      var block := idle == [] && pending == [] && endgame == [] && refs > 0;
      match strategy {
        case Single => Poll(block, env);
        case Batched(ex) => PollEx(block, ex, env);
      }
      if fatal.Some? {
        return;
      }
      InvokePhase(Check, env.hooks);
    }

    /** `uv_run_once`: one iteration whatever `refs` is; returns 0. */
    method RunOnce(env: Env) returns (status: int)
      modifies this
      ensures status == 0
      ensures Snapshot() == UvRunOnce(old(Snapshot()), env)
    {
      match env.os.getQueuedEx {
        case Some(ex) => LoopOnce(Batched(ex), env);
        case None => LoopOnce(Single, env);
      }
      status := 0;
    }

    /**
     * `uv_run`: pick the poll strategy once, iterate while `refs > 0`, then
     * `assert(loop->refs == 0)` and return 0. At most `fuel` iterations run.
     */
    method Run(env: Env, fuel: nat) returns (outcome: Outcome)
      modifies this
      ensures Exit(Snapshot(), outcome) == UvRun(old(Snapshot()), env, fuel)
    {
      if fatal.Some? {
        return Aborted(fatal.value);
      }
      var strategy := StrategyFor(env.os);
      var budget := fuel;
      ghost var target := UvRun(Snapshot(), env, fuel);
      while refs > 0
        invariant fatal.None?
        invariant UvSpec.Run(Snapshot(), strategy, env, budget) == target
        decreases budget
      {
        if budget == 0 {
          return OutOfFuel;
        }
        var rest := budget - 1;
        RunUnfold(Snapshot(), strategy, env, budget, rest);
        LoopOnce(strategy, env);
        budget := rest;
        if fatal.Some? {
          return Aborted(fatal.value);
        }
      }
      if refs == 0 {
        outcome := Returned(0);
      } else {
        outcome := AssertionFailed(refs);
      }
    }
  }
}
