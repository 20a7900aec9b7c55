/**
 * Concrete runs of a freshly initialised loop against fixed phase helpers
 * and a scripted completion port. Each shows one behaviour of the drivers
 * end to end: the exit status, the assertion after `UV_LOOP`, the fatal
 * path, the FIFO order of a batch, and the asymmetry between `uv_run` and
 * `uv_run_once` when `refs <= 0` on entry.
 */
module UvScenarios {
  import opened UvTypes
  import opened UvSpec
  import opened UvWinCore

  /** Phase helpers that change nothing and a clock that stays put. */
  function Quiet(): Hooks {
    Hooks((f: Fields) => f.now, f => f, f => f, f => f, f => f, f => f, f => f, f => 0)
  }

  /** Like `Quiet`, except that the endgames drop one reference (a handle closing). */
  function ClosingOne(): Hooks {
    Quiet().(endgames := (f: Fields) => f.(refs := f.refs - 1))
  }

  /** A completion port on which every single wait times out; no batched wait. */
  function IdlePort(): Os {
    Os((f, t) => NothingDequeued(WAIT_TIMEOUT), None)
  }

  /** A loop with no references: `uv_run` returns 0 without running any phase. */
  method RunWithoutRefs() returns (outcome: Outcome, ghost phases: nat)
    ensures outcome == Returned(0) && phases == 0
  {
    var loop := new Loop(true, 0, 0);
    outcome := loop.Run(Env(Quiet(), IdlePort()), 1);
    phases := |loop.trace|;
  }

  /**
   * `uv_unref` on a fresh loop: `uv_run` enters no iteration and the
   * `assert(loop->refs == 0)` that follows fails with `refs == -1`.
   */
  method UnrefBelowZero() returns (outcome: Outcome)
    ensures outcome == AssertionFailed(-1)
  {
    var loop := new Loop(true, 0, 0);
    loop.Unref();
    outcome := loop.Run(Env(Quiet(), IdlePort()), 1);
  }

  /**
   * `uv_run_once` on the same fresh loop does run one body: the five phases
   * up to the endgames (idle included, the queues being empty), then the
   * `break`.
   */
  method RunOnceWithoutRefs() returns (status: int, ghost phases: nat)
    ensures status == 0 && phases == 5
  {
    var loop := new Loop(true, 0, 0);
    status := loop.RunOnce(Env(Quiet(), IdlePort()));
    phases := |loop.trace|;
  }

  /**
   * One reference that the endgames release: exactly one iteration runs,
   * it stops at the `break` (five phases, no poll), and `uv_run` returns 0.
   */
  method OneIteration() returns (outcome: Outcome, ghost phases: nat)
    ensures outcome == Returned(0) && phases == 5
  {
    var loop := new Loop(true, 0, 0);
    loop.Ref();
    outcome := loop.Run(Env(ClosingOne(), IdlePort()), 1);
    phases := |loop.trace|;
  }

  /**
   * A single wait failing with an error other than `WAIT_TIMEOUT` reaches
   * `uv_fatal_error` with that code and the name of the system call.
   */
  method FailingWait() returns (outcome: Outcome)
    ensures outcome == Aborted(Fatal(6, GetQueuedCompletionStatus))
  {
    var loop := new Loop(true, 0, 0);
    loop.Ref();
    outcome := loop.Run(Env(Quiet(), Os((f, t) => NothingDequeued(6), None)), 1);
  }

  /**
   * A batched wait that removes two packets queues their requests in array
   * order behind what was pending.
   */
  method BatchInOrder() returns (pending: seq<Req>)
    ensures pending == [Req(1), Req(2)]
  {
    var loop := new Loop(true, 0, 0);
    loop.Ref();
    var batch: Batch := [Overlapped(Req(1)), Overlapped(Req(2))];
    var port := Os((f, t) => NothingDequeued(WAIT_TIMEOUT), Some((f, t) => Removed(batch)));
    var status := loop.RunOnce(Env(Quiet(), port));
    pending := loop.pending;
  }
}
