/**
 * Values shared by the model of the Windows event loop: the loop record as
 * the callbacks see it, requests and handles, completion-port packets, the
 * trace of executed phases, and the collaborators the loop calls into
 * (the phase helpers defined elsewhere in libuv and the operating system).
 */
module UvTypes {

  datatype Option<+T> = None | Some(value: T)

  /** A Windows DWORD: timeouts and error codes. */
  newtype uint32 = x: int | 0 <= x < 0x1_0000_0000

  /** `WAIT_TIMEOUT`: the "nothing was ready in time" error of a completion-port wait. */
  const WAIT_TIMEOUT: uint32 := 258

  /** The size of the OVERLAPPED_ENTRY array `uv_poll_ex` hands to the OS. */
  const BATCH_SIZE: nat := 128

  /** An outstanding asynchronous operation (`uv_req_t`). */
  datatype Req = Req(id: nat)

  /** A handle queued for an idle, prepare or check phase, or for its endgame. */
  datatype Handle = Handle(id: nat)

  /**
   * The OVERLAPPED record embedded in a request and handed to the OS; its
   * owner is the back-reference that `uv_overlapped_to_req` recovers.
   */
  datatype Overlapped = Overlapped(owner: Req)

  /** `uv_overlapped_to_req`: total, since every packet carries its request. */
  function OverlappedToReq(ov: Overlapped): (r: Req)
    ensures Overlapped(r) == ov
  {
    ov.owner
  }

  /** A `uv_err_t`: a libuv error code and the system errno behind it. */
  datatype UvErr = UvErr(code: int, sysErrno: int)

  /** `uv_ok_`. */
  const UV_OK: UvErr := UvErr(0, 0)

  /**
   * The fields of `uv_loop_t` that the loop reads and that callbacks run by
   * the phase helpers may change. A `seq` stands for each intrusive list:
   * `pending_reqs_tail == NULL` is `pending == []`, `endgame_handles == NULL`
   * is `endgame == []`, and so on.
   */
  datatype Fields = Fields(
    now: int,
    refs: int,
    pending: seq<Req>,
    endgame: seq<Handle>,
    idle: seq<Handle>,
    prepare: seq<Handle>,
    check: seq<Handle>,
    nextIdle: Option<Handle>,
    nextPrepare: Option<Handle>,
    nextCheck: Option<Handle>,
    lastErr: UvErr)

  /** The phases of one iteration other than the poll, in their fixed order. */
  datatype Phase = UpdateTime | Timers | Idle | ProcessReqs | Endgames | Prepare | Check

  /**
   * One step of the trace: the phase that ran and the loop fields when it
   * began; a poll also records its block flag and the timeout it waited with.
   */
  datatype Event =
    | Entered(phase: Phase, at: Fields)
    | Polled(block: bool, timeout: uint32, at: Fields)

  /** The system calls whose failure is fatal; `uv_fatal_error` is given their names. */
  datatype Syscall = CreateIoCompletionPort | GetQueuedCompletionStatus | GetQueuedCompletionStatusEx

  /** The argument pair `uv_fatal_error` is called with. */
  datatype Fatal = Fatal(code: uint32, syscall: Syscall)

  /**
   * The phase helpers that live in files not part of this model. Each is a
   * total function of the loop fields, so it may change them arbitrarily
   * (callbacks may ref, unref, queue endgames, register handles, ...).
   */
  datatype Hooks = Hooks(
    clock: Fields -> int,              // uv_update_time: the new cached time
    timers: Fields -> Fields,          // uv_process_timers
    idle: Fields -> Fields,            // uv_idle_invoke
    reqs: Fields -> Fields,            // uv_process_reqs
    endgames: Fields -> Fields,        // uv_process_endgames
    prepare: Fields -> Fields,         // uv_prepare_invoke
    check: Fields -> Fields,           // uv_check_invoke
    pollTimeout: Fields -> uint32)     // uv_get_poll_timeout: the timeout only, no effect on the loop
  {
    /** The effect on the loop fields of running one phase helper. */
    function Apply(p: Phase, f: Fields): Fields {
      match p
      case UpdateTime => f.(now := clock(f))
      case Timers => timers(f)
      case Idle => idle(f)
      case ProcessReqs => reqs(f)
      case Endgames => endgames(f)
      case Prepare => prepare(f)
      case Check => check(f)
    }
  }

  /**
   * What `GetQueuedCompletionStatus` reports: a dequeued packet (whatever
   * the status of its I/O, the code only looks at the OVERLAPPED pointer), or
   * none, with the value `GetLastError` then returns.
   */
  datatype Dequeue = Dequeued(ov: Overlapped) | NothingDequeued(lastError: uint32)

  /** At most as many entries as the OVERLAPPED_ENTRY array holds. */
  type Batch = s: seq<Overlapped> | |s| <= BATCH_SIZE witness []

  /**
   * What `GetQueuedCompletionStatusEx` reports: success with `count` entries
   * filled in, or failure with the value of `GetLastError`.
   */
  datatype BatchWait = Removed(entries: Batch) | NotRemoved(lastError: uint32)

  /** A single wait on the completion port, given the loop fields and the timeout. */
  type SingleWait = (Fields, uint32) -> Dequeue

  /** A batched wait on the completion port. */
  type BatchedWait = (Fields, uint32) -> BatchWait

  /**
   * The operating system as the loop sees it: the single-packet wait, and
   * the batched wait, whose function pointer `pGetQueuedCompletionStatusEx`
   * is NULL on systems that lack it.
   */
  datatype Os = Os(getQueued: SingleWait, getQueuedEx: Option<BatchedWait>)

  /** The two completion-poll strategies, `uv_poll` and `uv_poll_ex`. */
  datatype Strategy = Single | Batched(ex: BatchedWait)
  {
    /** How many requests one poll can append to the pending queue. */
    function Limit(): nat {
      if Single? then 1 else BATCH_SIZE
    }
  }

  /** Everything outside the modelled core that one loop run calls into. */
  datatype Env = Env(hooks: Hooks, os: Os)
}
