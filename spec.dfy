/**
 * The behaviour of the Windows event loop of deps/uv/src/win/core.c as pure
 * functions of the loop state: one phase helper, one completion poll, one
 * iteration (`UV_LOOP_ONCE`), and the two drivers `uv_run_once` and
 * `uv_run`. The class in UvWinCore executes these steps in place and is
 * proved to end in exactly the states computed here.
 */
module UvSpec {
  import opened UvTypes

  /**
   * The whole loop: the callback-visible fields, whether `uv_fatal_error`
   * has been reached (the process is then gone, so nothing runs any more),
   * and the trace of every phase executed so far.
   */
  datatype State = State(fields: Fields, fatal: Option<Fatal>, trace: seq<Event>)

  /** How `uv_run` ended; `OutOfFuel` only means the step budget of the model ran out. */
  datatype Outcome = Returned(status: int) | AssertionFailed(refs: int) | Aborted(error: Fatal) | OutOfFuel

  datatype Exit = Exit(state: State, outcome: Outcome)

  /** Nothing to do this iteration: the condition for running the idle handles. */
  predicate QueuesEmpty(f: Fields) {
    f.pending == [] && f.endgame == []
  }

  /** The block flag `UV_LOOP_ONCE` hands to the poll. */
  predicate BlockFlag(f: Fields) {
    f.idle == [] && f.pending == [] && f.endgame == [] && f.refs > 0
  }

  /** The timeout both poll strategies wait with. */
  function PollTimeout(block: bool, f: Fields, hooks: Hooks): uint32 {
    if block then hooks.pollTimeout(f) else 0
  }

  predicate Is(e: Event, p: Phase) {
    e.Entered? && e.phase == p
  }

  /** `t` is `s` with more events after it. */
  predicate Extends(s: seq<Event>, t: seq<Event>) {
    |s| <= |t| && t[..|s|] == s
  }

  /** The last step of `tr` was a poll. */
  predicate EndsWithPoll(tr: seq<Event>) {
    |tr| > 0 && tr[|tr| - 1].Polled?
  }

  /**
   * A poll changed nothing but the pending queue, to which it appended at
   * most `limit` requests at the back.
   */
  predicate Appended(before: Fields, after: Fields, limit: nat) {
    && after == before.(pending := after.pending)
    && |before.pending| <= |after.pending| <= |before.pending| + limit
    && after.pending[..|before.pending|] == before.pending
  }

  /**
   * Steps 1-5 of an iteration that began with fields `start` and left them
   * as `mid`: the time update, the timers, the idle handles exactly when
   * both queues were empty after the timers, then the requests and the
   * endgames. Each phase starts from the fields the previous one left.
   */
  ghost predicate IterationHead(start: Fields, h: seq<Event>, mid: Fields, hooks: Hooks) {
    && (|h| == 4 || |h| == 5)
    && h[0] == Entered(UpdateTime, start)
    && h[1] == Entered(Timers, start.(now := hooks.clock(start)))
    && (|h| == 5 <==> QueuesEmpty(hooks.timers(h[1].at)))
    && (|h| == 5 ==> h[2] == Entered(Idle, hooks.timers(h[1].at)))
    && h[|h| - 2] == Entered(ProcessReqs, if |h| == 5 then hooks.idle(h[2].at) else hooks.timers(h[1].at))
    && h[|h| - 1] == Entered(Endgames, hooks.reqs(h[|h| - 2].at))
    && mid == hooks.endgames(h[|h| - 1].at)
  }

  /**
   * Steps 6-9, from the fields `mid` the endgames left to the fields `final`
   * the iteration leaves: nothing at all when `mid.refs <= 0`; otherwise
   * prepare, the poll on the fields prepare left, with its block flag and
   * timeout, changing only the pending queue, and check on the fields the
   * poll left, unless the poll was fatal.
   */
  ghost predicate IterationTail(mid: Fields, t: seq<Event>, final: Fields, aborted: bool,
                                strategy: Strategy, hooks: Hooks)
  {
    if t == [] then
      !aborted && final == mid && mid.refs <= 0
    else
      && |t| == (if aborted then 2 else 3)
      && mid.refs > 0
      && t[0] == Entered(Prepare, mid)
      && t[1].Polled?
      && t[1].at == hooks.prepare(mid)
      && t[1].block == BlockFlag(t[1].at)
      && t[1].timeout == PollTimeout(t[1].block, t[1].at, hooks)
      && Appended(t[1].at, if aborted then final else t[2].at, strategy.Limit())
      && (!aborted ==> Is(t[2], Check) && final == hooks.check(t[2].at))
  }

  /**
   * The events `d` of one iteration that began with fields `start` and left
   * the loop with fields `final`; the head is four or five events long
   * depending on whether the idle handles ran.
   */
  ghost predicate IsIteration(start: Fields, d: seq<Event>, final: Fields, aborted: bool,
                              strategy: Strategy, hooks: Hooks)
  {
    && |d| >= 4
    && var k := if Is(d[2], Idle) then 5 else 4;
    && |d| >= k
    && var mid := hooks.endgames(d[k - 1].at);
    && IterationHead(start, d[..k], mid, hooks)
    && IterationTail(mid, d[k..], final, aborted, strategy, hooks)
  }

  /** `r` is `s` after exactly one iteration. */
  ghost predicate IsIterationOf(s: State, r: State, strategy: Strategy, hooks: Hooks) {
    && Extends(s.trace, r.trace)
    && IsIteration(s.fields, r.trace[|s.trace|..], r.fields, r.fatal.Some?, strategy, hooks)
  }

  /**
   * The length of the iteration at the front of a run's events: the head,
   * then prepare and the poll when they follow it, then check when it
   * follows them (an aborted iteration ends at its poll).
   */
  ghost function IterLen(d: seq<Event>): nat {
    var k := if |d| > 2 && Is(d[2], Idle) then 5 else 4;
    if |d| > k && Is(d[k], Prepare) then
      (if |d| > k + 2 && Is(d[k + 2], Check) then k + 3 else k + 2)
    else k
  }

  /**
   * The events `d` of a `uv_run` that began with fields `start` and left
   * them as `final`: consecutive iterations, each beginning with
   * `refs > 0` on the fields the previous one left; only the last may be
   * aborted.
   */
  ghost predicate IsRun(start: Fields, d: seq<Event>, final: Fields, aborted: bool,
                        strategy: Strategy, hooks: Hooks)
    decreases |d|
  {
    if d == [] then
      !aborted && final == start
    else
      && start.refs > 0
      && var n := IterLen(d);
      && n <= |d|
      && if n == |d| then
           IsIteration(start, d, final, aborted, strategy, hooks)
         else
           && IsIteration(start, d[..n], d[n].at, false, strategy, hooks)
           && IsRun(d[n].at, d[n..], final, aborted, strategy, hooks)
  }

  /** What every event of every iteration satisfies on its own. */
  ghost predicate EventRule(e: Event, hooks: Hooks) {
    match e
    case Entered(p, at) => (p == Idle ==> QueuesEmpty(at)) && (p == Prepare ==> at.refs > 0)
    case Polled(b, t, at) => b == BlockFlag(at) && t == PollTimeout(b, at, hooks)
  }

  /** The events of a `uv_run`: each obeys its rule and every iteration began with `refs > 0`. */
  ghost predicate RunEvents(d: seq<Event>, hooks: Hooks) {
    forall i :: 0 <= i < |d| ==> EventRule(d[i], hooks) && (Is(d[i], UpdateTime) ==> d[i].at.refs > 0)
  }

  /** Running one phase helper: its effect on the fields, recorded in the trace. */
  function Invoke(s: State, p: Phase, hooks: Hooks): State {
    State(hooks.Apply(p, s.fields), s.fatal, s.trace + [Entered(p, s.fields)])
  }

  /** `uv_insert_pending_req`: the request goes to the tail of the pending queue. */
  function InsertPending(f: Fields, req: Req): Fields {
    f.(pending := f.pending + [req])
  }

  /** The requests behind a batch of packets, in array order. */
  function ToReqs(entries: seq<Overlapped>): (reqs: seq<Req>)
    ensures |reqs| == |entries|
    ensures forall i :: 0 <= i < |entries| ==> reqs[i] == OverlappedToReq(entries[i])
  {
    if entries == [] then [] else [OverlappedToReq(entries[0])] + ToReqs(entries[1..])
  }

  /** Inserting the requests of packets one after another, as successive single polls do. */
  function InsertEach(f: Fields, entries: seq<Overlapped>): Fields
    decreases |entries|
  {
    if entries == [] then f
    else InsertEach(InsertPending(f, OverlappedToReq(entries[0])), entries[1..])
  }

  /**
   * One batched poll and one single poll per packet leave the same pending
   * queue: the packets' requests after the old queue, in the order recovered.
   */
  lemma {:induction false} InsertEachIsBatch(f: Fields, entries: seq<Overlapped>)
    ensures InsertEach(f, entries) == f.(pending := f.pending + ToReqs(entries))
    decreases |entries|
  {
    if entries != [] {
      var g := InsertPending(f, OverlappedToReq(entries[0]));
      InsertEachIsBatch(g, entries[1..]);
      assert g.pending + ToReqs(entries[1..]) == f.pending + ToReqs(entries);
    }
  }

  /**
   * `uv_poll` and `uv_poll_ex`: wait on the completion port with a timeout
   * derived from the block flag, append what was dequeued to the pending
   * queue, and raise the fatal error for any failure but a timeout.
   */
  function Poll(s: State, block: bool, strategy: Strategy, env: Env): State
    requires s.fatal.None?
  {
    var timeout := PollTimeout(block, s.fields, env.hooks);
    var polled := s.(trace := s.trace + [Polled(block, timeout, s.fields)]);
    match strategy
    case Single =>
      (match env.os.getQueued(s.fields, timeout)
       case Dequeued(ov) => polled.(fields := InsertPending(s.fields, OverlappedToReq(ov)))
       case NothingDequeued(e) =>
         if e != WAIT_TIMEOUT then polled.(fatal := Some(Fatal(e, GetQueuedCompletionStatus))) else polled)
    case Batched(ex) =>
      (match ex(s.fields, timeout)
       case Removed(entries) => polled.(fields := s.fields.(pending := s.fields.pending + ToReqs(entries)))
       case NotRemoved(e) =>
         if e != WAIT_TIMEOUT then polled.(fatal := Some(Fatal(e, GetQueuedCompletionStatusEx))) else polled)
  }

  /**
   * What a poll does, outcome by outcome: it records its block flag and
   * timeout, changes nothing but the pending queue, appends the one dequeued
   * request or the batch's requests in array order, leaves everything as it
   * was on a timeout, and is fatal on any other failure, naming the call.
   */
  lemma PollOutcomes(s: State, block: bool, strategy: Strategy, env: Env)
    requires s.fatal.None?
    ensures var r := Poll(s, block, strategy, env);
      && r.trace == s.trace + [Polled(block, PollTimeout(block, s.fields, env.hooks), s.fields)]
      && Appended(s.fields, r.fields, strategy.Limit())
    ensures var r := Poll(s, block, strategy, env);
      var timeout := PollTimeout(block, s.fields, env.hooks);
      match strategy
      case Single =>
        (match env.os.getQueued(s.fields, timeout)
         case Dequeued(ov) =>
           r.fields.pending == s.fields.pending + [OverlappedToReq(ov)] && r.fatal.None?
         case NothingDequeued(e) =>
           r.fields == s.fields && (r.fatal.None? <==> e == WAIT_TIMEOUT)
           && (e != WAIT_TIMEOUT ==> r.fatal == Some(Fatal(e, GetQueuedCompletionStatus))))
      case Batched(ex) =>
        (match ex(s.fields, timeout)
         case Removed(entries) =>
           && |r.fields.pending| == |s.fields.pending| + |entries|
           && (forall i :: 0 <= i < |entries| ==>
                 r.fields.pending[|s.fields.pending| + i] == OverlappedToReq(entries[i]))
           && r.fatal.None?
         case NotRemoved(e) =>
           r.fields == s.fields && (r.fatal.None? <==> e == WAIT_TIMEOUT)
           && (e != WAIT_TIMEOUT ==> r.fatal == Some(Fatal(e, GetQueuedCompletionStatusEx))))
  {
  }

  /** Steps 1-5 of `UV_LOOP_ONCE`; idle runs only when there is nothing else to do. */
  function Head(s: State, hooks: Hooks): State {
    var s1 := Invoke(s, UpdateTime, hooks);
    var s2 := Invoke(s1, Timers, hooks);
    var s3 := if QueuesEmpty(s2.fields) then Invoke(s2, Idle, hooks) else s2;
    var s4 := Invoke(s3, ProcessReqs, hooks);
    Invoke(s4, Endgames, hooks)
  }

  /** The head keeps the fatal flag and appends the events `IterationHead` describes. */
  lemma HeadShape(s: State, hooks: Hooks)
    ensures var r := Head(s, hooks);
      && r.fatal == s.fatal
      && Extends(s.trace, r.trace)
      && IterationHead(s.fields, r.trace[|s.trace|..], r.fields, hooks)
  {
  }

  /** Steps 7-9 of `UV_LOOP_ONCE`, reached only when `refs > 0` after the endgames. */
  function Tail(s: State, strategy: Strategy, env: Env): State
    requires s.fatal.None? && s.fields.refs > 0
  {
    var s6 := Invoke(s, Prepare, env.hooks);
    var s7 := Poll(s6, BlockFlag(s6.fields), strategy, env);
    if s7.fatal.Some? then s7 else Invoke(s7, Check, env.hooks)
  }

  /** The tail appends the events `IterationTail` describes. */
  lemma TailShape(s: State, strategy: Strategy, env: Env)
    requires s.fatal.None? && s.fields.refs > 0
    ensures var r := Tail(s, strategy, env);
      && Extends(s.trace, r.trace)
      && IterationTail(s.fields, r.trace[|s.trace|..], r.fields, r.fatal.Some?, strategy, env.hooks)
  {
    var s6 := Invoke(s, Prepare, env.hooks);
    var block := BlockFlag(s6.fields);
    var s7 := Poll(s6, block, strategy, env);
    PollOutcomes(s6, block, strategy, env);
    var poll := Polled(block, PollTimeout(block, s6.fields, env.hooks), s6.fields);
    if s7.fatal.Some? {
      assert s7.trace[|s.trace|..] == [Entered(Prepare, s.fields), poll];
    } else {
      var r := Invoke(s7, Check, env.hooks);
      assert r.trace[|s.trace|..] == [Entered(Prepare, s.fields), poll, Entered(Check, s7.fields)];
    }
  }

  /**
   * `UV_LOOP_ONCE`: one iteration. The `break` after the endgames leaves
   * only this body, skipping prepare, poll and check.
   */
  function Once(s: State, strategy: Strategy, env: Env): State {
    if s.fatal.Some? then s
    else
      var t := Head(s, env.hooks);
      if t.fields.refs <= 0 then t else Tail(t, strategy, env)
  }

  /** One iteration does nothing on a fatal loop, and otherwise is an iteration. */
  lemma OnceIsIteration(s: State, strategy: Strategy, env: Env)
    ensures s.fatal.Some? ==> Once(s, strategy, env) == s
    ensures s.fatal.None? ==> IsIterationOf(s, Once(s, strategy, env), strategy, env.hooks)
  {
    if s.fatal.None? {
      var t := Head(s, env.hooks);
      HeadShape(s, env.hooks);
      if t.fields.refs > 0 {
        TailShape(t, strategy, env);
      }
      JoinIteration(s, t, Once(s, strategy, env), strategy, env.hooks);
    }
  }

  /** A head followed by a tail is an iteration. */
  lemma JoinIteration(s: State, t: State, r: State, strategy: Strategy, hooks: Hooks)
    requires t.fatal.None?
    requires Extends(s.trace, t.trace) && IterationHead(s.fields, t.trace[|s.trace|..], t.fields, hooks)
    requires t.fields.refs <= 0 ==> r == t
    requires t.fields.refs > 0 ==>
      Extends(t.trace, r.trace) && IterationTail(t.fields, r.trace[|t.trace|..], r.fields, r.fatal.Some?, strategy, hooks)
    ensures IsIterationOf(s, r, strategy, hooks)
  {
  }

  /** Each event of an iteration obeys its rule, and only the first one updates the time. */
  lemma IterationEvents(start: Fields, d: seq<Event>, final: Fields, aborted: bool,
                        strategy: Strategy, hooks: Hooks)
    requires IsIteration(start, d, final, aborted, strategy, hooks)
    ensures forall i :: 0 <= i < |d| ==> EventRule(d[i], hooks) && (Is(d[i], UpdateTime) ==> i == 0)
    ensures aborted ==> d[|d| - 1].Polled?
  {
  }

  /** Which poll strategy the drivers pick, once, before running any iteration. */
  function StrategyFor(os: Os): (strategy: Strategy)
    ensures strategy.Batched? <==> os.getQueuedEx.Some?
    ensures strategy.Batched? ==> os.getQueuedEx == Some(strategy.ex)
  {
    match os.getQueuedEx
    case Some(ex) => Batched(ex)
    case None => Single
  }

  /**
   * `UV_LOOP`: iterate while `refs > 0`, then check `assert(loop->refs == 0)`.
   * An iteration that reaches `uv_fatal_error` ends the run; `fuel` bounds
   * the number of iterations.
   */
  function Run(s: State, strategy: Strategy, env: Env, fuel: nat): Exit
    decreases fuel
  {
    if s.fatal.Some? then Exit(s, Aborted(s.fatal.value))
    else if s.fields.refs <= 0 then
      Exit(s, if s.fields.refs == 0 then Returned(0) else AssertionFailed(s.fields.refs))
    else if fuel == 0 then Exit(s, OutOfFuel)
    else Run(Once(s, strategy, env), strategy, env, fuel - 1)
  }

  /** While `refs > 0`, a run is one iteration followed by a run with one step less. */
  lemma RunUnfold(s: State, strategy: Strategy, env: Env, fuel: nat, rest: nat)
    requires s.fatal.None? && s.fields.refs > 0 && fuel == rest + 1
    ensures Run(s, strategy, env, fuel) == Run(Once(s, strategy, env), strategy, env, rest)
  {
  }

  /**
   * What every run guarantees: it only appends to the trace; a loop with
   * `refs <= 0` on entry runs nothing; returning means status 0 with
   * `refs == 0`; the assertion fails only for negative `refs`; it aborts
   * exactly when the fatal error was reached, and then the last step was a
   * poll; fuel runs out only while `refs > 0`; and every iteration began
   * with `refs > 0` and followed the phase rules.
   */
  lemma {:induction false} RunShape(s: State, strategy: Strategy, env: Env, fuel: nat)
    ensures var r := Run(s, strategy, env, fuel);
      && Extends(s.trace, r.state.trace)
      && (s.fatal.Some? ==> r == Exit(s, Aborted(s.fatal.value)))
      && (s.fatal.None? && s.fields.refs <= 0 ==> r.state == s)
      && (r.outcome.Returned? ==> r.outcome.status == 0 && r.state.fields.refs == 0 && r.state.fatal.None?)
      && (r.outcome.AssertionFailed? ==> r.outcome.refs == r.state.fields.refs < 0 && r.state.fatal.None?)
      && (r.outcome.Aborted? <==> r.state.fatal.Some?)
      && (r.outcome.Aborted? ==> r.state.fatal == Some(r.outcome.error))
      && (r.outcome.OutOfFuel? ==> r.state.fields.refs > 0 && r.state.fatal.None?)
      && (s.fatal.None? && r.state.fatal.Some? ==> EndsWithPoll(r.state.trace))
      && RunEvents(r.state.trace[|s.trace|..], env.hooks)
    decreases fuel
  {
    if s.fatal.None? && s.fields.refs > 0 && fuel > 0 {
      var t := Once(s, strategy, env);
      var rest := fuel - 1;
      RunShape(t, strategy, env, rest);
      RunStep(s, Run(t, strategy, env, rest), strategy, env);
      RunUnfold(s, strategy, env, fuel, rest);
    } else {
      assert s.trace[|s.trace|..] == [];
    }
  }

  /**
   * The events of a run on a live loop are consecutive whole iterations,
   * each begun with `refs > 0` where the previous one left off; only the
   * last may be aborted, exactly when the run reached the fatal error.
   */
  lemma {:induction false} RunIsRun(s: State, strategy: Strategy, env: Env, fuel: nat)
    requires s.fatal.None?
    ensures var r := Run(s, strategy, env, fuel);
      && Extends(s.trace, r.state.trace)
      && IsRun(s.fields, r.state.trace[|s.trace|..], r.state.fields, r.state.fatal.Some?, strategy, env.hooks)
    decreases fuel
  {
    if s.fields.refs > 0 && fuel > 0 {
      var t := Once(s, strategy, env);
      var rest := fuel - 1;
      RunUnfold(s, strategy, env, fuel, rest);
      if t.fatal.None? {
        RunIsRun(t, strategy, env, rest);
      }
      RunIsRunStep(s, Run(s, strategy, env, fuel), strategy, env);
    } else {
      assert s.trace[|s.trace|..] == [];
    }
  }

  /** One iteration followed by a run from where it left off is a run. */
  lemma RunIsRunStep(s: State, r: Exit, strategy: Strategy, env: Env)
    requires s.fatal.None? && s.fields.refs > 0
    requires var t := Once(s, strategy, env);
      && Extends(t.trace, r.state.trace)
      && (t.fatal.Some? ==> r.state == t)
      && (t.fatal.None? ==>
           IsRun(t.fields, r.state.trace[|t.trace|..], r.state.fields, r.state.fatal.Some?, strategy, env.hooks))
    ensures Extends(s.trace, r.state.trace)
    ensures IsRun(s.fields, r.state.trace[|s.trace|..], r.state.fields, r.state.fatal.Some?, strategy, env.hooks)
  {
    var t := Once(s, strategy, env);
    OnceIsIteration(s, strategy, env);
    JoinRun(s, t, r, strategy, env.hooks);
  }

  /** An iteration from `s` to `t` followed by a run from `t` is a run from `s`. */
  lemma JoinRun(s: State, t: State, r: Exit, strategy: Strategy, hooks: Hooks)
    requires s.fields.refs > 0
    requires IsIterationOf(s, t, strategy, hooks)
    requires Extends(t.trace, r.state.trace)
    requires t.fatal.Some? ==> r.state == t
    requires t.fatal.None? ==>
      IsRun(t.fields, r.state.trace[|t.trace|..], r.state.fields, r.state.fatal.Some?, strategy, hooks)
    ensures Extends(s.trace, r.state.trace)
    ensures IsRun(s.fields, r.state.trace[|s.trace|..], r.state.fields, r.state.fatal.Some?, strategy, hooks)
  {
    var d1 := t.trace[|s.trace|..];
    var rest := r.state.trace[|t.trace|..];
    assert r.state.trace[|s.trace|..] == d1 + rest;
    if t.fatal.Some? {
      assert rest == [];
    }
    RunCons(s.fields, d1, t.fields, t.fatal.Some?, rest, r.state.fields, r.state.fatal.Some?, strategy, hooks);
  }

  /** A run's events start with the time update on its starting fields. */
  lemma RunStartsWithUpdate(start: Fields, d: seq<Event>, final: Fields, aborted: bool,
                            strategy: Strategy, hooks: Hooks)
    requires IsRun(start, d, final, aborted, strategy, hooks) && d != []
    ensures d[0] == Entered(UpdateTime, start)
  {
    var n := IterLen(d);
    if n < |d| {
      assert d[..n][0] == d[0];
    }
  }

  /** One iteration from `start` with `refs > 0`, followed by a run from where it left off, is a run. */
  lemma RunCons(start: Fields, d1: seq<Event>, mid: Fields, midAborted: bool,
                rest: seq<Event>, final: Fields, aborted: bool, strategy: Strategy, hooks: Hooks)
    requires start.refs > 0
    requires IsIteration(start, d1, mid, midAborted, strategy, hooks)
    requires midAborted ==> rest == [] && final == mid && aborted
    requires !midAborted ==> IsRun(mid, rest, final, aborted, strategy, hooks)
    ensures IsRun(start, d1 + rest, final, aborted, strategy, hooks)
  {
    IterationLen(start, d1, mid, midAborted, strategy, hooks);
    if rest != [] {
      RunStartsWithUpdate(mid, rest, final, aborted, strategy, hooks);
    }
    IterLenExtend(d1, rest);
    var d := d1 + rest;
    assert d[..|d1|] == d1 && d[|d1|..] == rest;
    if rest != [] {
      assert d[|d1|] == rest[0];
    }
  }

  /** `IterLen` measures a whole iteration. */
  lemma IterationLen(start: Fields, d: seq<Event>, final: Fields, aborted: bool,
                     strategy: Strategy, hooks: Hooks)
    requires IsIteration(start, d, final, aborted, strategy, hooks)
    ensures IterLen(d) == |d|
  {
    var k := if Is(d[2], Idle) then 5 else 4;
    var t := d[k..];
    if t != [] {
      assert d[k] == t[0];
      if |t| == 3 {
        assert d[k + 2] == t[2];
      }
    }
  }

  /** What follows an iteration does not change its measured length, so long as it starts with a time update. */
  lemma IterLenExtend(d: seq<Event>, rest: seq<Event>)
    requires |d| > 2 && IterLen(d) == |d|
    requires rest != [] ==> Is(rest[0], UpdateTime)
    ensures IterLen(d + rest) == |d|
  {
    if rest != [] {
      assert (d + rest)[|d|] == rest[0];
    }
  }

  /** One iteration followed by the rest of a run is a run. */
  lemma RunStep(s: State, r: Exit, strategy: Strategy, env: Env)
    requires s.fatal.None? && s.fields.refs > 0
    requires var t := Once(s, strategy, env);
      && Extends(t.trace, r.state.trace)
      && RunEvents(r.state.trace[|t.trace|..], env.hooks)
      && (t.fatal.Some? ==> r.state == t)
      && (t.fatal.None? && r.state.fatal.Some? ==> EndsWithPoll(r.state.trace))
    ensures Extends(s.trace, r.state.trace)
    ensures RunEvents(r.state.trace[|s.trace|..], env.hooks)
    ensures r.state.fatal.Some? ==> EndsWithPoll(r.state.trace)
  {
    var t := Once(s, strategy, env);
    OnceIsIteration(s, strategy, env);
    var d := t.trace[|s.trace|..];
    IterationEvents(s.fields, d, t.fields, t.fatal.Some?, strategy, env.hooks);
    var rest := r.state.trace[|t.trace|..];
    assert r.state.trace[|s.trace|..] == d + rest;
    if t.fatal.Some? {
      assert t.trace[|t.trace| - 1] == d[|d| - 1];
    }
  }

  /** `uv_run`: the strategy is chosen once, then `UV_LOOP` runs. */
  function UvRun(s: State, env: Env, fuel: nat): Exit {
    Run(s, StrategyFor(env.os), env, fuel)
  }

  /** `uv_run_once`: exactly one iteration, whatever `refs` is on entry. */
  function UvRunOnce(s: State, env: Env): State {
    Once(s, StrategyFor(env.os), env)
  }

  /** `uv_run_once` runs exactly one iteration body on a live loop, and nothing on a fatal one. */
  lemma RunOnceIsOneIteration(s: State, env: Env)
    ensures s.fatal.Some? ==> UvRunOnce(s, env) == s
    ensures s.fatal.None? ==> IsIterationOf(s, UvRunOnce(s, env), StrategyFor(env.os), env.hooks)
  {
    OnceIsIteration(s, StrategyFor(env.os), env);
  }

  /**
   * The asymmetry of the two drivers on a live loop with `refs <= 0`:
   * `uv_run` runs no phase at all and fails its assertion exactly when
   * `refs < 0`, while `uv_run_once` still updates the time and runs at
   * least the four phases up to the endgames.
   */
  lemma DriversWithoutRefs(s: State, env: Env, fuel: nat)
    requires s.fatal.None? && s.fields.refs <= 0
    ensures UvRun(s, env, fuel).state == s
    ensures UvRun(s, env, fuel).outcome == if s.fields.refs == 0 then Returned(0) else AssertionFailed(s.fields.refs)
    ensures |UvRunOnce(s, env).trace| >= |s.trace| + 4
    ensures UvRunOnce(s, env).trace[|s.trace|] == Entered(UpdateTime, s.fields)
  {
    RunOnceIsOneIteration(s, env);
  }
}
