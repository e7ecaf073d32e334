/** One received message: the stages of `process`, its two signals and its visibility loop.

    What the handler and the later API calls will do is recorded in the message as its plan. A received
    copy is handled at most once, so fixing the outcome at receipt loses no behaviour. */
module Lifecycle {
  import opened Options
  import opened Visibility
  import GroupKey

  datatype Mode = Parallel | PerGroupID
  datatype RetryModel = VisibilityRetry | ScheduledRetry

  /** A route: how it dispatches, retries and deletes. `dlq` is the observe-only receive limit. */
  datatype Config = Config(
    mode: Mode, model: RetryModel, batched: bool, workers: nat, maxMessages: nat,
    timeout: int, limit: nat, maxRetryCount: int, dlq: Option<int>)
  {
    predicate Valid() {
      && 1 <= workers < 0x1_0000_0000
      && 1 <= maxMessages
      && Accepted(Vis())
    }

    function Vis(): Settings { Settings(timeout, limit, model.ScheduledRetry?) }

    /** Whether a failed message holds back the rest of its group in the batch. */
    predicate Ordered() { mode.PerGroupID? && model.VisibilityRetry? }
  }

  /** What the handler does, whether it dispatches the message itself, asks for a backoff (at most once)
      and returns an error, and whether creating the schedule or publishing to the DLQ works. */
  datatype Plan = Plan(
    dispatches: bool, backoff: Option<int>, err: bool, orchestrated: bool, retryCount: nat, receiveCount: int)

  datatype Msg = Msg(key: GroupKey.Bytes, plan: Plan)

  /** How processing ended: held back, failed and left in the queue, retained because the schedule or
      publish failed, or committed, that is a delete was issued for it. */
  datatype Fate = Held | Failed | Retained | Committed

  datatype Metric = Success | Retry | DeadLetter | Exhausted

  /** The worker's position in `process`. */
  datatype Stage =
    | Queued        // in the worker's channel
    | Check         // about to ask the barrier
    | Spawn         // about to start the visibility loop
    | Handle        // in the handler
    | Settle        // the handler has returned
    | Fail          // about to mark the group failed
    | Observe       // about to look for exhaustion
    | Orchestrate   // about to schedule a retry or publish to the DLQ
    | Commit        // about to delete
    | Record        // about to emit the outcome metric
    | Done(fate: Fate)

  datatype Life = Life(stage: Stage, sig: Signals, loop: Loop, calls: seq<int>)

  const QUIET := Signals(false, false, None)

  const BORN := Life(Queued, QUIET, NotStarted, [])

  predicate Failing(p: Plan) { p.err || p.backoff.Some? }

  /** What becomes of a message that is not held back. */
  function FateOf(cfg: Config, p: Plan): Fate {
    if cfg.model.ScheduledRetry? then (if Failing(p) && !p.orchestrated then Retained else Committed)
    else if Failing(p) then Failed else Committed
  }

  /** The metric a message emits on reaching its fate. */
  function MetricOf(cfg: Config, p: Plan, fate: Fate): Option<Metric> {
    if cfg.model.ScheduledRetry? then
      if fate != Committed then None
      else if !Failing(p) then Some(Success)
      else if p.retryCount + 1 <= cfg.maxRetryCount then Some(Retry)
      else Some(DeadLetter)
    else if fate == Failed && p.backoff.None? && cfg.dlq.Some? && p.receiveCount >= cfg.dlq.value then Some(Exhausted)
    else None
  }

  /** When each metric is emitted: success and retry or dead letter, by whether the count to come exceeds the
      limit, once the message is deleted; exhaustion once the receive limit is reached. */
  lemma MetricIs(cfg: Config, p: Plan, fate: Fate)
    ensures var m, scheduled := MetricOf(cfg, p, fate), cfg.model.ScheduledRetry?;
            && (m == Some(Success) <==> scheduled && fate == Committed && !p.err && p.backoff == None)
            && (m == Some(Retry) <==> scheduled && fate == Committed && Failing(p) && p.retryCount < cfg.maxRetryCount)
            && (m == Some(DeadLetter) <==>
                  scheduled && fate == Committed && Failing(p) && p.retryCount >= cfg.maxRetryCount)
            && (m == Some(Exhausted) <==>
                  && !scheduled && fate == Failed && p.backoff == None
                  && cfg.dlq != None && cfg.dlq.value <= p.receiveCount)
  {}

  /** The routes covered: any number of workers of 32 bits, any batch size, any timeout a route can have. */
  lemma ValidIff(cfg: Config)
    ensures cfg.Valid() <==>
            1 <= cfg.workers <= 4_294_967_295 && 1 <= cfg.maxMessages && 11 <= cfg.timeout <= 2_147_483_647
  {}

  /** One step of `process`. `poisoned` is what the barrier answers. */
  function Advance(cfg: Config, p: Plan, l: Life, poisoned: bool): Life
    requires !l.stage.Done? && !l.stage.Queued?
  {
    match l.stage
    case Check => l.(stage := if cfg.Ordered() && poisoned then Done(Held) else Spawn)
    case Spawn => l.(stage := Handle, loop := Select(0, cfg.timeout))
    case Handle =>
      // A dispatch by the handler comes first: the loop may then see either signal, as in the other order.
      if p.dispatches && !l.sig.dispatched then l.(sig := l.sig.(dispatched := true))
      else if p.backoff.Some? && !l.sig.backedOff then l.(sig := l.sig.(backedOff := true, slot := p.backoff))
      else l.(stage := Settle)
    case Settle =>
      if cfg.model.ScheduledRetry? then
        l.(sig := l.sig.(dispatched := true), stage := if p.err || l.sig.backedOff then Orchestrate else Commit)
      else if l.sig.backedOff then l.(stage := Fail)
      else l.(sig := l.sig.(dispatched := true), stage := if p.err then Fail else Commit)
    case Fail => l.(stage := if l.sig.backedOff then Done(Failed) else Observe)
    case Observe => l.(stage := Done(Failed))
    case Orchestrate => l.(stage := if p.orchestrated then Commit else Done(Retained))
    case Commit => l.(stage := if cfg.model.ScheduledRetry? then Record else Done(Committed))
    case Record => l.(stage := Done(Committed))
  }

  /** One step of the message's visibility loop. Receiving from the backoff channel empties it. */
  function LoopStep(cfg: Config, l: Life, e: Event): Life {
    l.(loop := Next(cfg.Vis(), l.loop, e),
       calls := l.calls + Call(cfg.Vis(), l.loop, e),
       sig := if e.BackoffSignal? then l.sig.(slot := None) else l.sig)
  }

  predicate LoopLive(l: Life) { !l.loop.NotStarted? && !l.loop.Ended? }

  predicate Active(l: Life) { !l.stage.Queued? && !l.stage.Done? }

  /** Whether the handler has been entered. */
  predicate Started(l: Life) {
    !l.stage.Queued? && !l.stage.Check? && !l.stage.Spawn? && l.stage != Done(Held)
  }

  predicate Returned(l: Life) { Started(l) && !l.stage.Handle? }

  /** Whether the delete has been issued. */
  predicate Issued(l: Life) { l.stage.Record? || l.stage == Done(Committed) }

  /** Whether the message has marked its group failed. */
  predicate Poisons(p: Plan, l: Life) { Failing(p) && (l.stage.Observe? || l.stage == Done(Failed)) }

  /** What the message has emitted. */
  function Emitted(cfg: Config, p: Plan, l: Life): Option<Metric> {
    if l.stage.Done? then MetricOf(cfg, p, l.stage.fate) else None
  }

  // ----- The invariant of one message -----

  ghost predicate SignalsOk(cfg: Config, p: Plan, l: Life) {
    var sig := l.sig;
    && (!Started(l) ==> sig == QUIET && l.loop.NotStarted?)
    && (Started(l) ==> !l.loop.NotStarted?)
    && (sig.backedOff ==> p.backoff.Some?)
    && (Returned(l) ==> (sig.backedOff <==> p.backoff.Some?))
    && (sig.slot.Some? ==> sig.backedOff && sig.slot == p.backoff)
    && (sig.backedOff && sig.slot.None? ==> !cfg.model.ScheduledRetry? && (l.loop.Final? || l.loop.Ended?))
    && (sig.dispatched ==> Started(l))
    && (Returned(l) && !l.stage.Settle? && (cfg.model.ScheduledRetry? || p.backoff.None?) ==> sig.dispatched)
    && (l.loop.Final? ==> sig.backedOff && sig.slot.None?)
  }

  ghost predicate StageOk(cfg: Config, p: Plan, l: Life) {
    match l.stage
    case Fail => !cfg.model.ScheduledRetry? && Failing(p)
    case Observe => !cfg.model.ScheduledRetry? && p.err && p.backoff.None?
    case Orchestrate => cfg.model.ScheduledRetry? && Failing(p)
    case Commit => FateOf(cfg, p) == Committed
    case Record => cfg.model.ScheduledRetry? && FateOf(cfg, p) == Committed
    case Done(fate) => fate == FateOf(cfg, p) || (fate == Held && cfg.Ordered())
    case _ => true
  }

  ghost predicate LifeOk(cfg: Config, p: Plan, l: Life) {
    && SignalsOk(cfg, p, l)
    && StageOk(cfg, p, l)
    && CallsSoFar(cfg.Vis(), l.loop, l.calls)
  }

  lemma BornOk(cfg: Config, p: Plan)
    ensures LifeOk(cfg, p, BORN)
    ensures LifeOk(cfg, p, BORN.(stage := Check))
  {}

  lemma AdvanceOk(cfg: Config, p: Plan, l: Life, poisoned: bool)
    requires LifeOk(cfg, p, l) && Active(l)
    ensures LifeOk(cfg, p, Advance(cfg, p, l, poisoned))
  {}

  lemma LoopStepOk(cfg: Config, p: Plan, l: Life, e: Event, cancelled: bool)
    requires LifeOk(cfg, p, l) && Ready(cfg.Vis(), l.loop, e, l.sig, cancelled)
    ensures LifeOk(cfg, p, LoopStep(cfg, l, e))
    ensures LoopStep(cfg, l, e).stage == l.stage
  {
    EventKeepsCalls(cfg.Vis(), l.loop, e, l.sig, cancelled, l.calls);
  }

  /** The handshake: once `process` has let go of a message, a loop that is still at its select or in an
      extension call has a signal waiting for it, so it returns within its remaining ticks; otherwise it
      is already in its last call or has returned. */
  lemma HandshakeLeavesNoLeak(cfg: Config, p: Plan, l: Life)
    requires LifeOk(cfg, p, l) && l.stage.Done?
    ensures l.stage.fate == Held ==> l.loop.NotStarted?
    ensures l.stage.fate != Held ==> !l.loop.NotStarted?
    ensures l.loop.Select? || l.loop.Extend? ==>
              l.sig.dispatched || (!cfg.model.ScheduledRetry? && l.sig.slot.Some? && l.sig.slot == p.backoff)
  {}

  // ----- When a second backoff returns -----

  /** Events of the loop alone, of a cancelled run or of one that is not. */
  ghost predicate LoopRun(cfg: Config, l: Life, events: seq<Event>, cancelled: bool)
    decreases |events|
  {
    || events == []
    || (Ready(cfg.Vis(), l.loop, events[0], l.sig, cancelled) &&
        LoopRun(cfg, LoopStep(cfg, l, events[0]), events[1..], cancelled))
  }

  ghost function AfterLoop(cfg: Config, l: Life, events: seq<Event>): Life
    decreases |events|
  {
    if events == [] then l else AfterLoop(cfg, LoopStep(cfg, l, events[0]), events[1..])
  }

  lemma FirstEvent(cfg: Config, l: Life, e: Event, rest: seq<Event>, cancelled: bool)
    ensures AfterLoop(cfg, l, [e] + rest) == AfterLoop(cfg, LoopStep(cfg, l, e), rest)
    ensures LoopRun(cfg, l, [e] + rest, cancelled) <==>
            Ready(cfg.Vis(), l.loop, e, l.sig, cancelled) && LoopRun(cfg, LoopStep(cfg, l, e), rest, cancelled)
  {
    assert ([e] + rest)[1..] == rest;
  }

  /** The loop still comes to a select that reads the backoff channel. */
  predicate StillReads(cfg: Config, l: Life) {
    && !cfg.model.ScheduledRetry?
    && ((l.loop.Select? && l.loop.count <= cfg.limit) || (l.loop.Extend? && l.loop.count < cfg.limit))
  }

  lemma {:induction false} NeverEmptied(cfg: Config, l: Life, events: seq<Event>)
    requires l.sig.slot.Some? && !StillReads(cfg, l) && LoopRun(cfg, l, events, true)
    ensures AfterLoop(cfg, l, events).sig.slot == l.sig.slot
    decreases |events|
  {
    if events != [] {
      NeverEmptied(cfg, LoopStep(cfg, l, events[0]), events[1..]);
    }
  }

  /** A call of Backoff that finds the channel full returns only once the loop has emptied it, and the loop
      can do so if and only if it still comes to a select that reads it: never under the scheduled model,
      and otherwise only before its limit is reached and before it has read a backoff. */
  lemma SlotEmptiedIff(cfg: Config, l: Life)
    requires l.sig.slot.Some?
    ensures (exists events :: LoopRun(cfg, l, events, true) && AfterLoop(cfg, l, events).sig.slot.None?) <==>
            StillReads(cfg, l)
  {
    if StillReads(cfg, l) {
      var read := BackoffSignal(l.sig.slot.value);
      if l.loop.Select? {
        FirstEvent(cfg, l, read, [], true);
        assert LoopRun(cfg, l, [read] + [], true);
      } else {
        FirstEvent(cfg, LoopStep(cfg, l, CallReturned), read, [], true);
        FirstEvent(cfg, l, CallReturned, [read] + [], true);
        assert LoopRun(cfg, l, [CallReturned] + ([read] + []), true);
      }
    } else {
      forall events | LoopRun(cfg, l, events, true) ensures AfterLoop(cfg, l, events).sig.slot.Some? {
        NeverEmptied(cfg, l, events);
      }
    }
  }

  // ----- The loop can stop at once -----

  /** At its select the loop can take a dispatch, or a cancellation, at once, and ends with no more calls. */
  lemma EndsAtSelect(cfg: Config, p: Plan, l: Life, cancelled: bool) returns (e: Event)
    requires LifeOk(cfg, p, l) && l.loop.Select? && (l.sig.dispatched || cancelled)
    ensures Ready(cfg.Vis(), l.loop, e, l.sig, cancelled)
    ensures LoopStep(cfg, l, e).loop.Ended? && LoopStep(cfg, l, e).calls == l.calls
  {
    e := if l.loop.count > cfg.limit then LimitReached else if cancelled then ContextDone else DispatchSignal;
    assert l.calls + [] == l.calls;
  }

  /** Once its message is dispatched or the run is cancelled, a live loop can end within two events, the
      return of a call it is in being one, and without another call. */
  lemma StopsPromptly(cfg: Config, p: Plan, l: Life, cancelled: bool) returns (events: seq<Event>)
    requires LifeOk(cfg, p, l) && LoopLive(l) && (l.sig.dispatched || cancelled)
    ensures |events| <= 2 && LoopRun(cfg, l, events, cancelled)
    ensures AfterLoop(cfg, l, events).loop.Ended? && AfterLoop(cfg, l, events).calls == l.calls
  {
    assert l.calls + [] == l.calls;
    if l.loop.Select? {
      var e := EndsAtSelect(cfg, p, l, cancelled);
      FirstEvent(cfg, l, e, [], cancelled);
      events := [e] + [];
    } else {
      var next := LoopStep(cfg, l, CallReturned);
      if next.loop.Ended? {
        FirstEvent(cfg, l, CallReturned, [], cancelled);
        events := [CallReturned] + [];
      } else {
        LoopStepOk(cfg, p, l, CallReturned, cancelled);
        var e := EndsAtSelect(cfg, p, next, cancelled);
        FirstEvent(cfg, next, e, [], cancelled);
        FirstEvent(cfg, l, CallReturned, [e] + [], cancelled);
        events := [CallReturned] + ([e] + []);
      }
    }
  }

  /** A backoff that waits at a select within the limit can be applied at once: its call, clamped, is the
      next, and the loop then ends. */
  lemma BackoffApplied(cfg: Config, l: Life, cancelled: bool)
    requires l.loop.Select? && StillReads(cfg, l) && l.sig.slot.Some?
    ensures var e := BackoffSignal(l.sig.slot.value);
            var after := LoopStep(cfg, l, e);
            && Ready(cfg.Vis(), l.loop, e, l.sig, cancelled)
            && after.calls == l.calls + [Max(0, Min(43200, l.sig.slot.value))] && after.loop.Final?
            && Ready(cfg.Vis(), after.loop, CallReturned, after.sig, cancelled)
            && LoopStep(cfg, after, CallReturned).loop.Ended?
  {}

  /** One more event in front of a run of the loop. */
  lemma Led(cfg: Config, l: Life, e: Event, rest: seq<Event>, cancelled: bool) returns (events: seq<Event>)
    requires Ready(cfg.Vis(), l.loop, e, l.sig, cancelled) && LoopRun(cfg, LoopStep(cfg, l, e), rest, cancelled)
    ensures events == [e] + rest && LoopRun(cfg, l, events, cancelled)
    ensures AfterLoop(cfg, l, events) == AfterLoop(cfg, LoopStep(cfg, l, e), rest)
  {
    FirstEvent(cfg, l, e, rest, cancelled);
    events := [e] + rest;
  }

  /** When process has let go of a message, its loop if live can end within three events: at once if the
      message is dispatched or the run cancelled, else after applying the backoff that waits, if it still
      reads one. */
  lemma LoopSettles(cfg: Config, p: Plan, l: Life, cancelled: bool) returns (events: seq<Event>)
    requires LifeOk(cfg, p, l) && l.stage.Done? && LoopLive(l)
    ensures |events| <= 3 && LoopRun(cfg, l, events, cancelled) && AfterLoop(cfg, l, events).loop.Ended?
    ensures AfterLoop(cfg, l, events).calls ==
            if l.sig.dispatched || cancelled || !StillReads(cfg, l) then l.calls
            else l.calls + [Max(0, Min(43200, p.backoff.value))]
  {
    HandshakeLeavesNoLeak(cfg, p, l);
    if l.sig.dispatched || cancelled {
      events := StopsPromptly(cfg, p, l, cancelled);
    } else if StillReads(cfg, l) {
      events := ReadsThenEnds(cfg, l, cancelled);
    } else {
      assert l.calls + [] == l.calls;
      if l.loop.Select? {
        events := Led(cfg, l, LimitReached, [], cancelled);
      } else if l.loop.Final? {
        events := Led(cfg, l, CallReturned, [], cancelled);
      } else {
        events := Led(cfg, LoopStep(cfg, l, CallReturned), LimitReached, [], cancelled);
        events := Led(cfg, l, CallReturned, events, cancelled);
      }
    }
  }

  lemma ReadsThenEnds(cfg: Config, l: Life, cancelled: bool) returns (events: seq<Event>)
    requires StillReads(cfg, l) && l.sig.slot.Some?
    ensures |events| <= 3 && LoopRun(cfg, l, events, cancelled) && AfterLoop(cfg, l, events).loop.Ended?
    ensures AfterLoop(cfg, l, events).calls == l.calls + [Max(0, Min(43200, l.sig.slot.value))]
  {
    assert l.calls + [] == l.calls;
    var at := if l.loop.Select? then l else LoopStep(cfg, l, CallReturned);
    var e := BackoffSignal(l.sig.slot.value);
    BackoffApplied(cfg, at, cancelled);
    var after := LoopStep(cfg, at, e);
    assert after.calls + [] == after.calls;
    events := Led(cfg, after, CallReturned, [], cancelled);
    events := Led(cfg, at, e, events, cancelled);
    if !l.loop.Select? {
      events := Led(cfg, l, CallReturned, events, cancelled);
    }
  }

  // ----- Work left for one message, for termination -----

  function LoopWeight(cfg: Config, loop: Loop): nat {
    match loop
    case NotStarted => 0
    case Select(c, _) => if c > cfg.limit then 1 else 2 * (cfg.limit + 1 - c) + 1
    case Extend(c, _) => if c > cfg.limit then 2 else 2 * (cfg.limit + 1 - c)
    case Final => 1
    case Ended => 0
  }

  function LoopMax(cfg: Config): nat { 2 * (cfg.limit + 1) + 1 }

  function StageWeight(cfg: Config, l: Life): nat {
    match l.stage
    case Queued => LoopMax(cfg) + 13
    case Check => LoopMax(cfg) + 12
    case Spawn => LoopMax(cfg) + 11
    case Handle => 8 + (if l.sig.dispatched then 0 else 1) + (if l.sig.backedOff then 0 else 1)
    case Settle => 7
    case Orchestrate => 6
    case Commit => 5
    case Fail => 2
    case Observe => 1
    case Record => 1
    case Done(_) => 0
  }

  function Weight(cfg: Config, l: Life): nat { StageWeight(cfg, l) + LoopWeight(cfg, l.loop) }

  /** Every step of `process` and every step of the loop leaves less to do; a commit, by at least four. */
  lemma AdvanceShrinks(cfg: Config, p: Plan, l: Life, poisoned: bool)
    requires LifeOk(cfg, p, l) && Active(l)
    ensures Weight(cfg, Advance(cfg, p, l, poisoned)) + (if l.stage.Commit? then 4 else 1) <= Weight(cfg, l)
  {}

  lemma LoopStepShrinks(cfg: Config, p: Plan, l: Life, e: Event, cancelled: bool)
    requires LifeOk(cfg, p, l) && Ready(cfg.Vis(), l.loop, e, l.sig, cancelled)
    ensures Weight(cfg, LoopStep(cfg, l, e)) < Weight(cfg, l)
  {}
}
