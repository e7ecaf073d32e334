/** The mutable objects of the dispatcher, and its code run by one goroutine without interference: it
    goes through the stages of the step system, and over whole batches it is the sequential walk. */
module Processing {
  import opened Options
  import opened Visibility
  import opened Lifecycle
  import opened Reference
  import GroupKey

  /** The failed groups of one batch. A null barrier records and reports nothing. */
  class GroupBarrier {
    var poisoned: set<GroupKey.Bytes>

    constructor ()
      ensures poisoned == {}
    {
      poisoned := {};
    }

    static method Fail(b: GroupBarrier?, key: GroupKey.Bytes)
      modifies b
      ensures b != null ==> b.poisoned == old(b.poisoned) + {key}
    {
      if b == null {
        return;
      }
      b.poisoned := b.poisoned + {key};
    }

    static method Failed(b: GroupBarrier?, key: GroupKey.Bytes) returns (failed: bool)
      ensures failed <==> b != null && key in b.poisoned
    {
      if b == null {
        return false;
      }
      failed := key in b.poisoned;
    }
  }

  /** A received message with its signals. */
  class Message {
    const content: Msg
    const position: nat
    const barrier: GroupBarrier?
    var dispatched: bool
    var backedOff: bool
    var slot: Option<int>

    constructor (content: Msg, position: nat, barrier: GroupBarrier?)
      ensures this.content == content && this.position == position && this.barrier == barrier && Sig() == QUIET
    {
      this.content, this.position, this.barrier := content, position, barrier;
      dispatched, backedOff, slot := false, false, None;
    }

    ghost function Sig(): Signals
      reads this
    {
      Signals(dispatched, backedOff, slot)
    }

    /** Closing the channel twice would panic; the second call does nothing. */
    method Dispatch()
      modifies this
      ensures Sig() == old(Sig()).(dispatched := true)
    {
      if !dispatched {
        dispatched := true;
      }
    }

    /** Marks the message, then sends on the one-place channel. `sent` is false when the channel is full:
        the call then does not return until the visibility loop has read from it, if it ever does. */
    method Backoff(delay: int) returns (sent: bool)
      modifies this
      ensures sent <==> old(slot).None?
      ensures Sig() == old(Sig()).(backedOff := true, slot := if sent then Some(delay) else old(slot))
    {
      backedOff := true;
      if slot.Some? {
        return false;
      }
      slot := Some(delay);
      sent := true;
    }

    method BackedOff() returns (b: bool)
      ensures b == Sig().backedOff
    {
      b := backedOff;
    }
  }

  /** The stages from `l` to the end, with no one else touching the message. */
  function Complete(cfg: Config, p: Plan, l: Life, poisoned: bool): Life
    requires !l.stage.Queued?
    decreases StageWeight(cfg, l)
  {
    if l.stage.Done? then l else Complete(cfg, p, Advance(cfg, p, l, poisoned), poisoned)
  }

  /** Where `process` ends for a message just taken from its channel. */
  function Outcome(cfg: Config, p: Plan, poisoned: bool): Life {
    Complete(cfg, p, BORN.(stage := Check), poisoned)
  }

  /** What processing amounts to: the fate, and the signals it leaves. */
  function FinalSignals(cfg: Config, p: Plan, held: bool): Signals {
    if held then QUIET
    else Signals(p.dispatches || cfg.model.ScheduledRetry? || p.backoff.None?, p.backoff.Some?, p.backoff)
  }

  lemma AfterHandler(cfg: Config, p: Plan, l: Life, poisoned: bool)
    requires l.stage.Settle? && l.sig == Signals(p.dispatches, p.backoff.Some?, p.backoff)
    ensures Complete(cfg, p, l, poisoned).stage == Done(FateOf(cfg, p))
    ensures Complete(cfg, p, l, poisoned).sig == FinalSignals(cfg, p, false)
    ensures Complete(cfg, p, l, poisoned).loop == l.loop
  {
    var a := Advance(cfg, p, l, poisoned);
    var b := if a.stage.Done? then a else Advance(cfg, p, a, poisoned);
    var c := if b.stage.Done? then b else Advance(cfg, p, b, poisoned);
    assert Complete(cfg, p, b, poisoned) == Complete(cfg, p, c, poisoned);
    assert Complete(cfg, p, a, poisoned) == Complete(cfg, p, b, poisoned);
    var d := if c.stage.Done? then c else Advance(cfg, p, c, poisoned);
    assert d.stage.Done?;
    assert Complete(cfg, p, c, poisoned) == d;
  }

  lemma InHandler(cfg: Config, p: Plan, l: Life, poisoned: bool)
    requires l.stage.Handle? && l.sig == QUIET
    ensures Complete(cfg, p, l, poisoned).stage == Done(FateOf(cfg, p))
    ensures Complete(cfg, p, l, poisoned).sig == FinalSignals(cfg, p, false)
    ensures Complete(cfg, p, l, poisoned).loop == l.loop
  {
    var a := if p.dispatches then l.(sig := l.sig.(dispatched := true)) else l;
    var b := if p.backoff.Some? then a.(sig := a.sig.(backedOff := true, slot := p.backoff)) else a;
    var c := b.(stage := Settle);
    assert Advance(cfg, p, b, poisoned) == c;
    assert Complete(cfg, p, a, poisoned) == Complete(cfg, p, b, poisoned);
    assert Complete(cfg, p, l, poisoned) == Complete(cfg, p, a, poisoned);
    AfterHandler(cfg, p, c, poisoned);
  }

  /** The stages lead every message to the fate its plan determines. */
  lemma OutcomeIs(cfg: Config, p: Plan, poisoned: bool)
    ensures var held := cfg.Ordered() && poisoned;
            var l := Outcome(cfg, p, poisoned);
            && l.stage == Done(if held then Held else FateOf(cfg, p)) && l.sig == FinalSignals(cfg, p, held)
            && l.loop == (if held then NotStarted else Select(0, cfg.timeout))
  {
    var checked := Advance(cfg, p, BORN.(stage := Check), poisoned);
    assert Outcome(cfg, p, poisoned) == Complete(cfg, p, checked, poisoned);
    if !checked.stage.Done? {
      var spawned := Advance(cfg, p, checked, poisoned);
      InHandler(cfg, p, spawned, poisoned);
      assert Complete(cfg, p, checked, poisoned) == Complete(cfg, p, spawned, poisoned);
    }
  }

  class Dispatcher {
    const cfg: Config
    var deletes: seq<nat>
    var metrics: seq<(nat, Metric)>

    constructor (cfg: Config)
      ensures this.cfg == cfg && deletes == [] && metrics == []
    {
      this.cfg := cfg;
      deletes, metrics := [], [];
    }

    /** What the message's handler does. */
    method Handle(msg: Message) returns (err: bool)
      requires msg.Sig() == QUIET
      modifies msg
      ensures err == msg.content.plan.err
      ensures var p := msg.content.plan; msg.Sig() == Signals(p.dispatches, p.backoff.Some?, p.backoff)
    {
      var p := msg.content.plan;
      if p.dispatches {
        msg.Dispatch();
      }
      if p.backoff.Some? {
        var sent := msg.Backoff(p.backoff.value);
        assert sent;
      }
      err := p.err;
    }

    method DeleteMessage(msg: Message)
      modifies this`deletes
      ensures deletes == old(deletes) + [msg.position]
    {
      deletes := deletes + [msg.position];
    }

    method EmitMetric(msg: Message, m: Metric)
      modifies this`metrics
      ensures metrics == old(metrics) + [(msg.position, m)]
    {
      metrics := metrics + [(msg.position, m)];
    }

    method FailGroup(msg: Message)
      modifies msg.barrier
      ensures msg.barrier != null ==>
                msg.barrier.poisoned == old(msg.barrier.poisoned) + (if cfg.Ordered() then {msg.content.key} else {})
    {
      if cfg.Ordered() {
        GroupBarrier.Fail(msg.barrier, msg.content.key);
      }
    }

    method ObserveDLQ(msg: Message) returns (exhausted: bool)
      modifies this`metrics
      ensures exhausted <==> cfg.dlq.Some? && msg.content.plan.receiveCount >= cfg.dlq.value
      ensures metrics == old(metrics) + Line(msg.position, if exhausted then Some(Exhausted) else None)
    {
      if cfg.dlq.None? || msg.content.plan.receiveCount < cfg.dlq.value {
        return false;
      }
      EmitMetric(msg, Exhausted);
      exhausted := true;
    }

    method ProcessScheduled(msg: Message, err: bool)
      requires cfg.model.ScheduledRetry? && err == msg.content.plan.err
      requires msg.Sig().backedOff == msg.content.plan.backoff.Some?
      modifies this`deletes, this`metrics, msg
      ensures var p := msg.content.plan;
              && msg.Sig() == old(msg.Sig()).(dispatched := true)
              && deletes == old(deletes) + Mark(msg.position, FateOf(cfg, p) == Committed)
              && metrics == old(metrics) + Line(msg.position, MetricOf(cfg, p, FateOf(cfg, p)))
    {
      msg.Dispatch();
      var backedOff := msg.BackedOff();
      if err || backedOff {
        var next := msg.content.plan.retryCount + 1;
        if !msg.content.plan.orchestrated {
          return;
        }
        DeleteMessage(msg);
        if next <= cfg.maxRetryCount {
          EmitMetric(msg, Retry);
        } else {
          EmitMetric(msg, DeadLetter);
        }
        return;
      }
      DeleteMessage(msg);
      EmitMetric(msg, Success);
    }

    /** process, from the barrier check to the outcome. It leaves the message, the barrier and the outside
        world as the stages of the step system do; `watched` tells whether it started a visibility loop. */
    method Process(msg: Message) returns (watched: bool)
      requires msg.Sig() == QUIET && (msg.barrier != null <==> cfg.Ordered())
      modifies this`deletes, this`metrics, msg, msg.barrier
      ensures var p := msg.content.plan;
              var poisoned := msg.barrier != null &&
                              msg.content.key in old(if msg.barrier == null then {} else msg.barrier.poisoned);
              var outcome := Outcome(cfg, p, poisoned);
              && outcome.stage.Done?
              && msg.Sig() == outcome.sig
              && (watched <==> !outcome.loop.NotStarted?)
              && deletes == old(deletes) + Mark(msg.position, outcome.stage.fate == Committed)
              && metrics == old(metrics) + Line(msg.position, MetricOf(cfg, p, outcome.stage.fate))
              && (msg.barrier != null ==>
                    msg.barrier.poisoned ==
                    old(if msg.barrier == null then {} else msg.barrier.poisoned) +
                    (if outcome.stage.fate == Failed then {msg.content.key} else {}))
    {
      ghost var poisoned := msg.barrier != null && msg.content.key in msg.barrier.poisoned;
      OutcomeIs(cfg, msg.content.plan, poisoned);
      if cfg.Ordered() {
        var failed := GroupBarrier.Failed(msg.barrier, msg.content.key);
        if failed {
          return false;
        }
      }
      watched := true;
      var err := Handle(msg);
      if cfg.model.ScheduledRetry? {
        ProcessScheduled(msg, err);
        return;
      }
      var backedOff := msg.BackedOff();
      if backedOff {
        FailGroup(msg);
        return;
      }
      msg.Dispatch();
      if err {
        FailGroup(msg);
        var exhausted := ObserveDLQ(msg);
        return;
      }
      DeleteMessage(msg);
    }

    /** A new barrier when groups are ordered, none otherwise. */
    method NewBatchBarrier() returns (b: GroupBarrier?)
      ensures b != null <==> cfg.Ordered()
      ensures b != null ==> fresh(b) && b.poisoned == {}
    {
      if !cfg.Ordered() {
        return null;
      }
      b := new GroupBarrier();
    }

    /** One message of a batch, after the deletes d and metrics e of earlier batches and the tally t of
        this one. */
    method RunMessage(m: Msg, position: nat, barrier: GroupBarrier?,
            ghost t: Tally, ghost d: seq<nat>, ghost e: seq<(nat, Metric)>)
      requires barrier != null <==> cfg.Ordered()
      requires barrier != null ==> barrier.poisoned == t.failed
      requires deletes == d + t.commits && metrics == e + t.metrics
      modifies this`deletes, this`metrics, barrier
      ensures var next := WalkMessage(cfg, t, position, m);
              && deletes == d + next.commits && metrics == e + next.metrics
              && (barrier != null ==> barrier.poisoned == next.failed)
    {
      var msg := new Message(m, position, barrier);
      ghost var fate := if cfg.Ordered() && m.key in t.failed then Held else FateOf(cfg, m.plan);
      OutcomeIs(cfg, m.plan, barrier != null && m.key in t.failed);
      WalkIsOutcome(cfg, t, position, m);
      var watched := Process(msg);
      Append3(d, t.commits, Mark(position, fate == Committed));
      Append3(e, t.metrics, Line(position, MetricOf(cfg, m.plan, fate)));
    }

    /** One batch: every message shares the batch's barrier. Run by one goroutine it is WalkBatch. */
    method RunBatch(batch: seq<Msg>, base: nat)
      modifies this`deletes, this`metrics
      ensures deletes == old(deletes) + WalkBatch(cfg, batch, base).commits
      ensures metrics == old(metrics) + WalkBatch(cfg, batch, base).metrics
    {
      var barrier := NewBatchBarrier();
      ghost var t := Tally({}, [], []);
      for i := 0 to |batch|
        invariant barrier != null <==> cfg.Ordered()
        invariant barrier != null ==> fresh(barrier) && barrier.poisoned == t.failed
        invariant t == WalkBatch(cfg, batch[..i], base)
        invariant deletes == old(deletes) + t.commits && metrics == old(metrics) + t.metrics
      {
        assert batch[..i + 1] == batch[..i] + [batch[i]];
        WalkAppend(cfg, batch[..i], batch[i], base);
        RunMessage(batch[i], base + i, barrier, t, old(deletes), old(metrics));
        t := WalkMessage(cfg, t, base + i, batch[i]);
      }
      assert batch[..|batch|] == batch;
    }

    /** The polling loop over what its iterations meet, each batch processed as it comes: the sequential
        walk over the batches received before it returns. */
    method Run(iterations: seq<Iteration>)
      modifies this`deletes, this`metrics
      ensures deletes == old(deletes) + Walk(cfg, Polled(iterations)).commits
      ensures metrics == old(metrics) + Walk(cfg, Polled(iterations)).metrics
    {
      var position: nat, i: nat := 0, 0;
      ghost var done: seq<seq<Msg>> := [];
      while i < |iterations|
        invariant i <= |iterations|
        invariant Midway(cfg, iterations, i, done, position, old(deletes), old(metrics), deletes, metrics)
      {
        if iterations[i].AlreadyCancelled? || (iterations[i].Faulty? && iterations[i].cancelled) {
          break;
        }
        if iterations[i].Got? {
          GotOne(cfg, iterations, i, done, position, old(deletes), old(metrics), deletes, metrics);
          done := done + [iterations[i].batch];
          RunBatch(iterations[i].batch, position);
          position := position + |iterations[i].batch|;
        }
        assert iterations[i..][1..] == iterations[i + 1..];
        i := i + 1;
      }
      assert done + [] == done;
    }
  }

  /** The batches processed so far and those still to come are all of them; `position` counts messages. */
  ghost predicate Midway(cfg: Config, iterations: seq<Iteration>, i: nat, done: seq<seq<Msg>>, position: nat,
      d: seq<nat>, e: seq<(nat, Metric)>, deletes: seq<nat>, metrics: seq<(nat, Metric)>)
    requires i <= |iterations|
  {
    && position == Total(done)
    && done + Polled(iterations[i..]) == Polled(iterations)
    && deletes == d + Walk(cfg, done).commits
    && metrics == e + Walk(cfg, done).metrics
  }

  lemma WalkOneMore(cfg: Config, done: seq<seq<Msg>>, batch: seq<Msg>)
    ensures Total(done + [batch]) == Total(done) + |batch|
    ensures Walk(cfg, done + [batch]).commits == Walk(cfg, done).commits + WalkBatch(cfg, batch, Total(done)).commits
    ensures Walk(cfg, done + [batch]).metrics == Walk(cfg, done).metrics + WalkBatch(cfg, batch, Total(done)).metrics
  {
    assert (done + [batch])[..|done|] == done;
  }

  /** Processing one more batch. */
  lemma GotOne(cfg: Config, iterations: seq<Iteration>, i: nat, done: seq<seq<Msg>>, position: nat,
      d: seq<nat>, e: seq<(nat, Metric)>, deletes: seq<nat>, metrics: seq<(nat, Metric)>)
    requires i < |iterations| && iterations[i].Got?
    requires Midway(cfg, iterations, i, done, position, d, e, deletes, metrics)
    ensures var batch := iterations[i].batch;
            var w := WalkBatch(cfg, batch, position);
            Midway(cfg, iterations, i + 1, done + [batch], position + |batch|, d, e,
                   deletes + w.commits, metrics + w.metrics)
  {
    var batch := iterations[i].batch;
    assert iterations[i..][1..] == iterations[i + 1..];
    WalkOneMore(cfg, done, batch);
    assert done + [batch] + Polled(iterations[i + 1..]) == done + ([batch] + Polled(iterations[i + 1..]));
    var w := WalkBatch(cfg, batch, position);
    Append3(d, Walk(cfg, done).commits, w.commits);
    Append3(e, Walk(cfg, done).metrics, w.metrics);
  }

  /** What one iteration of the polling loop meets: a cancellation at its top, a failed receive, with a
      cancellation before its retry wait is over or without, or a batch. */
  datatype Iteration = AlreadyCancelled | Faulty(cancelled: bool) | Got(batch: seq<Msg>)

  /** The batches received before the loop returns. */
  function Polled(iterations: seq<Iteration>): seq<seq<Msg>> {
    if iterations == [] then []
    else
      match iterations[0]
      case AlreadyCancelled => []
      case Faulty(cancelled) => if cancelled then [] else Polled(iterations[1..])
      case Got(batch) => [batch] + Polled(iterations[1..])
  }

  predicate Stops(it: Iteration) { it.AlreadyCancelled? || (it.Faulty? && it.cancelled) }

  /** The batches of the iterations, one after the other. */
  function BatchesIn(iterations: seq<Iteration>): seq<seq<Msg>> {
    if iterations == [] then []
    else
      var n := |iterations| - 1;
      BatchesIn(iterations[..n]) + if iterations[n].Got? then [iterations[n].batch] else []
  }

  lemma {:induction false} BatchesInSplit(iterations: seq<Iteration>)
    requires iterations != []
    ensures BatchesIn(iterations) ==
            (if iterations[0].Got? then [iterations[0].batch] else []) + BatchesIn(iterations[1..])
  {
    var n := |iterations| - 1;
    if n > 0 {
      BatchesInSplit(iterations[..n]);
      assert iterations[..n][1..] == iterations[1..][..n - 1];
    } else {
      assert iterations[..0] == [] == iterations[1..];
    }
  }

  /** What is polled is every batch up to the first cancellation, and none after it. */
  lemma {:induction false} PolledIs(iterations: seq<Iteration>, k: nat)
    requires k <= |iterations| && (forall i :: 0 <= i < k ==> !Stops(iterations[i]))
    requires k < |iterations| ==> Stops(iterations[k])
    ensures Polled(iterations) == BatchesIn(iterations[..k])
    decreases k
  {
    if k > 0 {
      PolledIs(iterations[1..], k - 1);
      BatchesInSplit(iterations[..k]);
      assert iterations[..k][1..] == iterations[1..][..k - 1];
    }
  }

  lemma Append3<T>(a: seq<T>, b: seq<T>, c: seq<T>)
    ensures a + b + c == a + (b + c)
  {}

  /** The walk's treatment of one message is its outcome. */
  lemma WalkIsOutcome(cfg: Config, t: Tally, position: nat, m: Msg)
    ensures var held := cfg.Ordered() && m.key in t.failed;
            var fate := if held then Held else FateOf(cfg, m.plan);
            var next := WalkMessage(cfg, t, position, m);
            && next.commits == t.commits + Mark(position, fate == Committed)
            && next.metrics == t.metrics + Line(position, MetricOf(cfg, m.plan, fate))
            && (cfg.Ordered() ==> next.failed == t.failed + (if fate == Failed then {m.key} else {}))
  {}
}
