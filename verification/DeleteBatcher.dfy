/** The delete batcher: S sender goroutines drain one bounded channel of receipt handles into
    DeleteMessageBatch requests of 1 to 10 entries, and flush it when the channel is closed.

    The goroutines are one step system. `Enabled` says when a goroutine can take a step and `Do` says
    what the step does; a run is a sequence of enabled steps, so every interleaving is covered. */
module DeleteBatcher {
  import opened Options

  /** The largest number of entries in one request. */
  const MAX_DELETE_BATCH := 10

  /** A sender is blocked on the channel, collecting a batch, waiting for its request, or has returned. */
  datatype Sender<H> = Waiting | Draining(batch: seq<H>) | Sending | Exited

  /** What was outstanding when the channel was closed. */
  datatype Mark = Mark(pending: nat, requests: nat)

  datatype State<H> = State(
    capacity: nat,
    queue: seq<H>,          // the buffered channel
    closed: bool,
    senders: seq<Sender<H>>,
    enqueued: seq<H>,       // history: every handle accepted, in order
    sent: seq<seq<H>>,      // history: the entries of every request issued, in order
    mark: Option<Mark>,     // history: taken by Close
    panicked: bool)         // a send on, or a close of, a closed channel

  datatype Step<H> =
    | Enqueue(handle: H)    // by a committing worker
    | Close                 // by the dispatcher
    | Take(k: nat)          // sender k receives the first handle of a batch
    | Drain(k: nat)         // ... one more handle, without waiting
    | Send(k: nat)          // ... and issues its request
    | Return(k: nat)        // the request ends, successfully or not
    | Exit(k: nat)          // sender k finds the channel closed and drained

  function Init<H>(capacity: nat, senders: nat): State<H> {
    State(capacity, [], false, seq(senders, i => Waiting), [], [], None, false)
  }

  /** A send on a closed channel does not block: it panics. */
  predicate Enabled<H>(s: State<H>, step: Step<H>) {
    match step
    case Enqueue(_) => s.closed || |s.queue| < s.capacity
    case Close => true
    case Take(k) => k < |s.senders| && s.senders[k].Waiting? && s.queue != []
    case Drain(k) =>
      k < |s.senders| && s.senders[k].Draining? && |s.senders[k].batch| < MAX_DELETE_BATCH && s.queue != []
    case Send(k) =>
      // The select takes its default case only when no handle is ready.
      k < |s.senders| && s.senders[k].Draining? && (|s.senders[k].batch| >= MAX_DELETE_BATCH || s.queue == [])
    case Return(k) => k < |s.senders| && s.senders[k].Sending?
    case Exit(k) => k < |s.senders| && s.senders[k].Waiting? && s.queue == [] && s.closed
  }

  function Do<H>(s: State<H>, step: Step<H>): State<H>
    requires Enabled(s, step)
  {
    match step
    case Enqueue(h) =>
      if s.closed then s.(panicked := true)
      else s.(queue := s.queue + [h], enqueued := s.enqueued + [h])
    case Close =>
      if s.closed then s.(panicked := true)
      else s.(closed := true, mark := Some(Mark(|s.queue| + HeldCount(s.senders), |s.sent|)))
    case Take(k) => s.(queue := s.queue[1..], senders := s.senders[k := Draining([s.queue[0]])])
    case Drain(k) =>
      s.(queue := s.queue[1..], senders := s.senders[k := Draining(s.senders[k].batch + [s.queue[0]])])
    case Send(k) => s.(senders := s.senders[k := Sending], sent := s.sent + [s.senders[k].batch])
    case Return(k) => s.(senders := s.senders[k := Waiting])
    case Exit(k) => s.(senders := s.senders[k := Exited])
  }

  ghost predicate Legal<H>(s: State<H>, steps: seq<Step<H>>)
    decreases |steps|
  {
    steps == [] || (Enabled(s, steps[0]) && Legal(Do(s, steps[0]), steps[1..]))
  }

  ghost function After<H>(s: State<H>, steps: seq<Step<H>>): State<H>
    requires Legal(s, steps)
    decreases |steps|
  {
    if steps == [] then s else After(Do(s, steps[0]), steps[1..])
  }

  // ----- What the senders hold -----

  predicate IsDraining<H>(x: Sender<H>) { x.Draining? }

  function Batch<H>(x: Sender<H>): seq<H> { if x.Draining? then x.batch else [] }

  function BatchSize<H>(x: Sender<H>): nat { |Batch(x)| }

  /** The number of handles being collected. */
  function HeldCount<H>(senders: seq<Sender<H>>): nat { Sum(senders, BatchSize<H>) }

  /** The handles being collected. */
  ghost function Held<H>(senders: seq<Sender<H>>): multiset<H> {
    if senders == [] then multiset{}
    else Held(senders[..|senders| - 1]) + multiset(Batch(senders[|senders| - 1]))
  }

  function Flatten<H>(batches: seq<seq<H>>): seq<H> {
    if batches == [] then [] else Flatten(batches[..|batches| - 1]) + batches[|batches| - 1]
  }

  predicate AllExited<H>(s: State<H>) { forall k :: 0 <= k < |s.senders| ==> s.senders[k].Exited? }

  /** Adding the same multiset to both sides. */
  lemma AddBoth<H>(a: multiset<H>, b: multiset<H>, c: multiset<H>, d: multiset<H>, e: multiset<H>)
    requires a + b == c + d
    ensures (a + e) + b == (c + e) + d
  {
    forall h ensures ((a + e) + b)[h] == ((c + e) + d)[h] {
      assert (a + b)[h] == (c + d)[h];
    }
  }

  lemma {:induction false} HeldUpdate<H>(senders: seq<Sender<H>>, k: nat, x: Sender<H>)
    requires k < |senders|
    ensures Held(senders[k := x]) + multiset(Batch(senders[k])) == Held(senders) + multiset(Batch(x))
  {
    var n := |senders| - 1;
    if k == n {
      assert senders[k := x][..n] == senders[..n];
    } else {
      HeldUpdate(senders[..n], k, x);
      assert senders[k := x][..n] == senders[..n][k := x];
      assert Held(senders[k := x]) == Held(senders[..n][k := x]) + multiset(Batch(senders[n]));
      AddBoth(Held(senders[..n][k := x]), multiset(Batch(senders[k])), Held(senders[..n]), multiset(Batch(x)),
              multiset(Batch(senders[n])));
    }
  }

  lemma {:induction false} HeldEmpty<H>(senders: seq<Sender<H>>)
    requires forall k :: 0 <= k < |senders| ==> !senders[k].Draining?
    ensures Held(senders) == multiset{} && HeldCount(senders) == 0
  {
    if senders != [] {
      HeldEmpty(senders[..|senders| - 1]);
    }
  }

  // ----- The invariant -----

  ghost predicate SenderOk<H>(s: State<H>, x: Sender<H>) {
    && (x.Draining? ==> 1 <= |x.batch| <= MAX_DELETE_BATCH)
    && (x.Exited? ==> s.closed && s.queue == [])
  }

  /** The handles still in the batcher or already sent. */
  ghost function Accounted<H>(queue: seq<H>, senders: seq<Sender<H>>, sent: seq<seq<H>>): multiset<H> {
    multiset(queue) + Held(senders) + multiset(Flatten(sent))
  }

  /** Every accepted handle is queued, held by exactly one sender, or in exactly one request. */
  ghost predicate Conserved<H>(s: State<H>) {
    multiset(s.enqueued) == Accounted(s.queue, s.senders, s.sent)
  }

  /** The requests issued since the close, against the K handles outstanding then. While handles are
      queued every request is full; once the queue is empty each collecting sender issues one more. */
  ghost predicate Counted<H>(s: State<H>) {
    s.mark.Some? ==>
      var outstanding := HeldCount(s.senders) + |s.queue|;
      var requests := |s.sent| - s.mark.value.requests;
      var pending := s.mark.value.pending;
      && 0 <= requests
      && requests + outstanding <= pending <= MAX_DELETE_BATCH * requests + outstanding
      && (s.queue != [] ==> pending == MAX_DELETE_BATCH * requests + outstanding)
      && (s.queue == [] && pending > 0 ==>
            MAX_DELETE_BATCH * (requests + Count(s.senders, IsDraining<H>) - |s.senders|) < pending)
  }

  ghost predicate Inv<H>(s: State<H>) {
    && !s.panicked
    && |s.queue| <= s.capacity
    && (forall k :: 0 <= k < |s.senders| ==> SenderOk(s, s.senders[k]))
    && (forall j :: 0 <= j < |s.sent| ==> 1 <= |s.sent[j]| <= MAX_DELETE_BATCH)
    && (s.mark.Some? <==> s.closed)
    && Conserved(s)
    && Counted(s)
  }

  lemma InitInv<H>(capacity: nat, senders: nat)
    ensures Inv(Init<H>(capacity, senders))
  {
    HeldEmpty(Init<H>(capacity, senders).senders);
  }

  /** The one obligation the owner has: nothing is enqueued, and the channel is not closed, after a close. */
  predicate Disciplined<H>(s: State<H>, step: Step<H>) {
    (step.Enqueue? || step.Close?) ==> !s.closed
  }

  lemma HeadTail<H>(q: seq<H>)
    requires q != []
    ensures multiset(q) == multiset{q[0]} + multiset(q[1..])
  {
    assert q == [q[0]] + q[1..];
  }

  /** Receiving moves the head of the queue into sender k's batch. */
  lemma ReceiveConserves<H>(s: State<H>, k: nat, x: Sender<H>)
    requires k < |s.senders| && s.queue != [] && x.Draining? && x.batch == Batch(s.senders[k]) + [s.queue[0]]
    ensures Accounted(s.queue[1..], s.senders[k := x], s.sent) == Accounted(s.queue, s.senders, s.sent)
  {
    var head := multiset{s.queue[0]};
    HeldUpdate(s.senders, k, x);
    HeadTail(s.queue);
    assert multiset(Batch(x)) == multiset(Batch(s.senders[k])) + head;
    MoveOne(multiset(s.queue[1..]), Held(s.senders[k := x]), Held(s.senders), multiset(Batch(s.senders[k])), head,
            multiset(Flatten(s.sent)));
  }

  lemma MoveOne<H>(rest: multiset<H>, after: multiset<H>, before: multiset<H>, batch: multiset<H>, head: multiset<H>,
                   sent: multiset<H>)
    requires after + batch == before + (batch + head)
    ensures rest + after + sent == (head + rest) + before + sent
  {
    Cancel(after, batch, before, head);
  }

  lemma Cancel<H>(a: multiset<H>, b: multiset<H>, c: multiset<H>, d: multiset<H>)
    requires a + b == c + (b + d)
    ensures a == c + d
  {
    forall h ensures a[h] == (c + d)[h] {
      assert (a + b)[h] == (c + (b + d))[h];
    }
  }

  /** Issuing a request moves sender k's batch to the sent ones. */
  lemma SendConserves<H>(s: State<H>, k: nat)
    requires k < |s.senders|
    ensures Accounted(s.queue, s.senders[k := Sending], s.sent + [Batch(s.senders[k])]) ==
            Accounted(s.queue, s.senders, s.sent)
  {
    var batch, held := Batch(s.senders[k]), Held(s.senders[k := Sending]);
    HeldUpdate(s.senders, k, Sending);
    assert (s.sent + [batch])[..|s.sent|] == s.sent;
    assert multiset(Flatten(s.sent + [batch])) == multiset(Flatten(s.sent)) + multiset(batch);
    assert held + multiset(batch) == Held(s.senders);
    assert held + (multiset(Flatten(s.sent)) + multiset(batch)) == Held(s.senders) + multiset(Flatten(s.sent));
    assert multiset(s.queue) + held + (multiset(Flatten(s.sent)) + multiset(batch)) ==
           multiset(s.queue) + (held + (multiset(Flatten(s.sent)) + multiset(batch)));
    assert multiset(s.queue) + (Held(s.senders) + multiset(Flatten(s.sent))) ==
           multiset(s.queue) + Held(s.senders) + multiset(Flatten(s.sent));
  }

  /** A sender that holds nothing before or after changes nothing. */
  lemma IdleConserves<H>(senders: seq<Sender<H>>, k: nat, x: Sender<H>)
    requires k < |senders| && Batch(senders[k]) == [] == Batch(x)
    ensures Held(senders[k := x]) == Held(senders)
  {
    HeldUpdate(senders, k, x);
    Cancel(Held(senders[k := x]), multiset{}, Held(senders), multiset{});
  }

  lemma EnqueueConserves<H>(s: State<H>, h: H)
    ensures Accounted(s.queue + [h], s.senders, s.sent) == Accounted(s.queue, s.senders, s.sent) + multiset{h}
  {}

  lemma ConservedStep<H>(s: State<H>, step: Step<H>)
    requires Conserved(s) && Enabled(s, step) && Disciplined(s, step)
    ensures Conserved(Do(s, step))
  {
    match step
    case Enqueue(h) => EnqueueConserves(s, h);
    case Close =>
    case Take(k) => ReceiveConserves(s, k, Draining([s.queue[0]]));
    case Drain(k) => ReceiveConserves(s, k, Draining(s.senders[k].batch + [s.queue[0]]));
    case Send(k) => SendConserves(s, k);
    case Return(k) => IdleConserves(s.senders, k, Waiting);
    case Exit(k) => IdleConserves(s.senders, k, Exited);
  }

  lemma CountedStep<H>(s: State<H>, step: Step<H>)
    requires Inv(s) && Enabled(s, step) && Disciplined(s, step)
    ensures Counted(Do(s, step))
  {
    var t := Do(s, step);
    CountZero(t.senders, IsDraining<H>);
    match step
    case Enqueue(h) =>
    case Close =>
    case Take(k) => Moved(s, k, t.senders[k]);
    case Drain(k) => Moved(s, k, t.senders[k]);
    case Send(k) => Moved(s, k, Sending);
    case Return(k) => Moved(s, k, Waiting);
    case Exit(k) => Moved(s, k, Exited);
  }

  /** The two counters after sender k changes. */
  lemma Moved<H>(s: State<H>, k: nat, x: Sender<H>)
    requires k < |s.senders|
    ensures HeldCount(s.senders[k := x]) == HeldCount(s.senders) - BatchSize(s.senders[k]) + BatchSize(x)
    ensures Count(s.senders[k := x], IsDraining<H>) ==
            Count(s.senders, IsDraining<H>) - (if s.senders[k].Draining? then 1 else 0) + (if x.Draining? then 1 else 0)
  {
    SumUpdate(s.senders, BatchSize<H>, k, x);
    CountUpdate(s.senders, IsDraining<H>, k, x);
  }

  lemma BoundsStep<H>(s: State<H>, step: Step<H>)
    requires Inv(s) && Enabled(s, step) && Disciplined(s, step)
    ensures var t := Do(s, step);
            && !t.panicked && |t.queue| <= t.capacity && (t.mark.Some? <==> t.closed)
            && (forall k :: 0 <= k < |t.senders| ==> SenderOk(t, t.senders[k]))
            && (forall j :: 0 <= j < |t.sent| ==> 1 <= |t.sent[j]| <= MAX_DELETE_BATCH)
  {}

  /** Every step keeps the invariant: in particular nothing is lost or duplicated, the channel never
      holds more than its capacity, and no sender more than ten handles. */
  lemma StepKeepsInv<H>(s: State<H>, step: Step<H>)
    requires Inv(s) && Enabled(s, step) && Disciplined(s, step)
    ensures Inv(Do(s, step))
  {
    BoundsStep(s, step);
    ConservedStep(s, step);
    CountedStep(s, step);
  }

  ghost predicate DisciplinedRun<H>(s: State<H>, steps: seq<Step<H>>)
    requires Legal(s, steps)
    decreases |steps|
  {
    steps == [] || (Disciplined(s, steps[0]) && DisciplinedRun(Do(s, steps[0]), steps[1..]))
  }

  lemma {:induction false} RunKeepsInv<H>(s: State<H>, steps: seq<Step<H>>)
    requires Inv(s) && Legal(s, steps) && DisciplinedRun(s, steps)
    ensures Inv(After(s, steps)) && |After(s, steps).senders| == |s.senders|
    decreases |steps|
  {
    if steps != [] {
      StepKeepsInv(s, steps[0]);
      RunKeepsInv(Do(s, steps[0]), steps[1..]);
    }
  }

  // ----- Main results -----

  /** Closed, and every sender has exited: close has returned. */
  predicate Flushed<H>(s: State<H>) { s.closed && |s.senders| > 0 && AllExited(s) }

  /** Every enqueued handle was sent exactly once, in requests of 1 to 10 entries. */
  ghost predicate SentOnce<H>(s: State<H>) {
    && multiset(Flatten(s.sent)) == multiset(s.enqueued)
    && forall j :: 0 <= j < |s.sent| ==> 1 <= |s.sent[j]| <= MAX_DELETE_BATCH
  }

  function CeilTenth(n: nat): nat { (n + 9) / 10 }

  /** With K handles outstanding at the close, S senders issued between ceil(K/10) and ceil(K/10) + S - 1
      further requests, and none when K is zero. */
  predicate FewRequests<H>(s: State<H>) {
    && s.mark.Some?
    && var pending, further := s.mark.value.pending, |s.sent| - s.mark.value.requests;
       && CeilTenth(pending) <= further
       && further <= (if pending == 0 then 0 else CeilTenth(pending) + |s.senders| - 1)
  }

  lemma FlushedState<H>(s: State<H>)
    requires Inv(s) && Flushed(s)
    ensures SentOnce(s) && FewRequests(s)
  {
    HeldEmpty(s.senders);
    assert s.senders[0].Exited?;
    CountZero(s.senders, IsDraining<H>);
  }

  /** When close returns nothing has been lost or sent twice, whatever the interleaving. */
  lemma FlushedExactlyOnce<H>(capacity: nat, senders: nat, steps: seq<Step<H>>)
    requires Legal(Init<H>(capacity, senders), steps) && DisciplinedRun(Init<H>(capacity, senders), steps)
    requires Flushed(After(Init<H>(capacity, senders), steps))
    ensures SentOnce(After(Init<H>(capacity, senders), steps))
  {
    InitInv<H>(capacity, senders);
    RunKeepsInv(Init<H>(capacity, senders), steps);
    FlushedState(After(Init<H>(capacity, senders), steps));
  }

  /** The flush takes few requests, whatever the interleaving. */
  lemma FlushRequestBound<H>(capacity: nat, senders: nat, steps: seq<Step<H>>)
    requires Legal(Init<H>(capacity, senders), steps) && DisciplinedRun(Init<H>(capacity, senders), steps)
    requires Flushed(After(Init<H>(capacity, senders), steps))
    ensures FewRequests(After(Init<H>(capacity, senders), steps))
    ensures |After(Init<H>(capacity, senders), steps).senders| == senders
  {
    InitInv<H>(capacity, senders);
    RunKeepsInv(Init<H>(capacity, senders), steps);
    FlushedState(After(Init<H>(capacity, senders), steps));
  }

  /** The channel is first in, first out: what is queued are the last handles enqueued, in order. */
  ghost predicate Fifo<H>(s: State<H>) { Tail(s.queue, s.enqueued) }

  ghost predicate Tail<H>(queue: seq<H>, enqueued: seq<H>) {
    |queue| <= |enqueued| && queue == enqueued[|enqueued| - |queue|..]
  }

  lemma Pushed<H>(queue: seq<H>, enqueued: seq<H>, h: H)
    requires Tail(queue, enqueued)
    ensures Tail(queue + [h], enqueued + [h])
  {
    assert (enqueued + [h])[|enqueued| - |queue|..] == queue + [h];
  }

  lemma Popped<H>(queue: seq<H>, enqueued: seq<H>)
    requires Tail(queue, enqueued) && queue != []
    ensures Tail(queue[1..], enqueued)
  {
    assert enqueued[|enqueued| - |queue| + 1..] == queue[1..];
  }

  lemma FifoStep<H>(s: State<H>, step: Step<H>)
    requires Fifo(s) && Enabled(s, step)
    ensures Fifo(Do(s, step))
  {
    match step
    case Enqueue(h) => Pushed(s.queue, s.enqueued, h);
    case Take(_) => Popped(s.queue, s.enqueued);
    case Drain(_) => Popped(s.queue, s.enqueued);
    case _ =>
  }

  lemma {:induction false} RunKeepsFifo<H>(s: State<H>, steps: seq<Step<H>>)
    requires Fifo(s) && Legal(s, steps)
    ensures Fifo(After(s, steps))
    decreases |steps|
  {
    if steps != [] {
      FifoStep(s, steps[0]);
      RunKeepsFifo(Do(s, steps[0]), steps[1..]);
    }
  }

  /** In every run the channel is first in, first out. */
  lemma InOrder<H>(capacity: nat, senders: nat, steps: seq<Step<H>>)
    requires Legal(Init<H>(capacity, senders), steps)
    ensures Fifo(After(Init<H>(capacity, senders), steps))
  {
    assert Fifo(Init<H>(capacity, senders));
    RunKeepsFifo(Init<H>(capacity, senders), steps);
  }

  /** So a sender that receives takes the oldest handle enqueued that no sender has taken. */
  lemma OldestFirst<H>(s: State<H>, k: nat)
    requires Fifo(s) && (Enabled(s, Take(k)) || Enabled(s, Drain(k)))
    ensures var n := |s.enqueued| - |s.queue|;
            var t := Do(s, if Enabled(s, Take(k)) then Take(k) else Drain(k));
            && n < |s.enqueued|
            && Batch(t.senders[k]) == Batch(s.senders[k]) + [s.enqueued[n]] && t.queue == s.enqueued[n + 1..]
  {
    var n := |s.enqueued| - |s.queue|;
    assert s.queue[0] == s.enqueued[n] && s.queue[1..] == s.enqueued[n + 1..];
    assert [] + [s.queue[0]] == [s.queue[0]];
  }

  /** No deadlock: unless every sender is idle with nothing to do, or has exited, some sender can move.
      With handles queued, or the channel closed, that includes the idle ones. */
  lemma SomeSenderCanMove<H>(s: State<H>) returns (step: Step<H>)
    requires Inv(s)
    requires exists k :: 0 <= k < |s.senders| && !s.senders[k].Exited? &&
                         (s.queue != [] || s.closed || !s.senders[k].Waiting?)
    ensures Enabled(s, step) && !step.Enqueue? && !step.Close?
  {
    var k: nat :| k < |s.senders| && !s.senders[k].Exited? && (s.queue != [] || s.closed || !s.senders[k].Waiting?);
    match s.senders[k]
    case Waiting => step := if s.queue != [] then Take(k) else Exit(k);
    case Draining(b) => step := if |b| < MAX_DELETE_BATCH && s.queue != [] then Drain(k) else Send(k);
    case Sending => step := Return(k);
  }

  // ----- Termination of the flush -----

  function SenderWeight<H>(x: Sender<H>): nat {
    match x case Waiting => 1 case Draining(_) => 3 case Sending => 2 case Exited => 0
  }

  /** Work left for the senders if nothing more is enqueued. */
  function Work<H>(s: State<H>): nat { 3 * |s.queue| + Sum(s.senders, SenderWeight<H>) }

  /** A sender step always leaves less to do, so the senders cannot run for ever once enqueuing stops;
      an enqueued handle adds exactly three. */
  lemma WorkDecreases<H>(s: State<H>, step: Step<H>)
    requires Enabled(s, step) && Disciplined(s, step)
    ensures !step.Enqueue? && !step.Close? ==> Work(Do(s, step)) < Work(s)
    ensures step.Enqueue? ==> Work(Do(s, step)) == Work(s) + 3
    ensures step.Close? ==> Work(Do(s, step)) == Work(s)
  {
    if !step.Enqueue? && !step.Close? {
      SumUpdate(s.senders, SenderWeight<H>, step.k, Do(s, step).senders[step.k]);
    }
  }
}
