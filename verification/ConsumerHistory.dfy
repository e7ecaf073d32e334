/** What was dispatched against what was received, and what a cancellation can cut out. */
module ConsumerHistory {
  import opened Options
  import opened Lifecycle
  import opened Consumer
  import opened ConsumerOrder
  import opened Reference
  import GroupKey

  // ----- Subsequences -----

  /** d is b with some messages left out. */
  predicate Subseq(d: seq<Msg>, b: seq<Msg>)
    decreases |b|
  {
    || d == []
    || (b != [] &&
        var n, k := |b| - 1, |d| - 1;
        Subseq(d, b[..n]) || (d[k] == b[n] && Subseq(d[..k], b[..n])))
  }

  lemma SubseqSkip(d: seq<Msg>, b: seq<Msg>, m: Msg)
    requires Subseq(d, b)
    ensures Subseq(d, b + [m])
  {
    assert (b + [m])[..|b|] == b;
  }

  lemma SubseqTake(d: seq<Msg>, b: seq<Msg>, m: Msg)
    requires Subseq(d, b)
    ensures Subseq(d + [m], b + [m])
  {
    assert (b + [m])[..|b|] == b && (d + [m])[..|d|] == d;
  }

  lemma {:induction false} SubseqWhole(b: seq<Msg>)
    ensures Subseq(b, b)
  {
    if b != [] {
      SubseqWhole(b[..|b| - 1]);
    }
  }

  lemma {:induction false} SubseqLength(d: seq<Msg>, b: seq<Msg>)
    requires Subseq(d, b)
    ensures |d| <= |b| && (|d| == |b| ==> d == b)
    decreases |b|
  {
    if d != [] {
      var n, k := |b| - 1, |d| - 1;
      if Subseq(d, b[..n]) {
        SubseqLength(d, b[..n]);
      } else {
        SubseqLength(d[..k], b[..n]);
        assert d == d[..k] + [d[k]] && b == b[..n] + [b[n]];
      }
    }
  }

  /** Batch by batch, d is b with some messages left out. */
  predicate Within(d: seq<seq<Msg>>, b: seq<seq<Msg>>) {
    |d| == |b| && forall k :: 0 <= k < |d| ==> Subseq(d[k], b[k])
  }

  lemma SameIff(d: seq<seq<Msg>>, b: seq<seq<Msg>>, n: nat)
    requires |d| == |b| == n + 1
    ensures d == b <==> d[..n] == b[..n] && d[n] == b[n]
  {
    assert d == d[..n] + [d[n]] && b == b[..n] + [b[n]];
  }

  lemma {:induction false} WithinTotal(d: seq<seq<Msg>>, b: seq<seq<Msg>>)
    requires Within(d, b)
    ensures Total(d) <= Total(b) && (Total(d) == Total(b) <==> d == b)
  {
    if d != [] {
      var n := |d| - 1;
      SubseqLength(d[n], b[n]);
      WithinTotal(d[..n], b[..n]);
      SameIff(d, b, n);
    }
  }

  // ----- The invariant -----

  /** What is left of the batch being dispatched. */
  function Rest(poll: Poll): seq<Msg> { if poll.Dispatching? then poll.rest else [] }

  predicate Suffix(rest: seq<Msg>, b: seq<Msg>) { |rest| <= |b| && b[|b| - |rest|..] == rest }

  /** Of every batch but the last all has been dispatched; of the last, a subsequence of what comes before
      the rest. */
  ghost predicate Tracks(d: seq<seq<Msg>>, batches: seq<seq<Msg>>, rest: seq<Msg>) {
    && |d| == |batches|
    && (forall k :: 0 <= k < |d| - 1 ==> d[k] == batches[k])
    && if batches == [] then rest == []
       else
         var n := |batches| - 1;
         Suffix(rest, batches[n]) && Subseq(d[n], batches[n][..|batches[n]| - |rest|])
  }

  /** Only the last batch can miss messages; every message received is dispatched, dropped, or still to be
      considered; and after a drop, which takes a cancellation, nothing more is received. */
  ghost predicate History(s: State) {
    && BatchesFit(s.log, |s.batches|)
    && (s.poll.Dispatching? ==> s.batches != [])
    && Tracks(Dispatched(s.log, |s.batches|), s.batches, Rest(s.poll))
    && Total(s.batches) == |s.log| + s.dropped + |Rest(s.poll)|
    && (s.dropped > 0 ==> s.cancelled && !s.poll.Receiving? && !s.poll.RetryWait?)
  }

  lemma SuffixNext(rest: seq<Msg>, b: seq<Msg>)
    requires rest != [] && Suffix(rest, b)
    ensures Suffix(rest[1..], b)
    ensures b[..|b| - |rest[1..]|] == b[..|b| - |rest|] + [rest[0]]
  {
    var k := |b| - |rest|;
    assert b[k] == b[k..][0] && b[k + 1..] == b[k..][1..];
  }

  /** The next message of the last batch is dispatched. */
  lemma NextTaken(d: seq<seq<Msg>>, batches: seq<seq<Msg>>, rest: seq<Msg>)
    requires Tracks(d, batches, rest) && rest != []
    ensures var n := |batches| - 1; Tracks(d[n := d[n] + [rest[0]]], batches, rest[1..])
  {
    var n := |batches| - 1;
    var before := batches[n][..|batches[n]| - |rest|];
    SuffixNext(rest, batches[n]);
    SubseqTake(d[n], before, rest[0]);
  }

  /** It is left out. */
  lemma NextSkipped(d: seq<seq<Msg>>, batches: seq<seq<Msg>>, rest: seq<Msg>)
    requires Tracks(d, batches, rest) && rest != []
    ensures Tracks(d, batches, rest[1..])
  {
    var n := |batches| - 1;
    var before := batches[n][..|batches[n]| - |rest|];
    SuffixNext(rest, batches[n]);
    SubseqSkip(d[n], before, rest[0]);
  }

  /** The first message of the rest goes to the end of what was dispatched of the last batch. */
  ghost predicate OneMore(log: seq<Entry>, after: seq<Entry>, n: nat, m: Msg) {
    && n > 0 && BatchesFit(log, n) && BatchesFit(after, n)
    && var d := Dispatched(log, n);
       Dispatched(after, n) == d[n - 1 := d[n - 1] + [m]]
  }

  lemma DispatchedAppend(log: seq<Entry>, e: Entry, n: nat)
    requires BatchesFit(log, n) && e.batch == n - 1 && n > 0
    ensures OneMore(log, log + [e], n, e.msg)
  {
    assert (log + [e])[..|log|] == log;
  }

  /** Dispatching a message moves it from the rest of its batch to the end of what was dispatched of it. */
  lemma HistoryEnqueue(cfg: Config, s: State, w: nat)
    requires Shape(cfg, s) && History(s) && Enabled(cfg, s, Enqueue(w)) && !s.channels[w].closed
    ensures var t := Do(cfg, s, Enqueue(w));
            && History(t) && t.batches == s.batches && t.dropped == s.dropped
            && t.poll == Dispatching(s.poll.rest[1..]) && OneMore(s.log, t.log, |s.batches|, s.poll.rest[0])
  {
    EnqueueFrame(cfg, s, w);
    Moved(s, Do(cfg, s, Enqueue(w)), Entry(s.poll.rest[0], |s.batches| - 1, w));
  }

  lemma Moved(s: State, t: State, e: Entry)
    requires History(s) && s.poll.Dispatching? && s.poll.rest != []
    requires e.msg == s.poll.rest[0] && e.batch == |s.batches| - 1
    requires t.poll == Dispatching(s.poll.rest[1..]) && t.log == s.log + [e]
    requires t.batches == s.batches && t.dropped == s.dropped && t.cancelled == s.cancelled
    ensures History(t) && OneMore(s.log, t.log, |s.batches|, s.poll.rest[0])
  {
    DispatchedAppend(s.log, e, |s.batches|);
    NextTaken(Dispatched(s.log, |s.batches|), s.batches, s.poll.rest);
  }

  /** Giving a message up leaves it out of what was dispatched of its batch. */
  lemma HistoryDrop(cfg: Config, s: State)
    requires Shape(cfg, s) && History(s) && Enabled(cfg, s, Drop)
    ensures History(Do(cfg, s, Drop))
  {
    NextSkipped(Dispatched(s.log, |s.batches|), s.batches, s.poll.rest);
  }

  /** With nothing left to consider, what was dispatched is all that was received exactly when the numbers
      of messages agree. */
  lemma TrackedAll(d: seq<seq<Msg>>, batches: seq<seq<Msg>>)
    requires Tracks(d, batches, [])
    ensures Within(d, batches)
    ensures Total(d) == Total(batches) <==> d == batches
  {
    forall k | 0 <= k < |d| ensures Subseq(d[k], batches[k]) {
      if k < |d| - 1 {
        SubseqWhole(batches[k]);
      } else {
        assert batches[k][..|batches[k]|] == batches[k];
      }
    }
    WithinTotal(d, batches);
  }

  /** A new batch comes after batches that have all been dispatched. */
  lemma NewBatchTracked(batches: seq<seq<Msg>>, batch: seq<Msg>)
    ensures Tracks(batches + [[]], batches + [batch], batch)
    ensures Total(batches + [batch]) == Total(batches) + |batch|
  {
    assert (batches + [batch])[..|batches|] == batches;
    assert batch[..0] == [] && batch[0..] == batch;
  }

  lemma HistoryReceive(cfg: Config, s: State, batch: seq<Msg>)
    requires Shape(cfg, s) && History(s) && Enabled(cfg, s, Receive(batch))
    ensures History(Do(cfg, s, Receive(batch)))
  {
    AllDispatchedIff(s);
    ReceivedTracked(s.log, s.batches, batch);
  }

  lemma ReceivedTracked(log: seq<Entry>, batches: seq<seq<Msg>>, batch: seq<Msg>)
    requires BatchesFit(log, |batches|) && Dispatched(log, |batches|) == batches
    ensures BatchesFit(log, |batches| + 1)
    ensures Tracks(Dispatched(log, |batches| + 1), batches + [batch], batch)
    ensures Total(batches + [batch]) == Total(batches) + |batch|
  {
    OneMoreBatch(log, |batches|);
    NewBatchTracked(batches, batch);
  }

  predicate Considers(step: Step) { step.Enqueue? || step.Drop? || step.Receive? }

  /** The other steps leave what was received and dispatched alone, and do not go back to receiving once
      the run is cancelled. */
  lemma OthersTouch(cfg: Config, s: State, step: Step)
    requires Shape(cfg, s) && Enabled(cfg, s, step) && !Considers(step)
    ensures var t := Do(cfg, s, step);
            && t.log == s.log && t.batches == s.batches && t.dropped == s.dropped
            && (s.cancelled ==> t.cancelled) && Rest(t.poll) == Rest(s.poll)
            && (t.poll.Dispatching? ==> s.poll.Dispatching?)
            && (s.cancelled && t.poll.Receiving? ==> s.poll.Receiving?)
            && (t.poll.RetryWait? ==> s.poll.Receiving? || s.poll.RetryWait?)
  {
    if step.Work? {
      WorkFrame(cfg, s, step.w);
    } else if OfPoller(step) {
      PollTouches(cfg, s, step);
    }
  }

  lemma HistoryStep(cfg: Config, s: State, step: Step)
    requires Shape(cfg, s) && History(s) && Enabled(cfg, s, step)
    requires step.Enqueue? ==> !s.channels[step.w].closed
    ensures History(Do(cfg, s, step))
  {
    if !Considers(step) {
      OthersTouch(cfg, s, step);
    } else {
      match step
      case Enqueue(w) => HistoryEnqueue(cfg, s, w);
      case Drop => HistoryDrop(cfg, s);
      case Receive(batch) => HistoryReceive(cfg, s, batch);
    }
  }

  /** What was dispatched is all that was received exactly when nothing is left to consider and nothing
      was dropped. */
  lemma AllDispatchedIff(s: State)
    requires History(s) && Rest(s.poll) == []
    ensures Dispatched(s.log, |s.batches|) == s.batches <==> s.dropped == 0
  {
    TrackedAll(Dispatched(s.log, |s.batches|), s.batches);
    TotalIsLog(s.log, |s.batches|);
  }

  // ----- What a cancellation can do -----

  lemma LogGrows(cfg: Config, s: State, step: Step)
    requires Shape(cfg, s) && Enabled(cfg, s, step)
    ensures |s.log| <= |Do(cfg, s, step).log|
  {
    if !Considers(step) {
      OthersTouch(cfg, s, step);
    }
  }

  lemma {:induction false} RunLogGrows(cfg: Config, s: State, steps: seq<Step>)
    requires Legal(cfg, s, steps)
    ensures |s.log| <= |After(cfg, s, steps).log|
    decreases |steps|
  {
    if steps != [] {
      LogGrows(cfg, s, steps[0]);
      RunLogGrows(cfg, Do(cfg, s, steps[0]), steps[1..]);
    }
  }

  lemma Prepend(cfg: Config, s: State, step: Step, rest: seq<Step>)
    requires Shape(cfg, s) && Enabled(cfg, s, step) && Legal(cfg, Do(cfg, s, step), rest)
    ensures Legal(cfg, s, [step] + rest) && After(cfg, s, [step] + rest) == After(cfg, Do(cfg, s, step), rest)
  {
    assert ([step] + rest)[1..] == rest;
  }

  lemma {:induction false} SplitLast(cfg: Config, s: State, steps: seq<Step>, last: Step)
    requires Legal(cfg, s, steps + [last])
    ensures Legal(cfg, s, steps) && Shape(cfg, After(cfg, s, steps)) && Enabled(cfg, After(cfg, s, steps), last)
    ensures After(cfg, s, steps + [last]) == Do(cfg, After(cfg, s, steps), last)
    decreases |steps|
  {
    if steps == [] {
      assert steps + [last] == [last] && [last][1..] == [];
    } else {
      assert (steps + [last])[1..] == steps[1..] + [last];
      SplitLast(cfg, Do(cfg, s, steps[0]), steps[1..], last);
    }
  }

  /** The polling loop is in a receive request, or in the middle of a batch. */
  predicate Exposed(s: State) { s.poll.Receiving? || Rest(s.poll) != [] }

  /** Once cancelled and not exposed, the polling loop never is again. */
  lemma StaysUnexposed(cfg: Config, s: State, step: Step)
    requires Shape(cfg, s) && Enabled(cfg, s, step) && s.cancelled && !Exposed(s)
    ensures var t := Do(cfg, s, step); t.cancelled && !Exposed(t) && t.dropped == s.dropped && t.batches == s.batches
  {
    OthersTouch(cfg, s, step);
  }

  lemma {:induction false} RunStaysUnexposed(cfg: Config, s: State, steps: seq<Step>)
    requires Legal(cfg, s, steps) && s.cancelled && !Exposed(s)
    ensures var t := After(cfg, s, steps); t.dropped == s.dropped && t.batches == s.batches
    decreases |steps|
  {
    if steps != [] {
      StaysUnexposed(cfg, s, steps[0]);
      RunStaysUnexposed(cfg, Do(cfg, s, steps[0]), steps[1..]);
    }
  }

  /** A run in which an exposed polling loop drops a message. */
  lemma CanDrop(cfg: Config, s: State) returns (steps: seq<Step>)
    requires Shape(cfg, s) && s.cancelled && Exposed(s)
    ensures Legal(cfg, s, steps) && After(cfg, s, steps).dropped == s.dropped + 1
  {
    if s.poll.Receiving? {
      var batch := [Msg([], Plan(false, None, false, false, 0, 0))];
      DropOne(cfg, Do(cfg, s, Receive(batch)));
      Prepend(cfg, s, Receive(batch), [Drop]);
      steps := [Receive(batch)] + [Drop];
    } else {
      DropOne(cfg, s);
      steps := [Drop];
    }
  }

  lemma DropOne(cfg: Config, s: State)
    requires Shape(cfg, s) && s.cancelled && Rest(s.poll) != []
    ensures Legal(cfg, s, [Drop]) && After(cfg, s, [Drop]).dropped == s.dropped + 1
  {
    assert Shape(cfg, Do(cfg, s, Drop));
    Prepend(cfg, s, Drop, []);
    assert [Drop] + [] == [Drop];
  }

  /** Exactly when a message can be dropped from now on: at a cancellation, if and only if it finds the
      polling loop in a receive request or in the middle of a batch. */
  lemma DropPossibleIff(cfg: Config, s: State)
    requires Shape(cfg, s) && s.cancelled
    ensures (exists steps :: Legal(cfg, s, steps) && After(cfg, s, steps).dropped != s.dropped) <==> Exposed(s)
  {
    if Exposed(s) {
      var steps := CanDrop(cfg, s);
    } else {
      forall steps | Legal(cfg, s, steps) ensures After(cfg, s, steps).dropped == s.dropped {
        RunStaysUnexposed(cfg, s, steps);
      }
    }
  }

  /** A batch of two has been received and the run is cancelled before any of it is dispatched. */
  ghost predicate CutOff(cfg: Config, s: State, first: Msg, second: Msg) {
    && s == Init(cfg).(cancelled := true, poll := Dispatching([first, second]), batches := [[first, second]])
    && cfg.Valid() && cfg.maxMessages >= 2
  }

  /** The first message has been dropped and the second one enqueued. */
  ghost predicate Skipped(s: State, first: Msg, second: Msg) {
    && s.batches == [[first, second]] && s.dropped == 1
    && |s.log| == 1 && s.log[0].msg == second && s.log[0].batch == 0
  }

  lemma DropThenTake(cfg: Config, s: State, first: Msg, second: Msg) returns (steps: seq<Step>)
    requires CutOff(cfg, s, first, second)
    ensures Legal(cfg, s, steps) && Skipped(After(cfg, s, steps), first, second)
  {
    var w := if cfg.mode.PerGroupID? then GroupKey.Index(second.key, cfg.workers) else 0;
    var t := Do(cfg, s, Drop);
    assert t.poll.rest == [second];
    var u := Do(cfg, t, Enqueue(w));
    assert Shape(cfg, u);
    Prepend(cfg, t, Enqueue(w), []);
    Prepend(cfg, s, Drop, [Enqueue(w)]);
    steps := [Drop] + [Enqueue(w)];
  }

  /** After a cancellation a message can be dropped and a later one of its batch, and of its group if the
      two have one group, enqueued. */
  lemma DropThenEnqueue(cfg: Config, first: Msg, second: Msg) returns (steps: seq<Step>)
    requires cfg.Valid() && cfg.maxMessages >= 2
    ensures Legal(cfg, Init(cfg), steps) && Skipped(After(cfg, Init(cfg), steps), first, second)
  {
    var s0 := Init(cfg);
    var s1 := Do(cfg, s0, PollTop);
    var s2 := Do(cfg, s1, Receive([first, second]));
    var s3 := Do(cfg, s2, Cancel);
    steps := DropThenTake(cfg, s3, first, second);
    Prepend(cfg, s2, Cancel, steps);
    steps := [Cancel] + steps;
    Prepend(cfg, s1, Receive([first, second]), steps);
    steps := [Receive([first, second])] + steps;
    Prepend(cfg, s0, PollTop, steps);
    steps := [PollTop] + steps;
  }
}
