/** The consumer against the one-pass sequential walk over what it dispatched. */
module Reference {
  import opened Options
  import opened Lifecycle
  import opened Consumer
  import opened ConsumerGroups
  import GroupKey
  import DB = DeleteBatcher

  // ----- The walk -----

  /** The failed groups of the current batch, the messages committed and the metrics emitted so far. */
  datatype Tally = Tally(failed: set<GroupKey.Bytes>, commits: seq<nat>, metrics: seq<(nat, Metric)>)
  {
    function Commit(position: nat): Tally { this.(commits := commits + [position]) }
    function Emit(position: nat, m: Metric): Tally { this.(metrics := metrics + [(position, m)]) }
    function Fail(key: GroupKey.Bytes, ordered: bool): Tally {
      if ordered then this.(failed := failed + {key}) else this
    }
  }

  /** One message. Under the scheduled model only a failed schedule or publish keeps it; under the
      visibility model a failure keeps it and, in PerGroupID mode, the rest of its group with it. */
  function WalkMessage(cfg: Config, t: Tally, position: nat, m: Msg): Tally {
    var ordered := cfg.mode.PerGroupID?;
    if cfg.model.ScheduledRetry? then
      if !Failing(m.plan) then t.Commit(position).Emit(position, Success)
      else if !m.plan.orchestrated then t
      else if m.plan.retryCount + 1 <= cfg.maxRetryCount then t.Commit(position).Emit(position, Retry)
      else t.Commit(position).Emit(position, DeadLetter)
    else if ordered && m.key in t.failed then t
    else if !Failing(m.plan) then t.Commit(position)
    else if m.plan.backoff.None? && cfg.dlq.Some? && m.plan.receiveCount >= cfg.dlq.value then
      t.Fail(m.key, ordered).Emit(position, Exhausted)
    else t.Fail(m.key, ordered)
  }

  /** One batch, starting with no failed group. `base` is the position of its first message. */
  function WalkBatch(cfg: Config, batch: seq<Msg>, base: nat): Tally {
    if batch == [] then Tally({}, [], [])
    else
      var n := |batch| - 1;
      WalkMessage(cfg, WalkBatch(cfg, batch[..n], base), base + n, batch[n])
  }

  function Total(batches: seq<seq<Msg>>): nat {
    if batches == [] then 0 else Total(batches[..|batches| - 1]) + |batches[|batches| - 1]|
  }

  /** All batches, one after the other. */
  function Walk(cfg: Config, batches: seq<seq<Msg>>): Tally {
    if batches == [] then Tally({}, [], [])
    else
      var n := |batches| - 1;
      var before, last := Walk(cfg, batches[..n]), WalkBatch(cfg, batches[n], Total(batches[..n]));
      Tally({}, before.commits + last.commits, before.metrics + last.metrics)
  }

  // ----- What was dispatched, batch by batch -----

  function EmptyBatches(n: nat): seq<seq<Msg>> { seq(n, i => []) }

  ghost predicate BatchesFit(log: seq<Entry>, n: nat) {
    && (forall i :: 0 <= i < |log| ==> log[i].batch < n)
    && (forall i, j :: 0 <= i <= j < |log| ==> log[i].batch <= log[j].batch)
  }

  ghost function Dispatched(log: seq<Entry>, n: nat): (batches: seq<seq<Msg>>)
    requires BatchesFit(log, n)
    ensures |batches| == n
  {
    if log == [] then EmptyBatches(n)
    else
      var k := |log| - 1;
      var before := Dispatched(log[..k], n);
      before[log[k].batch := before[log[k].batch] + [log[k].msg]]
  }

  /** A batch in which nothing has been dispatched yet is empty. */
  lemma {:induction false} LaterBatchesEmpty(log: seq<Entry>, n: nat, b: nat)
    requires BatchesFit(log, n) && b < n && (forall i :: 0 <= i < |log| ==> log[i].batch < b)
    ensures Dispatched(log, n)[b] == []
  {
    if log != [] {
      LaterBatchesEmpty(log[..|log| - 1], n, b);
    }
  }

  /** Receiving one more batch adds an empty one. */
  lemma {:induction false} OneMoreBatch(log: seq<Entry>, n: nat)
    requires BatchesFit(log, n)
    ensures BatchesFit(log, n + 1) && Dispatched(log, n + 1) == Dispatched(log, n) + [[]]
  {
    if log != [] {
      OneMoreBatch(log[..|log| - 1], n);
    }
  }

  lemma {:induction false} TotalUpdate(batches: seq<seq<Msg>>, b: nat, m: Msg)
    requires b < |batches|
    ensures Total(batches[b := batches[b] + [m]]) == Total(batches) + 1
  {
    var n := |batches| - 1;
    var after := batches[b := batches[b] + [m]];
    if b == n {
      assert after[..n] == batches[..n];
    } else {
      assert after[..n] == batches[..n][b := batches[b] + [m]];
      TotalUpdate(batches[..n], b, m);
    }
  }

  lemma {:induction false} EmptyTotal(n: nat)
    ensures Total(EmptyBatches(n)) == 0
  {
    if n > 0 {
      assert EmptyBatches(n)[..n - 1] == EmptyBatches(n - 1);
      EmptyTotal(n - 1);
    }
  }

  lemma {:induction false} TotalIsLog(log: seq<Entry>, n: nat)
    requires BatchesFit(log, n)
    ensures Total(Dispatched(log, n)) == |log|
  {
    if log == [] {
      EmptyTotal(n);
    } else {
      var k := |log| - 1;
      TotalIsLog(log[..k], n);
      TotalUpdate(Dispatched(log[..k], n), log[k].batch, log[k].msg);
    }
  }

  /** With nothing after batch b, the walk ends with batch b. */
  lemma {:induction false} WalkTail(cfg: Config, batches: seq<seq<Msg>>, b: nat)
    requires b < |batches| && (forall c :: b < c < |batches| ==> batches[c] == [])
    ensures var w, before := Walk(cfg, batches), Walk(cfg, batches[..b]);
            var last := WalkBatch(cfg, batches[b], Total(batches[..b]));
            w.commits == before.commits + last.commits && w.metrics == before.metrics + last.metrics
    ensures Total(batches) == Total(batches[..b]) + |batches[b]|
  {
    var n := |batches| - 1;
    if b < n {
      assert batches[..n][..b] == batches[..b];
      WalkTail(cfg, batches[..n], b);
      assert Walk(cfg, batches[..n]).commits + [] == Walk(cfg, batches[..n]).commits;
      assert Walk(cfg, batches[..n]).metrics + [] == Walk(cfg, batches[..n]).metrics;
    }
  }

  /** A failing message adds its group to the failed set, if groups are ordered. */
  lemma MessageFails(cfg: Config, t: Tally, position: nat, m: Msg, key: GroupKey.Bytes)
    ensures key in WalkMessage(cfg, t, position, m).failed <==>
            key in t.failed || (cfg.Ordered() && key == m.key && Failing(m.plan))
  {}

  /** A failing message of batch b and group key has been dispatched. */
  ghost predicate SomeFails(log: seq<Entry>, b: nat, key: GroupKey.Bytes) {
    exists i :: 0 <= i < |log| && GroupOf(log[i]) == (b, key) && Failing(log[i].msg.plan)
  }

  lemma SomeFailsStep(log: seq<Entry>, b: nat, key: GroupKey.Bytes)
    requires log != []
    ensures var e := log[|log| - 1];
            SomeFails(log, b, key) <==>
            SomeFails(log[..|log| - 1], b, key) || (GroupOf(e) == (b, key) && Failing(e.msg.plan))
  {
    assert forall i :: 0 <= i < |log| - 1 ==> log[..|log| - 1][i] == log[i];
  }

  /** The failed set of the walk of batch b is the groups of the failing messages dispatched in it. */
  lemma {:induction false} FailedSet(cfg: Config, log: seq<Entry>, n: nat, b: nat, base: nat, key: GroupKey.Bytes)
    requires BatchesFit(log, n) && b < n
    ensures key in WalkBatch(cfg, Dispatched(log, n)[b], base).failed <==> cfg.Ordered() && SomeFails(log, b, key)
  {
    if log != [] {
      var k := |log| - 1;
      var before := Dispatched(log[..k], n)[b];
      FailedSet(cfg, log[..k], n, b, base, key);
      SomeFailsStep(log, b, key);
      if log[k].batch == b {
        WalkAppend(cfg, before, log[k].msg, base);
        MessageFails(cfg, WalkBatch(cfg, before, base), base + |before|, log[k].msg, key);
      }
    }
  }

  /** The metric message i emits, if any. */
  function Line(i: nat, m: Option<Metric>): seq<(nat, Metric)> { if m.Some? then [(i, m.value)] else [] }

  /** Message i, if it commits. */
  function Mark(i: nat, commits: bool): seq<nat> { if commits then [i] else [] }

  lemma WalkAppend(cfg: Config, batch: seq<Msg>, m: Msg, base: nat)
    ensures WalkBatch(cfg, batch + [m], base) == WalkMessage(cfg, WalkBatch(cfg, batch, base), base + |batch|, m)
  {}

  /** When the walk reaches the last dispatched message, its group is in the failed set exactly when an
      earlier message of the batch and group fails. */
  lemma FailedMeansBlocked(cfg: Config, log: seq<Entry>, n: nat, base: nat)
    requires BatchesFit(log, n) && log != []
    ensures var k := |log| - 1;
            log[k].msg.key in WalkBatch(cfg, Dispatched(log[..k], n)[log[k].batch], base).failed <==>
            cfg.Ordered() && Blocked(log, k)
  {
    var k := |log| - 1;
    FailedSet(cfg, log[..k], n, log[k].batch, base, log[k].msg.key);
    assert forall i :: 0 <= i < k ==> log[..k][i] == log[i];
    assert SomeFails(log[..k], log[k].batch, log[k].msg.key) <==> Blocked(log, k);
  }

  /** The last dispatched message is the last one the walk visits. */
  lemma WalkSplits(cfg: Config, log: seq<Entry>, n: nat) returns (pre: Tally, t: Tally)
    requires BatchesFit(log, n) && log != []
    ensures var k := |log| - 1;
            var before, after := Walk(cfg, Dispatched(log[..k], n)), Walk(cfg, Dispatched(log, n));
            var next := WalkMessage(cfg, t, k, log[k].msg);
            && (log[k].msg.key in t.failed <==> cfg.Ordered() && Blocked(log, k))
            && before.commits == pre.commits + t.commits && before.metrics == pre.metrics + t.metrics
            && after.commits == pre.commits + next.commits && after.metrics == pre.metrics + next.metrics
  {
    var k := |log| - 1;
    var b := log[k].batch;
    var was, now := Dispatched(log[..k], n), Dispatched(log, n);
    LaterEmpty(log, n);
    WalkTail(cfg, was, b);
    WalkTail(cfg, now, b);
    assert now[..b] == was[..b];
    var base := Total(was[..b]);
    TotalIsLog(log[..k], n);
    WalkAppend(cfg, was[b], log[k].msg, base);
    pre, t := Walk(cfg, was[..b]), WalkBatch(cfg, was[b], base);
    FailedMeansBlocked(cfg, log, n, base);
  }

  /** `after` is `before` with the outcome of message k: its commit, its metric, or neither. */
  ghost predicate Follows(before: Tally, after: Tally, k: nat, commits: bool, metric: Option<Metric>) {
    after.commits == before.commits + Mark(k, commits) && after.metrics == before.metrics + Line(k, metric)
  }

  lemma FollowsAfter(pre: Tally, t: Tally, next: Tally, before: Tally, after: Tally,
        k: nat, commits: bool, metric: Option<Metric>)
    requires Follows(t, next, k, commits, metric)
    requires before.commits == pre.commits + t.commits && before.metrics == pre.metrics + t.metrics
    requires after.commits == pre.commits + next.commits && after.metrics == pre.metrics + next.metrics
    ensures Follows(before, after, k, commits, metric)
  {}

  /** One more dispatched message adds its own outcome to the walk. */
  lemma WalkStep(cfg: Config, log: seq<Entry>, n: nat)
    requires BatchesFit(log, n) && log != []
    ensures var k := |log| - 1;
            Follows(Walk(cfg, Dispatched(log[..k], n)), Walk(cfg, Dispatched(log, n)), k,
                    CommitsAt(cfg, log, k), MetricAt(cfg, log, k))
  {
    var k := |log| - 1;
    var pre, t := WalkSplits(cfg, log, n);
    MessageStep(cfg, log, t);
    FollowsAfter(pre, t, WalkMessage(cfg, t, k, log[k].msg), Walk(cfg, Dispatched(log[..k], n)),
                 Walk(cfg, Dispatched(log, n)), k, CommitsAt(cfg, log, k), MetricAt(cfg, log, k));
  }

  lemma LaterEmpty(log: seq<Entry>, n: nat)
    requires BatchesFit(log, n) && log != []
    ensures var k := |log| - 1;
            forall c :: log[k].batch < c < n ==> Dispatched(log, n)[c] == [] == Dispatched(log[..k], n)[c]
  {
    var k := |log| - 1;
    forall c | log[k].batch < c < n ensures Dispatched(log, n)[c] == [] == Dispatched(log[..k], n)[c] {
      LaterBatchesEmpty(log, n, c);
      LaterBatchesEmpty(log[..k], n, c);
    }
  }

  lemma MessageStep(cfg: Config, log: seq<Entry>, t: Tally)
    requires log != []
    requires log[|log| - 1].msg.key in t.failed <==> cfg.Ordered() && Blocked(log, |log| - 1)
    ensures var k := |log| - 1;
            Follows(t, WalkMessage(cfg, t, k, log[k].msg), k, CommitsAt(cfg, log, k), MetricAt(cfg, log, k))
  {}

  /** What each dispatched message commits by its own outcome. */
  ghost function CommitsOf(cfg: Config, log: seq<Entry>): (commits: seq<seq<nat>>)
    ensures |commits| == |log| && forall i :: 0 <= i < |log| ==> commits[i] == Mark(i, CommitsAt(cfg, log, i))
  {
    seq(|log|, i requires 0 <= i < |log| => Mark(i, CommitsAt(cfg, log, i)))
  }

  /** What each emits. */
  ghost function MetricsOf(cfg: Config, log: seq<Entry>): (metrics: seq<seq<(nat, Metric)>>)
    ensures |metrics| == |log| && forall i :: 0 <= i < |log| ==> metrics[i] == Line(i, MetricAt(cfg, log, i))
  {
    seq(|log|, i requires 0 <= i < |log| => Line(i, MetricAt(cfg, log, i)))
  }

  lemma PrefixStable(log: seq<Entry>, n: nat, i: nat)
    requires i < n <= |log|
    ensures Blocked(log[..n], i) == Blocked(log, i)
  {}

  /** The prefix of length n ends with message n-1. */
  lemma WalkLast(cfg: Config, log: seq<Entry>, n: nat, batches: nat)
    requires 0 < n <= |log| && BatchesFit(log, batches)
    ensures Follows(Walk(cfg, Dispatched(log[..n - 1], batches)), Walk(cfg, Dispatched(log[..n], batches)), n - 1,
                    CommitsAt(cfg, log, n - 1), MetricAt(cfg, log, n - 1))
  {
    assert log[..n][..n - 1] == log[..n - 1];
    WalkStep(cfg, log[..n], batches);
    PrefixStable(log, n, n - 1);
  }

  lemma FlattenLast<T>(parts: seq<seq<T>>, n: nat)
    requires 0 < n <= |parts|
    ensures DB.Flatten(parts[..n]) == DB.Flatten(parts[..n - 1]) + parts[n - 1]
  {
    assert parts[..n][..n - 1] == parts[..n - 1];
  }

  /** The walk over what was dispatched is the messages' own outcomes, in order. */
  lemma {:induction false} WalkIsOutcomes(cfg: Config, log: seq<Entry>, n: nat, batches: nat)
    requires n <= |log| && BatchesFit(log, batches)
    ensures var w := Walk(cfg, Dispatched(log[..n], batches));
            && w.commits == DB.Flatten<nat>(CommitsOf(cfg, log)[..n])
            && w.metrics == DB.Flatten<(nat, Metric)>(MetricsOf(cfg, log)[..n])
  {
    if n == 0 {
      EmptyWalk(cfg, batches);
    } else {
      WalkIsOutcomes(cfg, log, n - 1, batches);
      WalkLast(cfg, log, n, batches);
      FlattenLast<nat>(CommitsOf(cfg, log), n);
      FlattenLast<(nat, Metric)>(MetricsOf(cfg, log), n);
    }
  }

  /** An element that only part i can hold, and at most once. */
  lemma {:induction false} FlattenCount<T>(parts: seq<seq<T>>, x: T, i: nat, hit: bool)
    requires forall k :: 0 <= k < |parts| ==> multiset(parts[k])[x] == if k == i && hit then 1 else 0
    ensures multiset(DB.Flatten(parts))[x] == if i < |parts| && hit then 1 else 0
  {
    if parts != [] {
      var n := |parts| - 1;
      FlattenCount(parts[..n], x, i, hit);
      assert multiset(DB.Flatten(parts)) == multiset(DB.Flatten(parts[..n])) + multiset(parts[n]);
    }
  }

  lemma CommitsCount(cfg: Config, log: seq<Entry>, i: nat)
    ensures multiset(DB.Flatten<nat>(CommitsOf(cfg, log)))[i] == if i < |log| && CommitsAt(cfg, log, i) then 1 else 0
  {
    var hit := i < |log| && CommitsAt(cfg, log, i);
    forall k | 0 <= k < |log| ensures multiset(CommitsOf(cfg, log)[k])[i] == if k == i && hit then 1 else 0 {
      assert CommitsOf(cfg, log)[k] == if CommitsAt(cfg, log, k) then [k] else [];
    }
    FlattenCount<nat>(CommitsOf(cfg, log), i, i, hit);
  }

  lemma MetricsCount(cfg: Config, log: seq<Entry>, i: nat, m: Metric)
    ensures multiset(DB.Flatten<(nat, Metric)>(MetricsOf(cfg, log)))[(i, m)] ==
            if i < |log| && MetricAt(cfg, log, i) == Some(m) then 1 else 0
  {
    var hit := i < |log| && MetricAt(cfg, log, i) == Some(m);
    forall k | 0 <= k < |log| ensures multiset(MetricsOf(cfg, log)[k])[(i, m)] == if k == i && hit then 1 else 0 {
      var o := MetricAt(cfg, log, k);
      assert MetricsOf(cfg, log)[k] == if o.Some? then [(k, o.value)] else [];
    }
    FlattenCount<(nat, Metric)>(MetricsOf(cfg, log), (i, m), i, hit);
  }

  lemma {:induction false} EmptyWalk(cfg: Config, n: nat)
    ensures Walk(cfg, EmptyBatches(n)) == Tally({}, [], [])
  {
    if n > 0 {
      assert EmptyBatches(n)[..n - 1] == EmptyBatches(n - 1);
      EmptyWalk(cfg, n - 1);
    }
  }
}
