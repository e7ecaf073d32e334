/** The main results about the consumer, for every run. */
module ConsumerResults {
  import opened Options
  import opened Visibility
  import opened Lifecycle
  import opened Consumer
  import opened ConsumerShutdown
  import opened ConsumerGroups
  import opened ConsumerHistory
  import opened Reference
  import DB = DeleteBatcher

  ghost predicate Inv(cfg: Config, s: State) {
    Sound(cfg, s) && Gated(cfg, s) && Ledger(cfg, s) && History(s)
  }

  lemma InitInv(cfg: Config)
    requires cfg.Valid()
    ensures Inv(cfg, Init(cfg))
  {
    InitSound(cfg);
  }

  lemma StepInv(cfg: Config, s: State, step: Step)
    requires Inv(cfg, s) && Enabled(cfg, s, step)
    ensures Inv(cfg, Do(cfg, s, step))
  {
    if step.Enqueue? {
      NoSendOnClosed(cfg, s, step.w);
    }
    StepSound(cfg, s, step);
    StepGated(cfg, s, step);
    StepLedger(cfg, s, step);
    HistoryStep(cfg, s, step);
  }

  lemma {:induction false} RunInv(cfg: Config, s: State, steps: seq<Step>)
    requires Inv(cfg, s) && Legal(cfg, s, steps)
    ensures Inv(cfg, After(cfg, s, steps))
    decreases |steps|
  {
    if steps != [] {
      StepInv(cfg, s, steps[0]);
      RunInv(cfg, Do(cfg, s, steps[0]), steps[1..]);
    }
  }

  lemma Reachable(cfg: Config, steps: seq<Step>)
    requires cfg.Valid() && Legal(cfg, Init(cfg), steps)
    ensures Inv(cfg, After(cfg, Init(cfg), steps))
  {
    InitInv(cfg);
    RunInv(cfg, Init(cfg), steps);
  }

  // ----- Group order -----

  /** In every reachable state, cancelled or not, of a PerGroupID route: for two dispatched messages of
      one group key the later is not touched before the earlier is finished, so their handlers never
      overlap and start in the order of dispatch, and their deletes are issued in that order. */
  lemma GroupOrder(cfg: Config, steps: seq<Step>, i: nat, j: nat)
    requires cfg.Valid() && Legal(cfg, Init(cfg), steps) && cfg.mode.PerGroupID?
    requires var s := After(cfg, Init(cfg), steps); i < j < |s.log| && s.log[i].msg.key == s.log[j].msg.key
    ensures var s := After(cfg, Init(cfg), steps);
            && |s.lives| == |s.log|
            && (!s.lives[j].stage.Queued? ==> s.lives[i].stage.Done?)
            && (forall a, b :: 0 <= a < |s.issued| && 0 <= b < |s.issued| && s.issued[a] == i && s.issued[b] == j ==>
                  a < b)
  {
    Reachable(cfg, steps);
    InOrder(cfg, After(cfg, Init(cfg), steps), i, j);
  }

  lemma InOrder(cfg: Config, s: State, i: nat, j: nat)
    requires Ledger(cfg, s) && cfg.mode.PerGroupID? && i < j < |s.log| && s.log[i].msg.key == s.log[j].msg.key
    ensures !s.lives[j].stage.Queued? ==> s.lives[i].stage.Done?
    ensures forall a, b :: 0 <= a < |s.issued| && 0 <= b < |s.issued| && s.issued[a] == i && s.issued[b] == j ==> a < b
  {
    assert s.log[i].worker == s.log[j].worker;
  }

  /** Under the visibility model a failure holds back exactly the rest of its group in its batch: no
      handler starts after an earlier failure of the batch and group, only blocked messages are held,
      and what is committed of a batch and group is a prefix of what was dispatched of it. */
  lemma FailureHoldsBackGroup(cfg: Config, steps: seq<Step>, i: nat, j: nat)
    requires cfg.Valid() && Legal(cfg, Init(cfg), steps) && cfg.Ordered()
    requires var s := After(cfg, Init(cfg), steps); i < j < |s.log| && GroupOf(s.log[i]) == GroupOf(s.log[j])
    ensures var s := After(cfg, Init(cfg), steps);
            && |s.lives| == |s.log|
            && (Started(s.lives[j]) ==> !Failing(s.log[i].msg.plan))
            && (s.lives[j].stage == Done(Held) ==> Blocked(s.log, j))
            && (Issued(s.lives[j]) ==> Issued(s.lives[i]))
  {
    Reachable(cfg, steps);
    HeldBack(cfg, After(cfg, Init(cfg), steps), i, j);
  }

  lemma HeldBack(cfg: Config, s: State, i: nat, j: nat)
    requires Gated(cfg, s) && cfg.Ordered() && i < j < |s.log| && GroupOf(s.log[i]) == GroupOf(s.log[j])
    ensures Started(s.lives[j]) ==> !Failing(s.log[i].msg.plan)
    ensures s.lives[j].stage == Done(Held) ==> Blocked(s.log, j)
    ensures Issued(s.lives[j]) ==> Issued(s.lives[i])
  {
    SameGroupSameWorker(cfg, s, i, j);
    if Started(s.lives[j]) {
      assert !Blocked(s.log, j);
      assert !Blocked(s.log, i);
      assert LifeOk(cfg, s.log[i].msg.plan, s.lives[i]);
    }
  }

  /** In every reachable state a delete has been issued at most once for a message, and only for one the
      sequential walk over what was dispatched commits. */
  lemma OnlyDueDeletes(cfg: Config, steps: seq<Step>, i: nat)
    requires cfg.Valid() && Legal(cfg, Init(cfg), steps)
    ensures var s := After(cfg, Init(cfg), steps);
            && multiset(s.issued)[i] <= 1
            && (i in s.issued ==> i < |s.log| && CommitsAt(cfg, s.log, i))
  {
    Reachable(cfg, steps);
    DueDelete(cfg, After(cfg, Init(cfg), steps), i);
  }

  lemma DueDelete(cfg: Config, s: State, i: nat)
    requires Gated(cfg, s) && Ledger(cfg, s)
    ensures multiset(s.issued)[i] <= 1
    ensures i in s.issued ==> i < |s.log| && CommitsAt(cfg, s.log, i)
  {
    if i in s.issued {
      assert multiset(s.issued)[i] == 1;
      assert LifeOk(cfg, s.log[i].msg.plan, s.lives[i]);
    }
  }

  /** In every reachable state of a batched route each delete issued is queued, held by one sender, or in
      one request; at most workers * maxMessages are queued and at most ten held by a sender. */
  lemma HandlesConserved(cfg: Config, steps: seq<Step>)
    requires cfg.Valid() && Legal(cfg, Init(cfg), steps) && cfg.batched
    ensures var s := After(cfg, Init(cfg), steps);
            var b := s.batcher;
            && multiset(s.issued) == DB.Accounted(b.queue, b.senders, b.sent)
            && |b.queue| <= cfg.workers * cfg.maxMessages
            && |b.senders| == cfg.workers
            && forall k :: 0 <= k < |b.senders| ==> |DB.Batch(b.senders[k])| <= DB.MAX_DELETE_BATCH
  {
    InitSound(cfg);
    RunSound(cfg, Init(cfg), steps);
    var b := After(cfg, Init(cfg), steps).batcher;
    assert forall k :: 0 <= k < |b.senders| ==> DB.SenderOk(b, b.senders[k]);
  }

  // ----- Refinement of the sequential walk -----

  lemma FinalOutcome(cfg: Config, s: State, i: nat)
    requires Inv(cfg, s) && i < |s.log| && s.lives[i].stage.Done?
    ensures Issued(s.lives[i]) <==> CommitsAt(cfg, s.log, i)
    ensures Emitted(cfg, s.log[i].msg.plan, s.lives[i]) == MetricAt(cfg, s.log, i)
  {
    assert LifeOk(cfg, s.log[i].msg.plan, s.lives[i]);
  }

  lemma FlattenEmpty<H>(batches: seq<seq<H>>)
    requires DB.Flatten(batches) == [] && forall j :: 0 <= j < |batches| ==> |batches[j]| >= 1
    ensures batches == []
  {}

  /** Multisets are equal when all multiplicities are. */
  lemma SameCounts<T>(a: multiset<T>, b: multiset<T>)
    requires forall x :: x in a || x in b ==> a[x] == b[x]
    ensures a == b
  {
    forall x ensures a[x] == b[x] {
      if x !in a && x !in b {
        assert a[x] == 0 == b[x];
      }
    }
  }

  lemma SameDelete(cfg: Config, s: State, i: nat)
    requires Inv(cfg, s) && forall i :: 0 <= i < |s.lives| ==> s.lives[i].stage.Done?
    ensures multiset(s.issued)[i] == multiset(DB.Flatten<nat>(CommitsOf(cfg, s.log)))[i]
  {
    CommitsCount(cfg, s.log, i);
    if i < |s.log| { FinalOutcome(cfg, s, i); }
  }

  lemma SameMetric(cfg: Config, s: State, i: nat, m: Metric)
    requires Inv(cfg, s) && forall i :: 0 <= i < |s.lives| ==> s.lives[i].stage.Done?
    ensures multiset(s.emitted)[(i, m)] == multiset(DB.Flatten<(nat, Metric)>(MetricsOf(cfg, s.log)))[(i, m)]
  {
    MetricsCount(cfg, s.log, i, m);
    if i < |s.log| { FinalOutcome(cfg, s, i); }
  }

  lemma SameOutcomes(cfg: Config, s: State)
    requires Inv(cfg, s) && forall i :: 0 <= i < |s.lives| ==> s.lives[i].stage.Done?
    ensures multiset(s.issued) == multiset(DB.Flatten<nat>(CommitsOf(cfg, s.log)))
    ensures multiset(s.emitted) == multiset(DB.Flatten<(nat, Metric)>(MetricsOf(cfg, s.log)))
  {
    var commits := multiset(DB.Flatten<nat>(CommitsOf(cfg, s.log)));
    var metrics := multiset(DB.Flatten<(nat, Metric)>(MetricsOf(cfg, s.log)));
    forall i: nat | i in multiset(s.issued) || i in commits ensures multiset(s.issued)[i] == commits[i] {
      SameDelete(cfg, s, i);
    }
    SameCounts<nat>(multiset(s.issued), commits);
    forall p: (nat, Metric) | p in multiset(s.emitted) || p in metrics ensures multiset(s.emitted)[p] == metrics[p] {
      SameMetric(cfg, s, p.0, p.1);
    }
    SameCounts<(nat, Metric)>(multiset(s.emitted), metrics);
  }

  /** The batched deletes went out in requests of 1 to 10 entries, few of them after the workers were done. */
  ghost predicate InRequests(cfg: Config, b: DB.State<nat>) {
    DB.SentOnce(b) && DB.FewRequests(b) && |b.senders| == cfg.workers
  }

  /** The batches dispatched are those received with the dropped messages left out, all of them from the
      last batch, so they are those received exactly when none was dropped. */
  ghost predicate FromReceived(s: State, batches: seq<seq<Msg>>) {
    && Within(batches, s.batches)
    && (forall k :: 0 <= k < |batches| - 1 ==> batches[k] == s.batches[k])
    && Total(s.batches) == Total(batches) + s.dropped
    && (batches == s.batches <==> s.dropped == 0)
    && (s.dropped > 0 ==> s.cancelled)
  }

  /** The deletes and metrics of `s` are those of the one-pass walk over `batches`. */
  ghost predicate WalkOf(cfg: Config, s: State, batches: seq<seq<Msg>>) {
    var walk := Walk(cfg, batches);
    && multiset(s.issued) == multiset(walk.commits)
    && multiset(s.emitted) == multiset(walk.metrics)
    && (cfg.batched ==> multiset(DB.Flatten(s.batcher.sent)) == multiset(walk.commits) && InRequests(cfg, s.batcher))
    && (!cfg.batched ==> s.batcher.sent == [])
  }

  ghost predicate Refined(cfg: Config, s: State) {
    && BatchesFit(s.log, |s.batches|)
    && var batches := Dispatched(s.log, |s.batches|);
       WalkOf(cfg, s, batches) && FromReceived(s, batches)
  }

  /** Refinement: whatever the interleaving of poller, workers, visibility loops and senders, and whatever
      the cancellation cut off, a complete run issues exactly the deletes, and emits exactly the metrics,
      of the one-pass walk over the batches it dispatched, with or without batched deletes, for both
      retry models and both run modes. Those are the batches received with the dropped messages left
      out. */
  lemma RefinesSequentialWalk(cfg: Config, steps: seq<Step>)
    requires cfg.Valid() && Legal(cfg, Init(cfg), steps) && After(cfg, Init(cfg), steps).poll.Stopped?
    ensures Refined(cfg, After(cfg, Init(cfg), steps))
  {
    Reachable(cfg, steps);
    StoppedRefined(cfg, After(cfg, Init(cfg), steps));
  }

  lemma StoppedRefined(cfg: Config, s: State)
    requires Inv(cfg, s) && s.poll.Stopped?
    ensures Refined(cfg, s)
  {
    AllStoppedDone(cfg, s);
    WalkOfLog(cfg, s);
    AllSent(cfg, s);
    AllDispatchedIff(s);
    TrackedAll(Dispatched(s.log, |s.batches|), s.batches);
    TotalIsLog(s.log, |s.batches|);
  }

  lemma AllStoppedDone(cfg: Config, s: State)
    requires Sound(cfg, s) && s.poll.Stopped?
    ensures forall i :: 0 <= i < |s.lives| ==> s.lives[i].stage.Done?
  {
    AliveMeansWaiting(cfg, s);
    AllDone(cfg, s);
  }

  lemma WalkOfLog(cfg: Config, s: State)
    requires Inv(cfg, s) && forall i :: 0 <= i < |s.lives| ==> s.lives[i].stage.Done?
    ensures var walk := Walk(cfg, Dispatched(s.log, |s.batches|));
            multiset(s.issued) == multiset(walk.commits) && multiset(s.emitted) == multiset(walk.metrics)
  {
    assert s.log[..|s.log|] == s.log;
    assert CommitsOf(cfg, s.log)[..|s.log|] == CommitsOf(cfg, s.log);
    assert MetricsOf(cfg, s.log)[..|s.log|] == MetricsOf(cfg, s.log);
    WalkIsOutcomes(cfg, s.log, |s.log|, |s.batches|);
    SameOutcomes(cfg, s);
  }

  /** If everything that a complete run ever receives had been dispatched by some moment, the moment of the
      cancellation in particular, then nothing is dropped, and the walk is over the batches received. */
  lemma RefinesWalkOfReceived(cfg: Config, before: seq<Step>, after: seq<Step>)
    requires cfg.Valid() && Legal(cfg, Init(cfg), before)
    requires var s := After(cfg, Init(cfg), before);
             && Legal(cfg, s, after)
             && After(cfg, s, after).poll.Stopped? && |s.log| == Total(After(cfg, s, after).batches)
    ensures var t := After(cfg, After(cfg, Init(cfg), before), after);
            t.dropped == 0 && WalkOf(cfg, t, t.batches)
  {
    Reachable(cfg, before);
    var s := After(cfg, Init(cfg), before);
    RunInv(cfg, s, after);
    RunLogGrows(cfg, s, after);
    StoppedRefined(cfg, After(cfg, s, after));
  }

  /** If the cancellation finds the polling loop neither in a receive request nor in the middle of a batch,
      a complete run drops nothing, and the walk is over the batches received by then. */
  lemma RefinesWalkIfUnexposed(cfg: Config, before: seq<Step>, after: seq<Step>)
    requires cfg.Valid() && Legal(cfg, Init(cfg), before + [Cancel])
    requires var s := After(cfg, Init(cfg), before + [Cancel]);
             !Exposed(s) && Legal(cfg, s, after) && After(cfg, s, after).poll.Stopped?
    ensures var s := After(cfg, Init(cfg), before + [Cancel]);
            var t := After(cfg, s, after);
            t.dropped == 0 && t.batches == s.batches && WalkOf(cfg, t, s.batches)
  {
    var s := After(cfg, Init(cfg), before + [Cancel]);
    CancelledFirst(cfg, before);
    Reachable(cfg, before + [Cancel]);
    RunInv(cfg, s, after);
    RunStaysUnexposed(cfg, s, after);
    StoppedRefined(cfg, After(cfg, s, after));
  }

  /** At the moment of the cancellation nothing has been dropped. */
  lemma CancelledFirst(cfg: Config, before: seq<Step>)
    requires cfg.Valid() && Legal(cfg, Init(cfg), before + [Cancel])
    ensures var s := After(cfg, Init(cfg), before + [Cancel]); s.cancelled && s.dropped == 0
  {
    SplitLast(cfg, Init(cfg), before, Cancel);
    Reachable(cfg, before);
  }

  /** At the moment of the cancellation, exactly when some continuation drops a message: when the polling
      loop is in a receive request or in the middle of a batch. */
  lemma LosesIff(cfg: Config, before: seq<Step>)
    requires cfg.Valid() && Legal(cfg, Init(cfg), before + [Cancel])
    ensures var s := After(cfg, Init(cfg), before + [Cancel]);
            (exists after :: Legal(cfg, s, after) && After(cfg, s, after).dropped > 0) <==> Exposed(s)
  {
    CancelledFirst(cfg, before);
    Reachable(cfg, before + [Cancel]);
    var s := After(cfg, Init(cfg), before + [Cancel]);
    if Exposed(s) {
      var after := CanDrop(cfg, s);
    } else {
      forall after | Legal(cfg, s, after) ensures After(cfg, s, after).dropped == 0 {
        RunStaysUnexposed(cfg, s, after);
      }
    }
  }

  /** In every reachable state only the last batch can miss messages, every message received is dispatched,
      dropped or still to be considered, and once a cancellation has dropped one nothing more is received. */
  lemma NothingUnaccounted(cfg: Config, steps: seq<Step>)
    requires cfg.Valid() && Legal(cfg, Init(cfg), steps)
    ensures History(After(cfg, Init(cfg), steps))
  {
    Reachable(cfg, steps);
  }

  /** When the senders have exited, what was handed to the batcher has been sent. */
  lemma AllSent(cfg: Config, s: State)
    requires Sound(cfg, s) && s.poll.Stopped?
    ensures cfg.batched ==> multiset(DB.Flatten(s.batcher.sent)) == multiset(s.issued) && InRequests(cfg, s.batcher)
    ensures !cfg.batched ==> s.batcher.sent == []
  {
    var b := s.batcher;
    if cfg.batched {
      DB.FlushedState(b);
    } else {
      DB.HeldEmpty(b.senders);
      var sent := DB.Flatten(b.sent);
      assert multiset(sent) == multiset{} by {
        assert forall h :: multiset(sent)[h] <= DB.Accounted(b.queue, b.senders, b.sent)[h];
      }
      assert |sent| == |multiset(sent)|;
      FlattenEmpty(b.sent);
    }
  }

  // ----- The visibility loops -----

  /** In every reachable state, every message's loop has made its ticks in order, then at most one backoff
      call, in range and never under the scheduled model; the ticks are exact if the route's extensions fit
      in 32 bits. Once its processing has ended the loop has been told to stop, is in its last call, or has
      returned. */
  lemma LoopsInAnyRun(cfg: Config, steps: seq<Step>, i: nat) returns (ticks: nat)
    requires cfg.Valid() && Legal(cfg, Init(cfg), steps)
    requires i < |After(cfg, Init(cfg), steps).lives|
    ensures var l := After(cfg, Init(cfg), steps).lives[i];
            && ticks <= |l.calls| <= cfg.limit + 1 && ticks >= |l.calls| - 1
            && (cfg.model.ScheduledRetry? ==> ticks == |l.calls|)
            && l.calls[..ticks] == Ticks(cfg.Vis(), ticks)
            && (Fits(cfg.Vis()) ==> ExactTicks(cfg.Vis(), l.calls, ticks))
            && (ticks < |l.calls| ==> 0 <= l.calls[ticks] <= 43200)
            && (l.stage.Done? && (l.loop.Select? || l.loop.Extend?) ==> l.sig.dispatched || l.sig.slot.Some?)
  {
    Reachable(cfg, steps);
    var s := After(cfg, Init(cfg), steps);
    assert LifeOk(cfg, s.log[i].msg.plan, s.lives[i]);
    if s.lives[i].stage.Done? {
      HandshakeLeavesNoLeak(cfg, s.log[i].msg.plan, s.lives[i]);
    }
    ticks := CallSequence(cfg.Vis(), s.lives[i].loop, s.lives[i].calls);
  }
}
