/** What the barrier holds back, and what is committed and counted, in every reachable state. */
module ConsumerGroups {
  import opened Options
  import opened Visibility
  import opened Lifecycle
  import opened Consumer
  import opened ConsumerOrder
  import opened ConsumerShutdown
  import GroupKey

  type Group = (nat, GroupKey.Bytes)

  /** The batch and group key of a dispatched message. */
  function GroupOf(e: Entry): Group { (e.batch, e.msg.key) }

  /** An earlier dispatched message of the same batch and group fails. */
  ghost predicate Blocked(log: seq<Entry>, i: nat)
    requires i < |log|
  {
    exists j :: 0 <= j < i && GroupOf(log[j]) == GroupOf(log[i]) && Failing(log[j].msg.plan)
  }

  /** Whether the sequential walk over what was dispatched commits message i. */
  ghost predicate CommitsAt(cfg: Config, log: seq<Entry>, i: nat)
    requires i < |log|
  {
    !(cfg.Ordered() && Blocked(log, i)) && FateOf(cfg, log[i].msg.plan) == Committed
  }

  ghost function MetricAt(cfg: Config, log: seq<Entry>, i: nat): Option<Metric>
    requires i < |log|
  {
    if cfg.Ordered() && Blocked(log, i) then None
    else MetricOf(cfg, log[i].msg.plan, FateOf(cfg, log[i].msg.plan))
  }

  ghost predicate PoisonedBy(s: State, g: Group)
    requires |s.lives| == |s.log|
  {
    exists i :: 0 <= i < |s.log| && GroupOf(s.log[i]) == g && Poisons(s.log[i].msg.plan, s.lives[i])
  }

  /** The barrier holds the groups of the messages that have failed. */
  ghost predicate Barrier(cfg: Config, s: State)
    requires Shape(cfg, s)
  {
    forall g: Group :: g in s.poisoned <==> cfg.Ordered() && PoisonedBy(s, g)
  }

  /** A message is held only if it is blocked, and gets past the barrier only if it is not. */
  ghost predicate HeldOk(cfg: Config, s: State)
    requires Shape(cfg, s)
  {
    cfg.Ordered() ==>
      forall i :: 0 <= i < |s.log| ==>
        && (s.lives[i].stage == Done(Held) ==> Blocked(s.log, i))
        && (s.lives[i].stage.Spawn? || Started(s.lives[i]) ==> !Blocked(s.log, i))
  }

  ghost predicate Gated(cfg: Config, s: State) {
    Placed(cfg, s) && Barrier(cfg, s) && HeldOk(cfg, s)
  }

  lemma BlockedStable(log: seq<Entry>, e: Entry, i: nat)
    requires i < |log|
    ensures Blocked(log + [e], i) == Blocked(log, i)
  {
    if Blocked(log, i) {
      var j :| 0 <= j < i && GroupOf(log[j]) == GroupOf(log[i]) && Failing(log[j].msg.plan);
      assert (log + [e])[j] == log[j];
    }
  }

  /** Some failing message of the group is itself not blocked: the first. */
  lemma {:induction false} FirstFailure(log: seq<Entry>, i: nat) returns (j: nat)
    requires i < |log| && Blocked(log, i)
    ensures j < i && GroupOf(log[j]) == GroupOf(log[i]) && Failing(log[j].msg.plan) && !Blocked(log, j)
  {
    j :| j < i && GroupOf(log[j]) == GroupOf(log[i]) && Failing(log[j].msg.plan);
    if Blocked(log, j) {
      j := FirstFailure(log, j);
    }
  }

  lemma SameGroupSameWorker(cfg: Config, s: State, i: nat, j: nat)
    requires Shape(cfg, s) && cfg.Ordered() && i < |s.log| && j < |s.log| && GroupOf(s.log[i]) == GroupOf(s.log[j])
    ensures s.log[i].worker == s.log[j].worker
  {}

  /** When a worker asks the barrier about its message, the answer is exactly whether an earlier message
      of the batch and group fails: all of those are finished, and none of the later ones has begun. */
  lemma BarrierAnswers(cfg: Config, s: State, w: nat)
    requires Gated(cfg, s) && cfg.Ordered() && w < cfg.workers && s.workers[w].Busy?
    requires s.lives[s.workers[w].id].stage.Check?
    ensures Poisoned(s, s.workers[w].id) <==> Blocked(s.log, s.workers[w].id)
  {
    var id := s.workers[w].id;
    var g := GroupOf(s.log[id]);
    if g in s.poisoned {
      var j: nat :| j < |s.log| && GroupOf(s.log[j]) == g && Poisons(s.log[j].msg.plan, s.lives[j]);
      SameGroupSameWorker(cfg, s, id, j);
      assert j != id && !(id < j);
    }
    if Blocked(s.log, id) {
      var j := FirstFailure(s.log, id);
      SameGroupSameWorker(cfg, s, id, j);
      assert s.lives[j].stage.Done? && LifeOk(cfg, s.log[j].msg.plan, s.lives[j]);
      assert Poisons(s.log[j].msg.plan, s.lives[j]);
    }
  }

  /** A step that changes one message without marking its group failed. */
  lemma QuietGated(cfg: Config, s: State, t: State, id: nat)
    requires Gated(cfg, s) && Placed(cfg, t) && OnlyChanges(s, t, id) && t.poisoned == s.poisoned
    requires Poisons(s.log[id].msg.plan, t.lives[id]) == Poisons(s.log[id].msg.plan, s.lives[id])
    requires cfg.Ordered() && t.lives[id].stage == Done(Held) ==> Blocked(s.log, id)
    requires cfg.Ordered() && (t.lives[id].stage.Spawn? || Started(t.lives[id])) ==> !Blocked(s.log, id)
    ensures Gated(cfg, t)
  {}

  /** A message that marks its group failed adds that group and no other. */
  lemma FailPoisons(s: State, t: State, id: nat, g: Group)
    requires |s.lives| == |s.log| && OnlyChanges(s, t, id) && Poisons(s.log[id].msg.plan, t.lives[id])
    ensures PoisonedBy(t, g) <==> PoisonedBy(s, g) || g == GroupOf(s.log[id])
  {
    if PoisonedBy(s, g) {
      var i :| 0 <= i < |s.log| && GroupOf(s.log[i]) == g && Poisons(s.log[i].msg.plan, s.lives[i]);
      assert GroupOf(t.log[i]) == g && Poisons(t.log[i].msg.plan, t.lives[i]);
    }
    assert GroupOf(t.log[id]) == GroupOf(s.log[id]) && Poisons(t.log[id].msg.plan, t.lives[id]);
  }

  /** Marking a group failed. */
  lemma FailGated(cfg: Config, s: State, t: State, id: nat)
    requires Gated(cfg, s) && Placed(cfg, t) && OnlyChanges(s, t, id) && s.lives[id].stage.Fail?
    requires t.poisoned == (if cfg.Ordered() then s.poisoned + {GroupOf(s.log[id])} else s.poisoned)
    requires Poisons(s.log[id].msg.plan, t.lives[id]) && Started(t.lives[id])
    ensures Gated(cfg, t)
  {
    forall g: Group ensures PoisonedBy(t, g) <==> PoisonedBy(s, g) || g == GroupOf(s.log[id]) {
      FailPoisons(s, t, id, g);
    }
  }

  lemma WorkBarrier(cfg: Config, s: State, w: nat)
    requires Shape(cfg, s) && Enabled(cfg, s, Work(w))
    ensures var t, id := Do(cfg, s, Work(w)), s.workers[w].id;
            t.poisoned ==
            if s.lives[id].stage.Fail? && cfg.Ordered() then s.poisoned + {GroupOf(s.log[id])} else s.poisoned
  {}

  /** How one step of `process` changes what the message has marked and where it stands. */
  lemma AdvanceGate(cfg: Config, p: Plan, l: Life, poisoned: bool)
    requires LifeOk(cfg, p, l) && Active(l)
    ensures var after := Advance(cfg, p, l, poisoned);
            && (Poisons(p, after) <==> Poisons(p, l) || l.stage.Fail?)
            && (after.stage == Done(Held) <==> l.stage.Check? && cfg.Ordered() && poisoned)
            && (after.stage.Spawn? || Started(after) <==> !(l.stage.Check? && cfg.Ordered() && poisoned))
            && (l.stage.Fail? ==> Started(after))
  {}

  lemma WorkGated(cfg: Config, s: State, w: nat)
    requires Gated(cfg, s) && Enabled(cfg, s, Work(w))
    ensures Gated(cfg, Do(cfg, s, Work(w)))
  {
    var id := s.workers[w].id;
    var t := Do(cfg, s, Work(w));
    WorkPlaced(cfg, s, w);
    WorkFrame(cfg, s, w);
    WorkBarrier(cfg, s, w);
    assert OnlyChanges(s, t, id);
    assert LifeOk(cfg, s.log[id].msg.plan, s.lives[id]);
    AdvanceGate(cfg, s.log[id].msg.plan, s.lives[id], Poisoned(s, id));
    if s.lives[id].stage.Fail? {
      FailGated(cfg, s, t, id);
    } else {
      if s.lives[id].stage.Check? && cfg.Ordered() {
        BarrierAnswers(cfg, s, w);
      }
      QuietGated(cfg, s, t, id);
    }
  }

  lemma TakeGated(cfg: Config, s: State, w: nat)
    requires Gated(cfg, s) && Enabled(cfg, s, Take(w))
    ensures Gated(cfg, Do(cfg, s, Take(w)))
  {
    TakenInTurn(cfg, s, w);
    TakePlaced(cfg, s, w);
    QuietGated(cfg, s, Do(cfg, s, Take(w)), s.channels[w].queue[0]);
  }

  lemma LoopGated(cfg: Config, s: State, id: nat, e: Event)
    requires Gated(cfg, s) && Enabled(cfg, s, Loop(id, e))
    ensures Gated(cfg, Do(cfg, s, Loop(id, e)))
  {
    LoopPlaced(cfg, s, id, e);
    LoopFrame(cfg, s, id, e);
    assert LifeOk(cfg, s.log[id].msg.plan, s.lives[id]);
    QuietGated(cfg, s, Do(cfg, s, Loop(id, e)), id);
  }

  lemma EnqueueGated(cfg: Config, s: State, w: nat)
    requires Gated(cfg, s) && Enabled(cfg, s, Enqueue(w)) && !s.channels[w].closed
    ensures Gated(cfg, Do(cfg, s, Enqueue(w)))
  {
    EnqueuePlaced(cfg, s, w);
    var t := Do(cfg, s, Enqueue(w));
    var e := t.log[|s.log|];
    assert t.log == s.log + [e] && t.lives == s.lives + [BORN];
    forall g: Group ensures PoisonedBy(t, g) == PoisonedBy(s, g) {
      if PoisonedBy(s, g) {
        var i :| 0 <= i < |s.log| && GroupOf(s.log[i]) == g && Poisons(s.log[i].msg.plan, s.lives[i]);
        assert GroupOf(t.log[i]) == g && Poisons(t.log[i].msg.plan, t.lives[i]);
      }
    }
    forall i: nat | i < |s.log| ensures Blocked(t.log, i) == Blocked(s.log, i) {
      BlockedStable(s.log, e, i);
    }
  }

  lemma StepGated(cfg: Config, s: State, step: Step)
    requires Gated(cfg, s) && Enabled(cfg, s, step)
    requires step.Enqueue? ==> !s.channels[step.w].closed
    ensures Gated(cfg, Do(cfg, s, step))
  {
    if MovesMessage(step) {
      match step
      case Take(w) => TakeGated(cfg, s, w);
      case Enqueue(w) => EnqueueGated(cfg, s, w);
      case Work(w) => WorkGated(cfg, s, w);
      case Loop(id, e) => LoopGated(cfg, s, id, e);
    } else {
      StepPlaced(cfg, s, step);
      OtherFrame(cfg, s, step);
    }
  }

  // ----- The ledger -----

  /** A delete is issued once for each message that is past its commit, and for no other. */
  ghost predicate IssuedOnce(s: State) {
    forall i: nat :: multiset(s.issued)[i] == if i < |s.lives| && Issued(s.lives[i]) then 1 else 0
  }

  /** Each message's metric is emitted once, when it reaches its fate. */
  ghost predicate EmittedOnce(cfg: Config, s: State)
    requires |s.lives| == |s.log|
  {
    forall i: nat, m: Metric ::
      multiset(s.emitted)[(i, m)] ==
      if i < |s.lives| && Emitted(cfg, s.log[i].msg.plan, s.lives[i]) == Some(m) then 1 else 0
  }

  /** The deletes of one worker's messages are issued in the order of dispatch. */
  ghost predicate IssuedInOrder(s: State) {
    && (forall a :: 0 <= a < |s.issued| ==> s.issued[a] < |s.log|)
    && (forall a, b :: 0 <= a < b < |s.issued| && s.log[s.issued[a]].worker == s.log[s.issued[b]].worker ==>
          s.issued[a] < s.issued[b])
  }

  ghost predicate Ledger(cfg: Config, s: State) {
    Placed(cfg, s) && IssuedOnce(s) && EmittedOnce(cfg, s) && IssuedInOrder(s)
  }

  lemma WorkEmits(cfg: Config, s: State, w: nat)
    requires Shape(cfg, s) && Enabled(cfg, s, Work(w))
    requires LifeOk(cfg, s.log[s.workers[w].id].msg.plan, s.lives[s.workers[w].id])
    ensures var t, id := Do(cfg, s, Work(w)), s.workers[w].id;
            match Emitted(cfg, s.log[id].msg.plan, t.lives[id])
            case Some(m) => t.emitted == s.emitted + [(id, m)]
            case None => t.emitted == s.emitted
  {}

  lemma AdvanceIssues(cfg: Config, p: Plan, l: Life, poisoned: bool)
    requires Active(l)
    ensures Issued(Advance(cfg, p, l, poisoned)) <==> Issued(l) || l.stage.Commit?
  {}

  lemma IssueOnce(s: State, t: State, id: nat)
    requires IssuedOnce(s) && OnlyChanges(s, t, id) && !Issued(s.lives[id])
    requires t.issued == (if Issued(t.lives[id]) then s.issued + [id] else s.issued)
    ensures IssuedOnce(t)
  {}

  lemma IssueInOrder(s: State, t: State, id: nat)
    requires IssuedInOrder(s) && t.log == s.log && id < |s.log| && t.issued == s.issued + [id]
    requires forall a :: 0 <= a < |s.issued| && s.log[s.issued[a]].worker == s.log[id].worker ==> s.issued[a] < id
    ensures IssuedInOrder(t)
  {}

  lemma WorkIssuedOnce(cfg: Config, s: State, w: nat)
    requires Ledger(cfg, s) && Enabled(cfg, s, Work(w))
    ensures IssuedOnce(Do(cfg, s, Work(w)))
  {
    var id := s.workers[w].id;
    var t := Do(cfg, s, Work(w));
    WorkFrame(cfg, s, w);
    WorkLedger(cfg, s, w);
    AdvanceIssues(cfg, s.log[id].msg.plan, s.lives[id], Poisoned(s, id));
    assert OnlyChanges(s, t, id);
    if s.lives[id].stage.Commit? {
      IssueOnce(s, t, id);
    }
  }

  lemma WorkIssuedInOrder(cfg: Config, s: State, w: nat)
    requires Ledger(cfg, s) && Enabled(cfg, s, Work(w))
    ensures IssuedInOrder(Do(cfg, s, Work(w)))
  {
    var id := s.workers[w].id;
    WorkFrame(cfg, s, w);
    WorkLedger(cfg, s, w);
    if s.lives[id].stage.Commit? {
      forall a | 0 <= a < |s.issued| && s.log[s.issued[a]].worker == s.log[id].worker ensures s.issued[a] < id {
        IssuedEarlier(cfg, s, a, id);
      }
      IssueInOrder(s, Do(cfg, s, Work(w)), id);
    }
  }

  lemma IssuedEarlier(cfg: Config, s: State, a: nat, id: nat)
    requires Ledger(cfg, s) && a < |s.issued| && id < |s.log| && s.lives[id].stage.Commit?
    requires s.log[s.issued[a]].worker == s.log[id].worker
    ensures s.issued[a] < id
  {
    var i := s.issued[a];
    assert i in multiset(s.issued);
    assert Issued(s.lives[i]);
  }

  lemma EmitOnce(cfg: Config, s: State, t: State, id: nat)
    requires |s.lives| == |s.log| && EmittedOnce(cfg, s) && OnlyChanges(s, t, id) && !s.lives[id].stage.Done?
    requires match Emitted(cfg, s.log[id].msg.plan, t.lives[id])
             case Some(m) => t.emitted == s.emitted + [(id, m)]
             case None => t.emitted == s.emitted
    ensures EmittedOnce(cfg, t)
  {}

  lemma WorkLedgerKept(cfg: Config, s: State, w: nat)
    requires Ledger(cfg, s) && Enabled(cfg, s, Work(w))
    ensures Ledger(cfg, Do(cfg, s, Work(w)))
  {
    var id := s.workers[w].id;
    var t := Do(cfg, s, Work(w));
    WorkPlaced(cfg, s, w);
    WorkIssuedOnce(cfg, s, w);
    WorkIssuedInOrder(cfg, s, w);
    WorkFrame(cfg, s, w);
    assert LifeOk(cfg, s.log[id].msg.plan, s.lives[id]);
    WorkEmits(cfg, s, w);
    assert OnlyChanges(s, t, id);
    EmitOnce(cfg, s, t, id);
  }

  /** A step that changes no message's standing in the ledger. */
  lemma QuietLedger(cfg: Config, s: State, t: State)
    requires Ledger(cfg, s) && Placed(cfg, t) && t.issued == s.issued && t.emitted == s.emitted && |t.log| >= |s.log|
    requires forall i :: 0 <= i < |s.log| ==> t.log[i] == s.log[i]
    requires forall i :: 0 <= i < |s.lives| ==>
               Issued(t.lives[i]) == Issued(s.lives[i]) &&
               Emitted(cfg, t.log[i].msg.plan, t.lives[i]) == Emitted(cfg, s.log[i].msg.plan, s.lives[i])
    requires forall i :: |s.lives| <= i < |t.lives| ==> t.lives[i] == BORN
    ensures Ledger(cfg, t)
  {}

  lemma TakeLedger(cfg: Config, s: State, w: nat)
    requires Ledger(cfg, s) && Enabled(cfg, s, Take(w))
    ensures Ledger(cfg, Do(cfg, s, Take(w)))
  {
    var t := Do(cfg, s, Take(w));
    TakePlaced(cfg, s, w);
    TakenInTurn(cfg, s, w);
    assert t == s.(channels := t.channels, workers := t.workers, lives := t.lives);
    assert OnlyChanges(s, t, s.channels[w].queue[0]);
    QuietLedger(cfg, s, t);
  }

  lemma LoopLedger(cfg: Config, s: State, id: nat, e: Event)
    requires Ledger(cfg, s) && Enabled(cfg, s, Loop(id, e))
    ensures Ledger(cfg, Do(cfg, s, Loop(id, e)))
  {
    LoopPlaced(cfg, s, id, e);
    LoopFrame(cfg, s, id, e);
    QuietLedger(cfg, s, Do(cfg, s, Loop(id, e)));
  }

  lemma EnqueueLedger(cfg: Config, s: State, w: nat)
    requires Ledger(cfg, s) && Enabled(cfg, s, Enqueue(w)) && !s.channels[w].closed
    ensures Ledger(cfg, Do(cfg, s, Enqueue(w)))
  {
    EnqueuePlaced(cfg, s, w);
    EnqueueFrame(cfg, s, w);
    QuietLedger(cfg, s, Do(cfg, s, Enqueue(w)));
  }

  lemma StepLedger(cfg: Config, s: State, step: Step)
    requires Ledger(cfg, s) && Enabled(cfg, s, step)
    requires step.Enqueue? ==> !s.channels[step.w].closed
    ensures Ledger(cfg, Do(cfg, s, step))
  {
    if MovesMessage(step) {
      match step
      case Take(w) => TakeLedger(cfg, s, w);
      case Enqueue(w) => EnqueueLedger(cfg, s, w);
      case Work(w) => WorkLedgerKept(cfg, s, w);
      case Loop(id, e) => LoopLedger(cfg, s, id, e);
    } else {
      StepPlaced(cfg, s, step);
      OtherFrame(cfg, s, step);
      QuietLedger(cfg, s, Do(cfg, s, step));
    }
  }

}
