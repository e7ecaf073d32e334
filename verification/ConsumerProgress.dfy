/** The consumer never deadlocks, and once cancelled it stops within a bounded number of steps. */
module ConsumerProgress {
  import opened Options
  import opened Visibility
  import opened Lifecycle
  import opened Consumer
  import opened ConsumerOrder
  import opened ConsumerShutdown
  import GroupKey
  import DB = DeleteBatcher

  // ----- Someone can always move -----

  /** A worker with something to do can do it, or a sender can: a worker is only ever blocked on a full
      delete queue, and then some sender has handles to take or a request to finish. */
  lemma WorkerCanMove(cfg: Config, s: State, w: nat) returns (step: Step)
    requires Sound(cfg, s) && w < cfg.workers && !s.workers[w].Exited?
    requires s.workers[w].Busy? || s.channels[w].queue != [] || s.channels[w].closed
    ensures Enabled(cfg, s, step) && (step == Take(w) || step == WorkerExit(w) || step == Work(w) || step.Batcher?)
  {
    AliveMeansWaiting(cfg, s);
    if s.workers[w].Idle? {
      step := if s.channels[w].queue != [] then Take(w) else WorkerExit(w);
    } else if s.lives[s.workers[w].id].stage.Commit? && cfg.batched && |s.batcher.queue| >= s.batcher.capacity {
      MulLe(1, cfg.workers, cfg.maxMessages);
      assert s.batcher.queue != [] && !s.batcher.closed;
      assert DB.SenderOk(s.batcher, s.batcher.senders[0]);
      var b := DB.SomeSenderCanMove(s.batcher);
      step := Batcher(b);
    } else {
      step := Work(w);
    }
  }

  /** A live visibility loop can always move: its ticker, its call or its limit sees to it. */
  lemma LoopCanMove(cfg: Config, s: State, id: nat) returns (step: Step)
    requires Shape(cfg, s) && id < |s.lives| && LoopLive(s.lives[id])
    ensures Enabled(cfg, s, step) && step.Loop?
  {
    var l := s.lives[id].loop;
    step := Loop(id, if !l.Select? then CallReturned else if l.count > cfg.limit then LimitReached else Tick);
  }

  /** The polling goroutine is blocked only by a full channel, by the wait for the workers or by the
      wait for the senders, and in each case one of those can move. */
  lemma Progress(cfg: Config, s: State) returns (step: Step)
    requires Sound(cfg, s) && !s.poll.Stopped?
    ensures Enabled(cfg, s, step) && !step.Cancel?
  {
    match s.poll
    case Top => step := PollTop;
    case Receiving => step := ReceiveError;
    case RetryWait => step := RetryTimer;
    case Dispatching(rest) =>
      if rest == [] {
        step := BatchDone;
      } else {
        var w := if cfg.mode.PerGroupID? then GroupKey.Index(rest[0].key, cfg.workers) else 0;
        if |s.channels[w].queue| < cfg.maxMessages {
          step := Enqueue(w);
        } else {
          step := WorkerCanMove(cfg, s, w);
        }
      }
    case Closing(_) => step := CloseChannel;
    case Joining =>
      if s.waitGroup == 0 {
        step := Join;
      } else {
        step := JoinerCanMove(cfg, s);
      }
    case Flushing =>
      if DB.AllExited(s.batcher) {
        step := AwaitSenders;
      } else {
        var b := DB.SomeSenderCanMove(s.batcher);
        step := Batcher(b);
      }
  }

  lemma JoinerCanMove(cfg: Config, s: State) returns (step: Step)
    requires Sound(cfg, s) && s.poll.Joining? && s.waitGroup != 0
    ensures Enabled(cfg, s, step) && !step.Cancel?
  {
    CountZero(s.workers, IsRunning);
    CountZero(s.lives, LoopLive);
    if w: nat :| w < cfg.workers && !s.workers[w].Exited? {
      step := WorkerCanMove(cfg, s, w);
    } else {
      var id: nat :| id < |s.lives| && LoopLive(s.lives[id]);
      step := LoopCanMove(cfg, s, id);
    }
  }

  // ----- How much is left -----

  function Unit(cfg: Config): nat { LoopMax(cfg) + 14 }

  /** Steps left for the polling goroutine after a cancellation, each message it may still dispatch
      counted with all the work it brings. */
  function PollWeight(cfg: Config, poll: Poll): nat {
    match poll
    case Stopped => 0
    case Flushing => 1
    case Joining => 2
    case Closing(k) => 3 + (if k <= cfg.workers then cfg.workers - k else 0)
    case Top => 4 + cfg.workers
    case RetryWait => 5 + cfg.workers
    case Dispatching(rest) => 5 + cfg.workers + |rest| * Unit(cfg)
    case Receiving => 6 + cfg.workers + cfg.maxMessages * Unit(cfg)
  }

  function WeightIn(cfg: Config): Life -> nat { l => Weight(cfg, l) }

  function WorkerWeight(w: Worker): nat { if w.Exited? then 0 else 1 }

  function Measure(cfg: Config, s: State): nat {
    PollWeight(cfg, s.poll) + Sum(s.lives, WeightIn(cfg)) + Sum(s.workers, WorkerWeight) + DB.Work(s.batcher)
  }

  lemma PollShrinks(cfg: Config, s: State, step: Step)
    requires Shape(cfg, s) && Enabled(cfg, s, step) && s.cancelled && OfPoller(step)
    ensures PollWeight(cfg, Do(cfg, s, step).poll) < PollWeight(cfg, s.poll)
  {
    if step.Receive? {
      MulLe(|step.batch|, cfg.maxMessages, Unit(cfg));
    } else if step.Drop? {
      OneLess(|s.poll.rest|, Unit(cfg));
    }
  }

  lemma OneLess(n: nat, unit: nat)
    requires n > 0
    ensures n * unit == (n - 1) * unit + unit
  {}

  lemma EnqueueShrinks(cfg: Config, s: State, w: nat)
    requires Shape(cfg, s) && Enabled(cfg, s, Enqueue(w)) && !s.channels[w].closed
    ensures Measure(cfg, Do(cfg, s, Enqueue(w))) < Measure(cfg, s)
  {
    OneLess(|s.poll.rest|, Unit(cfg));
    assert (s.lives + [BORN])[..|s.lives|] == s.lives;
    assert WeightIn(cfg)(BORN) == LoopMax(cfg) + 13;
  }

  /** The measure after message id and worker w change. */
  lemma MeasureUpdate(cfg: Config, s: State, t: State, id: nat, w: nat)
    requires id < |s.lives| == |t.lives| && w < |s.workers| == |t.workers|
    requires t.lives == s.lives[id := t.lives[id]] && t.workers == s.workers[w := t.workers[w]] && t.poll == s.poll
    ensures Measure(cfg, t) - DB.Work(t.batcher) + Weight(cfg, s.lives[id]) + WorkerWeight(s.workers[w]) ==
            Measure(cfg, s) - DB.Work(s.batcher) + Weight(cfg, t.lives[id]) + WorkerWeight(t.workers[w])
  {
    SumUpdate(s.lives, WeightIn(cfg), id, t.lives[id]);
    SumUpdate(s.workers, WorkerWeight, w, t.workers[w]);
  }

  lemma WorkShrinks(cfg: Config, s: State, w: nat)
    requires Sound(cfg, s) && Enabled(cfg, s, Work(w))
    ensures Measure(cfg, Do(cfg, s, Work(w))) < Measure(cfg, s)
  {
    var id := s.workers[w].id;
    var t := Do(cfg, s, Work(w));
    WorkFrame(cfg, s, w);
    assert LifeOk(cfg, s.log[id].msg.plan, s.lives[id]);
    AdvanceShrinks(cfg, s.log[id].msg.plan, s.lives[id], Poisoned(s, id));
    AliveMeansWaiting(cfg, s);
    CommitCosts(cfg, s, w);
    assert t.workers == s.workers[w := t.workers[w]];
    MeasureUpdate(cfg, s, t, id, w);
  }

  /** A commit hands the senders three units of work; no other stage gives them any. */
  lemma CommitCosts(cfg: Config, s: State, w: nat)
    requires Shape(cfg, s) && Enabled(cfg, s, Work(w)) && !s.batcher.closed
    ensures DB.Work(Do(cfg, s, Work(w)).batcher) <=
            DB.Work(s.batcher) + if s.lives[s.workers[w].id].stage.Commit? then 3 else 0
  {
    WorkLedger(cfg, s, w);
    var id := s.workers[w].id;
    if s.lives[id].stage.Commit? && cfg.batched {
      DB.WorkDecreases(s.batcher, DB.Enqueue(id));
    }
  }

  lemma TakeShrinks(cfg: Config, s: State, w: nat)
    requires Sound(cfg, s) && Enabled(cfg, s, Take(w))
    ensures Measure(cfg, Do(cfg, s, Take(w))) < Measure(cfg, s)
  {
    TakenInTurn(cfg, s, w);
    var id := s.channels[w].queue[0];
    var t := Do(cfg, s, Take(w));
    assert t == s.(channels := t.channels, workers := s.workers[w := Busy(id)], lives := s.lives[id := t.lives[id]]);
    MeasureUpdate(cfg, s, t, id, w);
  }

  lemma LoopShrinks(cfg: Config, s: State, id: nat, e: Event)
    requires Sound(cfg, s) && Enabled(cfg, s, Loop(id, e))
    ensures Measure(cfg, Do(cfg, s, Loop(id, e))) < Measure(cfg, s)
  {
    LoopFrame(cfg, s, id, e);
    assert LifeOk(cfg, s.log[id].msg.plan, s.lives[id]);
    LoopStepShrinks(cfg, s.log[id].msg.plan, s.lives[id], e, s.cancelled);
    SumUpdate(s.lives, WeightIn(cfg), id, LoopStep(cfg, s.lives[id], e));
  }

  lemma ExitShrinks(cfg: Config, s: State, w: nat)
    requires Shape(cfg, s) && Enabled(cfg, s, WorkerExit(w))
    ensures Measure(cfg, Do(cfg, s, WorkerExit(w))) < Measure(cfg, s)
  {
    SumUpdate(s.workers, WorkerWeight, w, Exited);
  }

  lemma SenderShrinks(cfg: Config, s: State, b: DB.Step<nat>)
    requires Shape(cfg, s) && Enabled(cfg, s, Batcher(b))
    ensures Measure(cfg, Do(cfg, s, Batcher(b))) < Measure(cfg, s)
  {
    DB.WorkDecreases(s.batcher, b);
  }

  /** The batcher is closed only after the join. */
  lemma StillOpen(cfg: Config, s: State)
    requires Sound(cfg, s) && !Joined(s.poll)
    ensures !s.batcher.closed
  {}

  lemma JoinShrinks(cfg: Config, s: State)
    requires Shape(cfg, s) && Enabled(cfg, s, Join) && !s.batcher.closed
    ensures Measure(cfg, Do(cfg, s, Join)) < Measure(cfg, s)
  {
    var t := Do(cfg, s, Join);
    DB.WorkDecreases<nat>(s.batcher, DB.Close);
    assert t.lives == s.lives && t.workers == s.workers;
  }

  lemma MoveShrinks(cfg: Config, s: State, step: Step)
    requires Sound(cfg, s) && Enabled(cfg, s, step) && MovesMessage(step)
    ensures Measure(cfg, Do(cfg, s, step)) < Measure(cfg, s) && Do(cfg, s, step).cancelled == s.cancelled
  {
    match step
    case Enqueue(w) =>
      NoSendOnClosed(cfg, s, w);
      EnqueueShrinks(cfg, s, w);
      EnqueueFrame(cfg, s, w);
    case Take(w) =>
      TakeShrinks(cfg, s, w);
      assert Do(cfg, s, step).cancelled == s.cancelled;
    case Work(w) =>
      WorkShrinks(cfg, s, w);
      WorkFrame(cfg, s, w);
    case Loop(id, e) =>
      LoopShrinks(cfg, s, id, e);
      LoopFrame(cfg, s, id, e);
  }

  lemma EndShrinks(cfg: Config, s: State, step: Step)
    requires Sound(cfg, s) && Enabled(cfg, s, step) && (step.WorkerExit? || step.Batcher? || step.Join?)
    ensures Measure(cfg, Do(cfg, s, step)) < Measure(cfg, s) && Do(cfg, s, step).cancelled == s.cancelled
  {
    match step
    case WorkerExit(w) => ExitShrinks(cfg, s, w);
    case Batcher(b) => SenderShrinks(cfg, s, b);
    case Join =>
      StillOpen(cfg, s);
      JoinShrinks(cfg, s);
  }

  lemma PollStepShrinks(cfg: Config, s: State, step: Step)
    requires Sound(cfg, s) && Enabled(cfg, s, step) && s.cancelled && OfPoller(step)
    ensures Measure(cfg, Do(cfg, s, step)) < Measure(cfg, s) && Do(cfg, s, step).cancelled
  {
    PollShrinks(cfg, s, step);
    PollTouches(cfg, s, step);
  }

  /** After a cancellation every step of every goroutine leaves strictly less to do. */
  lemma StepShrinks(cfg: Config, s: State, step: Step)
    requires Sound(cfg, s) && Enabled(cfg, s, step) && s.cancelled
    ensures Measure(cfg, Do(cfg, s, step)) < Measure(cfg, s) && Do(cfg, s, step).cancelled
  {
    if OfPoller(step) {
      PollStepShrinks(cfg, s, step);
    } else if MovesMessage(step) {
      MoveShrinks(cfg, s, step);
    } else {
      EndShrinks(cfg, s, step);
    }
  }

  lemma {:induction false} RunShrinks(cfg: Config, s: State, steps: seq<Step>)
    requires Sound(cfg, s) && s.cancelled && Legal(cfg, s, steps)
    ensures Measure(cfg, After(cfg, s, steps)) + |steps| <= Measure(cfg, s)
    ensures After(cfg, s, steps).cancelled
    decreases |steps|
  {
    if steps != [] {
      StepSound(cfg, s, steps[0]);
      StepShrinks(cfg, s, steps[0]);
      RunShrinks(cfg, Do(cfg, s, steps[0]), steps[1..]);
    }
  }

  /** No deadlock: in every reachable state in which stop has not returned, some goroutine can move
      without waiting for a cancellation. */
  lemma DeadlockFree(cfg: Config, steps: seq<Step>) returns (step: Step)
    requires cfg.Valid() && Legal(cfg, Init(cfg), steps) && !After(cfg, Init(cfg), steps).poll.Stopped?
    ensures Shape(cfg, After(cfg, Init(cfg), steps))
    ensures Enabled(cfg, After(cfg, Init(cfg), steps), step) && !step.Cancel?
  {
    InitSound(cfg);
    RunSound(cfg, Init(cfg), steps);
    step := Progress(cfg, After(cfg, Init(cfg), steps));
  }

  /** Termination: from any reachable cancelled state, whatever the interleaving, at most Measure steps
      remain, and a run that cannot go on has returned from stop. */
  lemma CancelledRunsStop(cfg: Config, before: seq<Step>, after: seq<Step>)
    requires cfg.Valid() && Legal(cfg, Init(cfg), before)
    requires var s := After(cfg, Init(cfg), before); s.cancelled && Legal(cfg, s, after)
    ensures var s := After(cfg, Init(cfg), before);
            var t := After(cfg, s, after);
            && |after| <= Measure(cfg, s)
            && Shape(cfg, t)
            && ((forall step :: !Enabled(cfg, t, step)) <==> t.poll.Stopped?)
  {
    InitSound(cfg);
    RunSound(cfg, Init(cfg), before);
    var s := After(cfg, Init(cfg), before);
    RunSound(cfg, s, after);
    RunShrinks(cfg, s, after);
    var t := After(cfg, s, after);
    if t.poll.Stopped? {
      StoppedIsFinal(cfg, t);
    } else {
      var step := Progress(cfg, t);
    }
  }

  lemma StoppedIsFinal(cfg: Config, s: State)
    requires Sound(cfg, s) && s.poll.Stopped? && s.cancelled
    ensures forall step :: !Enabled(cfg, s, step)
  {
    AliveMeansWaiting(cfg, s);
    forall step ensures !Enabled(cfg, s, step) {
      if Enabled(cfg, s, step) && step.Batcher? {
        BatcherSender(s.batcher, step.step);
      }
    }
  }
}
