/** What every goroutine of the consumer waits for, exactly, and that none misuses what the others share. */
module ConsumerBlocking {
  import opened Lifecycle
  import opened Consumer
  import opened ConsumerOrder
  import opened ConsumerShutdown
  import GroupKey
  import DB = DeleteBatcher

  predicate OfWorker(step: Step, w: nat) { step == Take(w) || step == WorkerExit(w) || step == Work(w) }

  lemma WorkerSteps(cfg: Config, s: State, w: nat)
    requires Shape(cfg, s) && w < cfg.workers && !s.workers[w].Exited?
    ensures (forall step :: OfWorker(step, w) ==> !Enabled(cfg, s, step)) <==>
            || (s.workers[w].Idle? && s.channels[w].queue == [] && !s.channels[w].closed)
            || (s.workers[w].Busy? && s.lives[s.workers[w].id].stage.Commit? && cfg.batched &&
                !DB.Enabled(s.batcher, DB.Enqueue(s.workers[w].id)))
  {
    assert OfWorker(Take(w), w) && OfWorker(WorkerExit(w), w) && OfWorker(Work(w), w);
  }

  /** While a worker runs the delete queue is open, so that a commit waits exactly when it is full. */
  lemma CommitWaitsIff(cfg: Config, s: State, w: nat, id: nat)
    requires Sound(cfg, s) && w < cfg.workers && !s.workers[w].Exited?
    ensures DB.Enabled(s.batcher, DB.Enqueue(id)) <==> |s.batcher.queue| != cfg.workers * cfg.maxMessages
  {
    AliveMeansWaiting(cfg, s);
  }

  /** A worker waits only on its empty, open channel, or with a commit on the full delete queue. */
  lemma WorkerBlockedIff(cfg: Config, s: State, w: nat)
    requires Sound(cfg, s) && w < cfg.workers && !s.workers[w].Exited?
    ensures (forall step :: OfWorker(step, w) ==> !Enabled(cfg, s, step)) <==>
            || (s.workers[w].Idle? && s.channels[w].queue == [] && !s.channels[w].closed)
            || (s.workers[w].Busy? && s.lives[s.workers[w].id].stage.Commit? && cfg.batched &&
                |s.batcher.queue| == cfg.workers * cfg.maxMessages)
  {
    WorkerSteps(cfg, s, w);
    if s.workers[w].Busy? {
      CommitWaitsIff(cfg, s, w, s.workers[w].id);
    }
  }

  predicate OfPollLoop(step: Step) { (OfPoller(step) && !step.Cancel?) || step.Enqueue? || step.Join? }

  /** The workers a message can be given to: in Parallel mode all, in PerGroupID mode that of its key. */
  predicate MayTake(cfg: Config, m: Msg, w: nat)
    requires cfg.Valid()
  {
    w < cfg.workers && (cfg.mode.PerGroupID? ==> w == GroupKey.Index(m.key, cfg.workers))
  }

  predicate HasRoom(cfg: Config, s: State, w: nat)
    requires w < |s.channels|
  {
    |s.channels[w].queue| < cfg.maxMessages
  }

  /** The next message can go to every one of those workers whose channel has room, and to no other. */
  lemma CanEnqueueIff(cfg: Config, s: State, w: nat)
    requires Sound(cfg, s) && s.poll.Dispatching? && s.poll.rest != []
    ensures Enabled(cfg, s, Enqueue(w)) <==> MayTake(cfg, s.poll.rest[0], w) && HasRoom(cfg, s, w)
  {}

  /** The polling goroutine has nothing it can do. */
  ghost predicate PollerBlocked(cfg: Config, s: State)
    requires Shape(cfg, s)
  {
    forall step :: OfPollLoop(step) ==> !Enabled(cfg, s, step)
  }

  /** It holds a message for which no channel has room, and the run is not cancelled. */
  ghost predicate WaitsForRoom(cfg: Config, s: State)
    requires Shape(cfg, s)
  {
    && s.poll.Dispatching? && s.poll.rest != [] && !s.cancelled
    && forall w: nat :: MayTake(cfg, s.poll.rest[0], w) ==> !HasRoom(cfg, s, w)
  }

  /** The polling goroutine waits only for room in a channel, unless the run is cancelled, for the workers
      and visibility loops to end, or for the senders to end. */
  lemma PollerBlockedIff(cfg: Config, s: State)
    requires Sound(cfg, s)
    ensures PollerBlocked(cfg, s) <==>
            || s.poll.Stopped? || WaitsForRoom(cfg, s)
            || (s.poll.Joining? && Live(s) > 0) || (s.poll.Flushing? && !DB.AllExited(s.batcher))
  {
    if s.poll.Dispatching? && s.poll.rest != [] {
      DispatchBlockedIff(cfg, s);
    } else {
      OtherwiseBlockedIff(cfg, s);
    }
  }

  lemma WhileDispatching(cfg: Config, s: State, step: Step)
    requires Shape(cfg, s) && s.poll.Dispatching? && s.poll.rest != [] && OfPollLoop(step) && Enabled(cfg, s, step)
    ensures (step == Drop && s.cancelled) || step.Enqueue?
  {}

  lemma DispatchBlockedIff(cfg: Config, s: State)
    requires Sound(cfg, s) && s.poll.Dispatching? && s.poll.rest != []
    ensures PollerBlocked(cfg, s) <==> WaitsForRoom(cfg, s)
  {
    if WaitsForRoom(cfg, s) {
      forall step | OfPollLoop(step) ensures !Enabled(cfg, s, step) {
        if Enabled(cfg, s, step) {
          WhileDispatching(cfg, s, step);
          CanEnqueueIff(cfg, s, step.w);
        }
      }
    } else if s.cancelled {
      assert OfPollLoop(Drop) && Enabled(cfg, s, Drop);
    } else {
      var w: nat :| MayTake(cfg, s.poll.rest[0], w) && HasRoom(cfg, s, w);
      CanEnqueueIff(cfg, s, w);
      assert OfPollLoop(Enqueue(w)) && Enabled(cfg, s, Enqueue(w));
    }
  }

  /** A step of the polling goroutine where it is neither dispatching nor waiting. */
  lemma PollerStep(cfg: Config, s: State) returns (step: Step)
    requires Sound(cfg, s) && !(s.poll.Dispatching? && s.poll.rest != []) && !s.poll.Stopped?
    requires (s.poll.Joining? ==> Live(s) == 0) && (s.poll.Flushing? ==> DB.AllExited(s.batcher))
    ensures OfPollLoop(step) && Enabled(cfg, s, step)
  {
    match s.poll
    case Top => step := PollTop;
    case Receiving => step := ReceiveError;
    case RetryWait => step := RetryTimer;
    case Dispatching(_) => step := BatchDone;
    case Closing(_) => step := CloseChannel;
    case Joining => step := Join;
    case Flushing => step := AwaitSenders;
  }

  lemma OtherwiseBlockedIff(cfg: Config, s: State)
    requires Sound(cfg, s) && !(s.poll.Dispatching? && s.poll.rest != [])
    ensures PollerBlocked(cfg, s) <==>
            s.poll.Stopped? || (s.poll.Joining? && Live(s) > 0) || (s.poll.Flushing? && !DB.AllExited(s.batcher))
  {
    if !s.poll.Stopped? && (s.poll.Joining? ==> Live(s) == 0) && (s.poll.Flushing? ==> DB.AllExited(s.batcher)) {
      var step := PollerStep(cfg, s);
    }
  }

  /** A sender waits only on the empty, open channel. */
  lemma SenderBlockedIff<H>(s: DB.State<H>, k: nat)
    requires DB.Inv(s) && k < |s.senders| && !s.senders[k].Exited?
    ensures (forall step: DB.Step<H> :: DB.Enabled(s, step) && !step.Enqueue? && !step.Close? ==> step.k != k) <==>
            s.senders[k].Waiting? && s.queue == [] && !s.closed
  {
    var step: DB.Step<H> := match s.senders[k]
      case Waiting => if s.queue != [] then DB.Take(k) else DB.Exit(k)
      case Draining(b) => if |b| < DB.MAX_DELETE_BATCH && s.queue != [] then DB.Drain(k) else DB.Send(k)
      case Sending => DB.Return(k)
      case Exited => DB.Exit(k);
    assert step.k == k;
    assert DB.SenderOk(s, s.senders[k]);
  }

  /** A sender issues its request only when its batch is full or nothing is queued. */
  lemma SendsWhenFullOrDry<H>(s: DB.State<H>, k: nat)
    requires DB.Inv(s) && DB.Enabled(s, DB.Step<H>.Send(k))
    ensures |DB.Batch(s.senders[k])| == 10 || s.queue == []
    ensures DB.Do(s, DB.Step<H>.Send(k)).sent == s.sent + [DB.Batch(s.senders[k])]
  {
    assert DB.SenderOk(s, s.senders[k]);
  }

  /** A step that would send on or close a closed channel, add to a wait group that has reached zero, or
      take it below zero. */
  ghost predicate Misuse(cfg: Config, s: State, step: Step)
    requires Shape(cfg, s) && Enabled(cfg, s, step)
  {
    match step
    case Enqueue(w) => s.channels[w].closed
    case CloseChannel => s.poll.next < cfg.workers && s.channels[s.poll.next].closed
    case Join => cfg.batched && s.batcher.closed
    case WorkerExit(w) => s.waitGroup <= 0
    case Loop(id, e) => LoopStep(cfg, s.lives[id], e).loop.Ended? && s.waitGroup <= 0
    case Work(w) =>
      var stage := s.lives[s.workers[w].id].stage;
      (stage.Spawn? && s.waitGroup <= 0) || (stage.Commit? && cfg.batched && s.batcher.closed)
    case _ => false
  }

  /** A step panics exactly when it is one of those. */
  lemma PanicsIff(cfg: Config, s: State, step: Step)
    requires Shape(cfg, s) && Enabled(cfg, s, step) && !s.panicked
    ensures Do(cfg, s, step).panicked <==> Misuse(cfg, s, step)
  {}

  /** In every reachable state, no step that any goroutine can take is one. */
  lemma NoMisuse(cfg: Config, steps: seq<Step>, step: Step)
    requires cfg.Valid() && Legal(cfg, Init(cfg), steps)
    requires Shape(cfg, After(cfg, Init(cfg), steps)) && Enabled(cfg, After(cfg, Init(cfg), steps), step)
    ensures !Misuse(cfg, After(cfg, Init(cfg), steps), step)
  {
    InitSound(cfg);
    RunSound(cfg, Init(cfg), steps);
    StepSound(cfg, After(cfg, Init(cfg), steps), step);
    PanicsIff(cfg, After(cfg, Init(cfg), steps), step);
  }
}
