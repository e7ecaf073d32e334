/** Shutdown: the wait group, the channels and the batcher are never misused, the system never
    deadlocks, and once cancelled it stops within a bounded number of steps with nothing left alive. */
module ConsumerShutdown {
  import opened Options
  import opened Visibility
  import opened Lifecycle
  import opened Consumer
  import opened ConsumerOrder
  import DB = DeleteBatcher

  predicate IsRunning(w: Worker) { !w.Exited? }

  /** The number of goroutines the dispatcher's wait group has to wait for. */
  function Live(s: State): nat { Count(s.workers, IsRunning) + Count(s.lives, LoopLive) }

  /** How many of the worker channels the shutdown has closed. */
  function ClosedUpTo(cfg: Config, poll: Poll): nat {
    match poll
    case Closing(k) => k
    case Joining => cfg.workers
    case Flushing => cfg.workers
    case Stopped => cfg.workers
    case _ => 0
  }

  predicate Joined(poll: Poll) { poll.Flushing? || poll.Stopped? }

  ghost predicate ChannelsOk(cfg: Config, s: State)
    requires Shape(cfg, s)
  {
    forall w :: 0 <= w < cfg.workers ==>
      && (s.channels[w].closed <==> w < ClosedUpTo(cfg, s.poll))
      && (s.workers[w].Exited? ==> s.channels[w].closed && s.channels[w].queue == [])
  }

  ghost predicate BatcherOk(cfg: Config, s: State) {
    && DB.Inv(s.batcher)
    && |s.batcher.senders| == (if cfg.batched then cfg.workers else 0)
    && s.batcher.capacity == cfg.workers * cfg.maxMessages
    && (s.batcher.closed <==> cfg.batched && Joined(s.poll))
    && (s.poll.Flushing? ==> cfg.batched)
    && (s.poll.Stopped? ==> DB.AllExited(s.batcher))
    && s.batcher.enqueued == (if cfg.batched then s.issued else [])
  }

  ghost predicate Sound(cfg: Config, s: State) {
    && Placed(cfg, s)
    && !s.panicked
    && s.waitGroup == Live(s)
    && (Joined(s.poll) ==> s.waitGroup == 0)
    && ChannelsOk(cfg, s)
    && BatcherOk(cfg, s)
  }

  lemma AllRunning(n: nat)
    ensures Count(seq(n, i => Idle), IsRunning) == n
  {
    if n > 0 {
      assert seq(n, i => Idle)[..n - 1] == seq(n - 1, i => Idle);
      AllRunning(n - 1);
    }
  }

  lemma InitSound(cfg: Config)
    requires cfg.Valid()
    ensures Sound(cfg, Init(cfg))
  {
    InitPlaced(cfg);
    AllRunning(cfg.workers);
    DB.InitInv<nat>(cfg.workers * cfg.maxMessages, if cfg.batched then cfg.workers else 0);
  }

  /** As long as a worker or a loop is alive, the wait group is positive, so the wait has not returned. */
  lemma AliveMeansWaiting(cfg: Config, s: State)
    requires Sound(cfg, s)
    ensures forall w :: 0 <= w < cfg.workers && !s.workers[w].Exited? ==> s.waitGroup > 0 && !Joined(s.poll)
    ensures forall i :: 0 <= i < |s.lives| && LoopLive(s.lives[i]) ==> s.waitGroup > 0 && !Joined(s.poll)
  {
    CountZero(s.workers, IsRunning);
    CountZero(s.lives, LoopLive);
  }

  /** A worker channel is open whenever the polling loop sends on it. */
  lemma NoSendOnClosed(cfg: Config, s: State, w: nat)
    requires Sound(cfg, s) && Enabled(cfg, s, Enqueue(w))
    ensures !s.channels[w].closed
  {}

  lemma WorkSound(cfg: Config, s: State, w: nat)
    requires Sound(cfg, s) && Enabled(cfg, s, Work(w))
    ensures Sound(cfg, Do(cfg, s, Work(w)))
  {
    WorkPlaced(cfg, s, w);
    WorkFrame(cfg, s, w);
    AliveMeansWaiting(cfg, s);
    WorkLive(cfg, s, w);
    WorkBatcher(cfg, s, w);
    WorkChannels(cfg, s, Do(cfg, s, Work(w)), w);
  }

  lemma WorkChannels(cfg: Config, s: State, t: State, w: nat)
    requires Shape(cfg, s) && Shape(cfg, t) && ChannelsOk(cfg, s) && w < cfg.workers && !s.workers[w].Exited?
    requires t.channels == s.channels && t.poll == s.poll
    requires t.workers == s.workers || t.workers == s.workers[w := Idle]
    ensures ChannelsOk(cfg, t)
  {}

  lemma WorkLive(cfg: Config, s: State, w: nat)
    requires Placed(cfg, s) && Enabled(cfg, s, Work(w)) && s.waitGroup == Live(s)
    ensures Do(cfg, s, Work(w)).waitGroup == Live(Do(cfg, s, Work(w)))
  {
    var id := s.workers[w].id;
    var t := Do(cfg, s, Work(w));
    WorkFrame(cfg, s, w);
    assert t.workers == s.workers[w := t.workers[w]];
    CountUpdate(s.workers, IsRunning, w, t.workers[w]);
    CountUpdate(s.lives, LoopLive, id, t.lives[id]);
    assert LifeOk(cfg, s.log[id].msg.plan, s.lives[id]);
    WorkCounts(cfg, s, w);
  }

  /** Only starting the visibility loop changes the number of live goroutines, and the counter with it. */
  lemma WorkCounts(cfg: Config, s: State, w: nat)
    requires Shape(cfg, s) && Enabled(cfg, s, Work(w))
    requires LifeOk(cfg, s.log[s.workers[w].id].msg.plan, s.lives[s.workers[w].id])
    ensures var t, id := Do(cfg, s, Work(w)), s.workers[w].id;
            && t.waitGroup ==
               s.waitGroup + (if LoopLive(t.lives[id]) then 1 else 0) - (if LoopLive(s.lives[id]) then 1 else 0)
  {}

  /** A worker's step touches the batcher, and the history of deletes, only to commit. */
  lemma WorkLedger(cfg: Config, s: State, w: nat)
    requires Shape(cfg, s) && Enabled(cfg, s, Work(w))
    ensures var t, id := Do(cfg, s, Work(w)), s.workers[w].id;
            var commits := s.lives[id].stage.Commit?;
            && t.issued == (if commits then s.issued + [id] else s.issued)
            && t.batcher == (if commits && cfg.batched then DB.Do(s.batcher, DB.Enqueue(id)) else s.batcher)
            && (s.waitGroup > 0 && !s.batcher.closed ==> t.panicked == s.panicked)
  {}

  lemma BatcherEnqueue(b: DB.State<nat>, id: nat)
    requires DB.Inv(b) && !b.closed && DB.Enabled(b, DB.Enqueue(id))
    ensures var c := DB.Do(b, DB.Enqueue(id));
            && DB.Inv(c) && !c.closed && c.senders == b.senders && c.capacity == b.capacity
            && c.enqueued == b.enqueued + [id]
  {}

  lemma BatcherClose(b: DB.State<nat>)
    requires DB.Inv(b) && !b.closed
    ensures var c := DB.Do(b, DB.Close);
            DB.Inv(c) && c.closed && c.senders == b.senders && c.capacity == b.capacity && c.enqueued == b.enqueued
  {
    DB.StepKeepsInv<nat>(b, DB.Close);
  }

  lemma BatcherSender(b: DB.State<nat>, step: DB.Step<nat>)
    requires DB.Inv(b) && DB.Enabled(b, step) && !step.Enqueue? && !step.Close?
    ensures var c := DB.Do(b, step);
            && DB.Inv(c) && c.closed == b.closed && |c.senders| == |b.senders| && c.capacity == b.capacity
            && c.enqueued == b.enqueued && !DB.AllExited(b)
  {
    DB.StepKeepsInv(b, step);
    assert !b.senders[step.k].Exited?;
  }

  lemma WorkBatcher(cfg: Config, s: State, w: nat)
    requires Shape(cfg, s) && Enabled(cfg, s, Work(w)) && BatcherOk(cfg, s) && !s.panicked
    requires s.waitGroup > 0 && !Joined(s.poll)
    ensures var t := Do(cfg, s, Work(w)); BatcherOk(cfg, t) && !t.panicked
  {
    var id := s.workers[w].id;
    WorkFrame(cfg, s, w);
    WorkLedger(cfg, s, w);
    if s.lives[id].stage.Commit? && cfg.batched {
      BatcherEnqueue(s.batcher, id);
    }
  }

  /** A loop's step changes its message, and the counter by one when the loop returns. */
  lemma LoopFrame(cfg: Config, s: State, id: nat, e: Event)
    requires Shape(cfg, s) && Enabled(cfg, s, Loop(id, e))
    ensures var t := Do(cfg, s, Loop(id, e));
            && t == s.(lives := t.lives, waitGroup := t.waitGroup, panicked := t.panicked)
            && t.lives == s.lives[id := LoopStep(cfg, s.lives[id], e)]
            && t.waitGroup ==
               s.waitGroup + (if LoopLive(t.lives[id]) then 1 else 0) - (if LoopLive(s.lives[id]) then 1 else 0)
            && LoopLive(s.lives[id])
            && (s.waitGroup > 0 ==> t.panicked == s.panicked)
  {}

  lemma LoopSound(cfg: Config, s: State, id: nat, e: Event)
    requires Sound(cfg, s) && Enabled(cfg, s, Loop(id, e))
    ensures Sound(cfg, Do(cfg, s, Loop(id, e)))
  {
    var t := Do(cfg, s, Loop(id, e));
    LoopPlaced(cfg, s, id, e);
    AliveMeansWaiting(cfg, s);
    LoopFrame(cfg, s, id, e);
    CountUpdate(s.lives, LoopLive, id, t.lives[id]);
    SameChannels(cfg, s, t);
  }

  lemma TakeSound(cfg: Config, s: State, w: nat)
    requires Sound(cfg, s) && Enabled(cfg, s, Take(w))
    ensures Sound(cfg, Do(cfg, s, Take(w)))
  {
    var t := Do(cfg, s, Take(w));
    TakenInTurn(cfg, s, w);
    TakePlaced(cfg, s, w);
    var id := s.channels[w].queue[0];
    assert t == s.(channels := t.channels, workers := t.workers, lives := t.lives);
    TakeLive(s, t, w, id);
    forall v: nat | v < cfg.workers
      ensures t.channels[v].closed == s.channels[v].closed && (t.workers[v].Exited? ==> v != w && s.workers[v].Exited?)
    {}
  }

  lemma TakeLive(s: State, t: State, w: nat, id: nat)
    requires w < |s.workers| && id < |s.lives| && s.workers[w].Idle?
    requires t.workers == s.workers[w := Busy(id)] && t.lives == s.lives[id := s.lives[id].(stage := Check)]
    ensures Live(t) == Live(s)
  {
    CountUpdate(s.workers, IsRunning, w, t.workers[w]);
    CountUpdate(s.lives, LoopLive, id, t.lives[id]);
  }

  lemma EnqueueLive(s: State, t: State)
    requires t.workers == s.workers && t.lives == s.lives + [BORN]
    ensures Live(t) == Live(s)
  {}

  lemma EnqueueSound(cfg: Config, s: State, w: nat)
    requires Sound(cfg, s) && Enabled(cfg, s, Enqueue(w))
    ensures Sound(cfg, Do(cfg, s, Enqueue(w)))
  {
    NoSendOnClosed(cfg, s, w);
    EnqueuePlaced(cfg, s, w);
    EnqueueFrame(cfg, s, w);
    var t := Do(cfg, s, Enqueue(w));
    EnqueueLive(s, t);
    EnqueueChannels(cfg, s, t, w);
  }

  lemma EnqueueChannels(cfg: Config, s: State, t: State, w: nat)
    requires Shape(cfg, s) && Shape(cfg, t) && ChannelsOk(cfg, s) && w < cfg.workers && !s.channels[w].closed
    requires s.poll.Dispatching? && t.poll.Dispatching? && t.workers == s.workers
    requires t.channels == s.channels[w := Channel(s.channels[w].queue + [|s.log|], false)]
    ensures ChannelsOk(cfg, t)
  {}

  lemma ExitSound(cfg: Config, s: State, w: nat)
    requires Sound(cfg, s) && Enabled(cfg, s, WorkerExit(w))
    ensures Sound(cfg, Do(cfg, s, WorkerExit(w)))
  {
    var t := Do(cfg, s, WorkerExit(w));
    StepPlaced(cfg, s, WorkerExit(w));
    AliveMeansWaiting(cfg, s);
    CountUpdate(s.workers, IsRunning, w, Exited);
    assert t == s.(workers := s.workers[w := Exited], waitGroup := t.waitGroup, panicked := t.panicked);
    ExitChannels(cfg, s, t, w);
  }

  lemma ExitChannels(cfg: Config, s: State, t: State, w: nat)
    requires Shape(cfg, s) && Shape(cfg, t) && ChannelsOk(cfg, s) && w < cfg.workers
    requires s.channels[w].closed && s.channels[w].queue == []
    requires t.channels == s.channels && t.workers == s.workers[w := Exited] && t.poll == s.poll
    ensures ChannelsOk(cfg, t)
  {}

  lemma BatcherSound(cfg: Config, s: State, b: DB.Step<nat>)
    requires Sound(cfg, s) && Enabled(cfg, s, Batcher(b))
    ensures Sound(cfg, Do(cfg, s, Batcher(b)))
  {
    StepPlaced(cfg, s, Batcher(b));
    BatcherSender(s.batcher, b);
    var t := Do(cfg, s, Batcher(b));
    assert t == s.(batcher := t.batcher);
    SameChannels(cfg, s, t);
  }

  lemma JoinBatcher(cfg: Config, s: State)
    requires Shape(cfg, s) && BatcherOk(cfg, s) && Enabled(cfg, s, Join) && !s.panicked
    ensures var t := Do(cfg, s, Join);
            && BatcherOk(cfg, t) && !t.panicked && Joined(t.poll)
            && t == s.(poll := t.poll, batcher := t.batcher, panicked := t.panicked)
  {
    BatcherClose(s.batcher);
    assert !cfg.batched ==> DB.AllExited(s.batcher);
  }

  lemma JoinSound(cfg: Config, s: State)
    requires Sound(cfg, s) && Enabled(cfg, s, Join)
    ensures Sound(cfg, Do(cfg, s, Join))
  {
    StepPlaced(cfg, s, Join);
    JoinBatcher(cfg, s);
    SameChannels(cfg, s, Do(cfg, s, Join));
  }

  /** A step that neither closes a channel, takes from one nor ends a worker. */
  lemma SameChannels(cfg: Config, s: State, t: State)
    requires Shape(cfg, s) && Shape(cfg, t) && ChannelsOk(cfg, s)
    requires t.channels == s.channels && t.workers == s.workers && ClosedUpTo(cfg, t.poll) == ClosedUpTo(cfg, s.poll)
    ensures ChannelsOk(cfg, t)
  {}

  /** The polling loop leaves the other goroutines alone; it opens nothing and closes a channel once. */
  lemma PollFrame(cfg: Config, s: State, step: Step)
    requires Shape(cfg, s) && ChannelsOk(cfg, s) && Enabled(cfg, s, step) && OfPoller(step)
    ensures var t := Do(cfg, s, step);
            && Shape(cfg, t) && ChannelsOk(cfg, t)
            && t.workers == s.workers && t.lives == s.lives && t.batcher == s.batcher && t.issued == s.issued
            && t.waitGroup == s.waitGroup && t.panicked == s.panicked
            && (Joined(t.poll) <==> Joined(s.poll))
            && (t.poll.Flushing? ==> s.poll == t.poll)
            && (t.poll.Stopped? ==> s.poll.Stopped? || DB.AllExited(s.batcher))
  {
    PollTouches(cfg, s, step);
    OtherFrame(cfg, s, step);
    PollMoves(cfg, s, step);
  }

  lemma PollMoves(cfg: Config, s: State, step: Step)
    requires Shape(cfg, s) && ChannelsOk(cfg, s) && Enabled(cfg, s, step) && OfPoller(step)
    ensures var t := Do(cfg, s, step);
            && t.panicked == s.panicked
            && (Joined(t.poll) <==> Joined(s.poll))
            && (t.poll.Flushing? ==> s.poll == t.poll)
            && (t.poll.Stopped? ==> s.poll.Stopped? || DB.AllExited(s.batcher))
            && ClosedUpTo(cfg, t.poll) == ClosedUpTo(cfg, s.poll) +
                 (if step.CloseChannel? && s.poll.next < cfg.workers then 1 else 0)
            && (step.CloseChannel? ==> ClosedUpTo(cfg, s.poll) == s.poll.next)
  {}

  lemma PollSound(cfg: Config, s: State, step: Step)
    requires Sound(cfg, s) && Enabled(cfg, s, step) && OfPoller(step)
    ensures Sound(cfg, Do(cfg, s, step))
  {
    StepPlaced(cfg, s, step);
    PollFrame(cfg, s, step);
  }

  /** Safety of shutdown, as an inductive invariant: no step sends on or closes a closed channel, takes
      the counter below zero or adds to it after it has reached zero. */
  lemma StepSound(cfg: Config, s: State, step: Step)
    requires Sound(cfg, s) && Enabled(cfg, s, step)
    ensures Sound(cfg, Do(cfg, s, step))
  {
    if OfPoller(step) {
      PollSound(cfg, s, step);
    } else {
      match step
      case Enqueue(w) => EnqueueSound(cfg, s, w);
      case Join => JoinSound(cfg, s);
      case Take(w) => TakeSound(cfg, s, w);
      case WorkerExit(w) => ExitSound(cfg, s, w);
      case Work(w) => WorkSound(cfg, s, w);
      case Loop(id, e) => LoopSound(cfg, s, id, e);
      case Batcher(b) => BatcherSound(cfg, s, b);
    }
  }

  lemma {:induction false} RunSound(cfg: Config, s: State, steps: seq<Step>)
    requires Sound(cfg, s) && Legal(cfg, s, steps)
    ensures Sound(cfg, After(cfg, s, steps))
    decreases |steps|
  {
    if steps != [] {
      StepSound(cfg, s, steps[0]);
      RunSound(cfg, Do(cfg, s, steps[0]), steps[1..]);
    }
  }

  /** In every reachable state nothing has been misused and the counter is the number of live workers
      and visibility loops; when stop has returned none is alive, nor is any sender, and no message is
      left in a channel or half processed. */
  lemma ShutdownSafety(cfg: Config, steps: seq<Step>)
    requires cfg.Valid() && Legal(cfg, Init(cfg), steps)
    ensures var s := After(cfg, Init(cfg), steps);
            && Shape(cfg, s)
            && !s.panicked
            && s.waitGroup == Live(s)
            && (s.poll.Stopped? ==>
                  && (forall w :: 0 <= w < cfg.workers ==> s.workers[w].Exited? && s.channels[w] == Channel([], true))
                  && (forall i :: 0 <= i < |s.lives| ==> s.lives[i].stage.Done? && !LoopLive(s.lives[i]))
                  && DB.AllExited(s.batcher))
  {
    InitSound(cfg);
    RunSound(cfg, Init(cfg), steps);
    var s := After(cfg, Init(cfg), steps);
    if s.poll.Stopped? {
      AliveMeansWaiting(cfg, s);
      AllDone(cfg, s);
    }
  }

  /** Once every worker has exited, every dispatched message has reached its fate. */
  lemma AllDone(cfg: Config, s: State)
    requires Placed(cfg, s) && ChannelsOk(cfg, s)
    requires forall w :: 0 <= w < cfg.workers ==> s.workers[w].Exited?
    ensures forall i :: 0 <= i < |s.lives| ==> s.lives[i].stage.Done?
  {
    forall i: nat | i < |s.lives| ensures s.lives[i].stage.Done? {
      var w := s.log[i].worker;
      assert QueueOk(cfg, s, w);
      assert s.channels[w].queue == [] && !Waits(s, w, i);
    }
  }
}
