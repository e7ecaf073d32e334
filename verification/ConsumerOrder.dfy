/** Which message is where, and in which order each worker goes through its messages. */
module ConsumerOrder {
  import opened Visibility
  import opened Lifecycle
  import opened Consumer
  import GroupKey
  import DB = DeleteBatcher

  ghost predicate Increasing(q: seq<nat>) { forall a, b :: 0 <= a < b < |q| ==> q[a] < q[b] }

  /** Message i waits in worker w's channel. */
  predicate Waits(s: State, w: nat, i: nat)
    requires |s.lives| == |s.log|
  {
    i < |s.log| && s.log[i].worker == w && s.lives[i].stage.Queued?
  }

  /** A worker's channel holds exactly its messages that no one has taken, in the order of dispatch. */
  ghost predicate QueueOk(cfg: Config, s: State, w: nat)
    requires |s.lives| == |s.log| && w < |s.channels|
  {
    && |s.channels[w].queue| <= cfg.maxMessages
    && Increasing(s.channels[w].queue)
    && forall i: nat :: i in s.channels[w].queue <==> Waits(s, w, i)
  }

  ghost predicate Queues(cfg: Config, s: State)
    requires Shape(cfg, s)
  {
    forall w :: 0 <= w < cfg.workers ==> QueueOk(cfg, s, w)
  }

  /** A message being processed is held by its worker, and by no other. */
  ghost predicate Holders(cfg: Config, s: State)
    requires Shape(cfg, s)
  {
    && (forall w :: 0 <= w < cfg.workers && s.workers[w].Busy? ==> s.log[s.workers[w].id].worker == w)
    && (forall i :: 0 <= i < |s.log| && Active(s.lives[i]) ==> s.workers[s.log[i].worker] == Busy(i))
  }

  /** A worker has finished with every earlier message of its own before it touches the next one. */
  ghost predicate InTurn(cfg: Config, s: State)
    requires Shape(cfg, s)
  {
    forall i, j :: 0 <= i < j < |s.log| && s.log[i].worker == s.log[j].worker && !s.lives[j].stage.Queued? ==>
                     s.lives[i].stage.Done?
  }

  ghost predicate Lives(cfg: Config, s: State)
    requires Shape(cfg, s)
  {
    forall i :: 0 <= i < |s.log| ==> LifeOk(cfg, s.log[i].msg.plan, s.lives[i])
  }

  ghost predicate Placed(cfg: Config, s: State) {
    Shape(cfg, s) && Queues(cfg, s) && Holders(cfg, s) && InTurn(cfg, s) && Lives(cfg, s)
  }

  /** What a step of one goroutine may do to the messages: nothing, one new one, or one moved on. */
  ghost predicate OnlyChanges(s: State, t: State, id: nat) {
    && t.log == s.log && |t.lives| == |s.lives| && id < |s.lives|
    && forall i :: 0 <= i < |s.lives| && i != id ==> t.lives[i] == s.lives[i]
  }

  /** Removing the head of a channel. */
  lemma Tail(q: seq<nat>)
    requires q != [] && Increasing(q)
    ensures Increasing(q[1..])
    ensures forall i: nat :: i in q[1..] <==> i in q && i != q[0]
    ensures forall i: nat :: i in q ==> q[0] <= i
  {}

  /** The head of a channel is taken only when its worker has finished everything before it. */
  lemma TakenInTurn(cfg: Config, s: State, w: nat)
    requires Placed(cfg, s) && Enabled(cfg, s, Take(w))
    ensures var id := s.channels[w].queue[0];
            && Waits(s, w, id)
            && (forall i :: 0 <= i < id && s.log[i].worker == w ==> s.lives[i].stage.Done?)
  {
    var q := s.channels[w].queue;
    assert QueueOk(cfg, s, w);
    assert q[0] in q;
    Tail(q);
    forall i: nat | i < q[0] && s.log[i].worker == w ensures s.lives[i].stage.Done? {
      assert !Waits(s, w, i);
      assert !Active(s.lives[i]);
    }
  }

  lemma TakeQueues(cfg: Config, s: State, t: State, w: nat, id: nat)
    requires Shape(cfg, s) && Shape(cfg, t) && Queues(cfg, s) && OnlyChanges(s, t, id)
    requires w < cfg.workers && s.channels[w].queue != [] && id == s.channels[w].queue[0]
    requires t.lives[id].stage.Check?
    requires t.channels == s.channels[w := s.channels[w].(queue := s.channels[w].queue[1..])]
    ensures Queues(cfg, t)
  {
    assert QueueOk(cfg, s, w);
    Tail(s.channels[w].queue);
    assert id in s.channels[w].queue && Waits(s, w, id);
    forall v: nat | v < cfg.workers ensures QueueOk(cfg, t, v) {
      assert QueueOk(cfg, s, v);
      forall i: nat ensures i in t.channels[v].queue <==> Waits(t, v, i) {
        assert i in s.channels[v].queue <==> Waits(s, v, i);
      }
    }
  }

  lemma TakePlaced(cfg: Config, s: State, w: nat)
    requires Placed(cfg, s) && Enabled(cfg, s, Take(w))
    ensures Placed(cfg, Do(cfg, s, Take(w)))
  {
    TakenInTurn(cfg, s, w);
    Taken(cfg, s, Do(cfg, s, Take(w)), w, s.channels[w].queue[0]);
  }

  lemma Taken(cfg: Config, s: State, t: State, w: nat, id: nat)
    requires Placed(cfg, s) && w < cfg.workers && s.workers[w].Idle? && Waits(s, w, id)
    requires s.channels[w].queue != [] && id == s.channels[w].queue[0]
    requires forall i :: 0 <= i < id && s.log[i].worker == w ==> s.lives[i].stage.Done?
    requires t.log == s.log && t.batches == s.batches && t.poll == s.poll
    requires t.channels == s.channels[w := s.channels[w].(queue := s.channels[w].queue[1..])]
    requires t.workers == s.workers[w := Busy(id)]
    requires t.lives == s.lives[id := s.lives[id].(stage := Check)]
    ensures Placed(cfg, t)
  {
    assert OnlyChanges(s, t, id);
    assert LifeOk(cfg, s.log[id].msg.plan, s.lives[id]);
    assert Shape(cfg, t);
    TakeQueues(cfg, s, t, w, id);
    TakeHolders(cfg, s, t, w, id);
  }

  lemma TakeHolders(cfg: Config, s: State, t: State, w: nat, id: nat)
    requires Shape(cfg, s) && Shape(cfg, t) && Holders(cfg, s) && InTurn(cfg, s) && OnlyChanges(s, t, id)
    requires w < cfg.workers && Waits(s, w, id) && s.workers[w].Idle? && t.lives[id].stage.Check?
    requires forall i :: 0 <= i < id && s.log[i].worker == w ==> s.lives[i].stage.Done?
    requires t.workers == s.workers[w := Busy(id)]
    ensures Holders(cfg, t) && InTurn(cfg, t)
  {}

  lemma EnqueueQueues(cfg: Config, s: State, t: State, w: nat, e: Entry)
    requires Shape(cfg, s) && Shape(cfg, t) && Queues(cfg, s) && w < cfg.workers && e.worker == w
    requires |s.channels[w].queue| < cfg.maxMessages
    requires t.log == s.log + [e] && t.lives == s.lives + [BORN]
    requires t.channels == s.channels[w := Channel(s.channels[w].queue + [|s.log|], false)]
    ensures Queues(cfg, t)
  {
    forall v: nat | v < cfg.workers ensures QueueOk(cfg, t, v) {
      assert QueueOk(cfg, s, v);
      forall i: nat ensures i in t.channels[v].queue <==> Waits(t, v, i) {
        assert i in s.channels[v].queue <==> Waits(s, v, i);
      }
      forall a | 0 <= a < |s.channels[v].queue| ensures s.channels[v].queue[a] < |s.log| {
        assert s.channels[v].queue[a] in s.channels[v].queue;
      }
    }
  }

  lemma EnqueueFrame(cfg: Config, s: State, w: nat)
    requires Shape(cfg, s) && Enabled(cfg, s, Enqueue(w)) && !s.channels[w].closed
    ensures var t := Do(cfg, s, Enqueue(w));
            && t == s.(poll := t.poll, channels := t.channels, log := t.log, lives := t.lives)
            && s.poll.Dispatching? && s.poll.rest != []
            && t.poll == Dispatching(s.poll.rest[1..])
            && t.log == s.log + [Entry(s.poll.rest[0], |s.batches| - 1, w)]
            && t.lives == s.lives + [BORN]
            && t.channels == s.channels[w := Channel(s.channels[w].queue + [|s.log|], false)]
            && |s.channels[w].queue| < cfg.maxMessages
            && (cfg.mode.PerGroupID? ==> w == GroupKey.Index(s.poll.rest[0].key, cfg.workers))
  {}

  lemma EnqueuePlaced(cfg: Config, s: State, w: nat)
    requires Placed(cfg, s) && Enabled(cfg, s, Enqueue(w)) && !s.channels[w].closed
    ensures Placed(cfg, Do(cfg, s, Enqueue(w)))
  {
    EnqueueFrame(cfg, s, w);
    var t := Do(cfg, s, Enqueue(w));
    BornOk(cfg, s.poll.rest[0].plan);
    assert Shape(cfg, t);
    EnqueueQueues(cfg, s, t, w, Entry(s.poll.rest[0], |s.batches| - 1, w));
  }

  /** A message that neither enters nor leaves its channel moves on. */
  lemma ChangePlaced(cfg: Config, s: State, t: State, id: nat)
    requires Placed(cfg, s) && Shape(cfg, t) && OnlyChanges(s, t, id) && |t.channels| == |s.channels|
    requires forall w :: 0 <= w < cfg.workers ==> t.channels[w].queue == s.channels[w].queue
    requires !t.lives[id].stage.Queued? && (s.lives[id].stage.Done? ==> t.lives[id].stage.Done?)
    requires LifeOk(cfg, s.log[id].msg.plan, t.lives[id]) && !s.lives[id].stage.Queued?
    requires Holders(cfg, t)
    ensures Placed(cfg, t)
  {
    forall v: nat | v < cfg.workers ensures QueueOk(cfg, t, v) {
      assert QueueOk(cfg, s, v);
      forall i: nat ensures i in t.channels[v].queue <==> Waits(t, v, i) {
        assert i in s.channels[v].queue <==> Waits(s, v, i);
      }
    }
  }

  lemma EffectFrame(cfg: Config, t: State, id: nat, e: Entry, stage: Stage)
    requires stage.Commit? && cfg.batched ==> DB.Enabled(t.batcher, DB.Enqueue(id))
    ensures var u := Effect(cfg, t, id, e, stage);
            u == t.(waitGroup := u.waitGroup, panicked := u.panicked, poisoned := u.poisoned, issued := u.issued,
                    batcher := u.batcher, emitted := u.emitted)
  {}

  /** What a worker's step leaves alone. */
  lemma WorkFrame(cfg: Config, s: State, w: nat)
    requires Shape(cfg, s) && Enabled(cfg, s, Work(w))
    ensures var t, id := Do(cfg, s, Work(w)), s.workers[w].id;
            && t.log == s.log && t.channels == s.channels && t.batches == s.batches && t.poll == s.poll
            && t.cancelled == s.cancelled && t.dropped == s.dropped
            && t.lives == s.lives[id := Advance(cfg, s.log[id].msg.plan, s.lives[id], Poisoned(s, id))]
            && t.workers == (if t.lives[id].stage.Done? then s.workers[w := Idle] else s.workers)
  {
    var id := s.workers[w].id;
    var after := Advance(cfg, s.log[id].msg.plan, s.lives[id], Poisoned(s, id));
    var workers := if after.stage.Done? then s.workers[w := Idle] else s.workers;
    var t := s.(lives := s.lives[id := after], workers := workers);
    EffectFrame(cfg, t, id, s.log[id], s.lives[id].stage);
  }

  lemma WorkPlaced(cfg: Config, s: State, w: nat)
    requires Placed(cfg, s) && Enabled(cfg, s, Work(w))
    ensures Placed(cfg, Do(cfg, s, Work(w)))
  {
    WorkFrame(cfg, s, w);
    Worked(cfg, s, Do(cfg, s, Work(w)), w);
  }

  lemma Worked(cfg: Config, s: State, t: State, w: nat)
    requires Placed(cfg, s) && w < cfg.workers && s.workers[w].Busy?
    requires t.log == s.log && t.channels == s.channels && t.batches == s.batches && t.poll == s.poll
    requires var id := s.workers[w].id;
             && t.lives == s.lives[id := Advance(cfg, s.log[id].msg.plan, s.lives[id], Poisoned(s, id))]
             && t.workers == (if t.lives[id].stage.Done? then s.workers[w := Idle] else s.workers)
    ensures Placed(cfg, t)
  {
    var id := s.workers[w].id;
    assert s.log[id].worker == w;
    AdvanceOk(cfg, s.log[id].msg.plan, s.lives[id], Poisoned(s, id));
    assert OnlyChanges(s, t, id);
    forall v | 0 <= v < cfg.workers && t.workers[v].Busy?
      ensures t.workers[v] == s.workers[v] && (v != w ==> t.workers[v].id != id)
    {
      assert v != w ==> s.log[s.workers[v].id].worker == v;
    }
    assert Shape(cfg, t);
    ChangePlaced(cfg, s, t, id);
  }

  lemma LoopPlaced(cfg: Config, s: State, id: nat, e: Event)
    requires Placed(cfg, s) && Enabled(cfg, s, Loop(id, e))
    ensures Placed(cfg, Do(cfg, s, Loop(id, e)))
  {
    var t := Do(cfg, s, Loop(id, e));
    assert t.workers == s.workers && t.channels == s.channels && t.batches == s.batches && t.poll == s.poll;
    Looped(cfg, s, t, id, e);
  }

  lemma Looped(cfg: Config, s: State, t: State, id: nat, e: Event)
    requires Placed(cfg, s) && id < |s.lives| && Ready(cfg.Vis(), s.lives[id].loop, e, s.lives[id].sig, s.cancelled)
    requires t.log == s.log && t.channels == s.channels && t.workers == s.workers
    requires t.batches == s.batches && t.poll == s.poll
    requires t.lives == s.lives[id := LoopStep(cfg, s.lives[id], e)]
    ensures Placed(cfg, t)
  {
    assert LifeOk(cfg, s.log[id].msg.plan, s.lives[id]);
    LoopStepOk(cfg, s.log[id].msg.plan, s.lives[id], e, s.cancelled);
    assert OnlyChanges(s, t, id);
    assert Started(s.lives[id]);
    forall i | 0 <= i < |s.lives| ensures t.lives[i].stage == s.lives[i].stage {}
    assert Shape(cfg, t);
    ChangePlaced(cfg, s, t, id);
  }

  /** A step that moves no message. */
  lemma FramePlaced(cfg: Config, s: State, t: State)
    requires Placed(cfg, s) && Shape(cfg, t) && t.log == s.log && t.lives == s.lives
    requires forall w :: 0 <= w < cfg.workers ==> t.channels[w].queue == s.channels[w].queue
    requires forall w :: 0 <= w < cfg.workers ==>
                           t.workers[w] == s.workers[w] || (s.workers[w].Idle? && t.workers[w].Exited?)
    ensures Placed(cfg, t)
  {
    forall v: nat | v < cfg.workers ensures QueueOk(cfg, t, v) {
      assert QueueOk(cfg, s, v);
      forall i: nat ensures i in t.channels[v].queue <==> Waits(t, v, i) {
        assert i in s.channels[v].queue <==> Waits(s, v, i);
      }
    }
  }

  predicate MovesMessage(step: Step) { step.Take? || step.Enqueue? || step.Work? || step.Loop? }

  predicate OfPoller(step: Step) {
    || step.Cancel? || step.PollTop? || step.Receive? || step.ReceiveError? || step.RetryTimer? || step.RetryCancelled?
    || step.Drop? || step.BatchDone? || step.CloseChannel? || step.AwaitSenders?
  }

  /** The polling loop only ever changes its own position, what it has received, and which channels are
      closed. */
  lemma PollTouches(cfg: Config, s: State, step: Step)
    requires Shape(cfg, s) && Enabled(cfg, s, step) && OfPoller(step)
    ensures var t := Do(cfg, s, step);
            && t == s.(cancelled := t.cancelled, poll := t.poll, batches := t.batches, dropped := t.dropped,
                       channels := t.channels, panicked := t.panicked)
            && (t.channels == s.channels ||
                (step.CloseChannel? && s.poll.next < cfg.workers &&
                 t.channels == s.channels[s.poll.next := s.channels[s.poll.next].(closed := true)]))
            && |t.batches| >= |s.batches|
            && (t.poll.Closing? ==> t.poll.next <= cfg.workers)
            && (t.poll.Dispatching? ==> t.batches != [])
  {}

  /** What the steps that move no message leave alone. */
  lemma OtherFrame(cfg: Config, s: State, step: Step)
    requires Shape(cfg, s) && Enabled(cfg, s, step) && !MovesMessage(step)
    ensures var t := Do(cfg, s, step);
            && Shape(cfg, t) && t.log == s.log && t.lives == s.lives && t.issued == s.issued
            && t.emitted == s.emitted && t.poisoned == s.poisoned
            && (forall w :: 0 <= w < cfg.workers ==>
                  && t.channels[w].queue == s.channels[w].queue
                  && (t.workers[w] == s.workers[w] || (s.workers[w].Idle? && t.workers[w].Exited?)))
  {
    var t := Do(cfg, s, step);
    if OfPoller(step) {
      PollTouches(cfg, s, step);
    } else if step.WorkerExit? {
      assert t == s.(workers := s.workers[step.w := Exited], waitGroup := t.waitGroup, panicked := t.panicked);
    } else {
      assert t == s.(batcher := t.batcher, poll := t.poll, panicked := t.panicked);
    }
  }

  lemma StepPlaced(cfg: Config, s: State, step: Step)
    requires Placed(cfg, s) && Enabled(cfg, s, step)
    requires step.Enqueue? ==> !s.channels[step.w].closed
    ensures Placed(cfg, Do(cfg, s, step))
  {
    if MovesMessage(step) {
      match step
      case Take(w) => TakePlaced(cfg, s, w);
      case Enqueue(w) => EnqueuePlaced(cfg, s, w);
      case Work(w) => WorkPlaced(cfg, s, w);
      case Loop(id, e) => LoopPlaced(cfg, s, id, e);
    } else {
      OtherFrame(cfg, s, step);
      FramePlaced(cfg, s, Do(cfg, s, step));
    }
  }

  lemma InitPlaced(cfg: Config)
    requires cfg.Valid()
    ensures Placed(cfg, Init(cfg))
  {}
}
