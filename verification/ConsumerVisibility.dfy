/** Every running handler is watched over: its visibility loop does not give up before its limit. */
module ConsumerVisibility {
  import opened Visibility
  import opened Lifecycle
  import opened Consumer
  import opened ConsumerOrder
  import opened ConsumerShutdown

  /** Without a backoff, a loop has made ticks only, and returns only when it is told to or after its last. */
  ghost predicate EndedForCause(cfg: Config, l: Life, cancelled: bool) {
    l.loop.Ended? && !l.sig.backedOff ==>
      TicksOnly(cfg.Vis(), l.calls) && (cancelled || l.sig.dispatched || |l.calls| == cfg.limit + 1)
  }

  ghost predicate Causes(cfg: Config, s: State) {
    forall i :: 0 <= i < |s.lives| ==> EndedForCause(cfg, s.lives[i], s.cancelled)
  }

  lemma AdvanceCause(cfg: Config, p: Plan, l: Life, poisoned: bool, cancelled: bool)
    requires Active(l) && EndedForCause(cfg, l, cancelled)
    ensures EndedForCause(cfg, Advance(cfg, p, l, poisoned), cancelled)
  {}

  lemma LoopCause(cfg: Config, p: Plan, l: Life, e: Event, cancelled: bool)
    requires LifeOk(cfg, p, l) && Ready(cfg.Vis(), l.loop, e, l.sig, cancelled)
    ensures EndedForCause(cfg, LoopStep(cfg, l, e), cancelled)
  {
    if l.loop.Select? {
      TicksLength(cfg.Vis(), l.loop.count);
    }
  }

  /** Only message id has changed, and a cancellation is not undone. */
  lemma OneChanged(cfg: Config, s: State, t: State, id: nat)
    requires Causes(cfg, s) && OnlyChanges(s, t, id) && (s.cancelled ==> t.cancelled)
    requires EndedForCause(cfg, t.lives[id], t.cancelled)
    ensures Causes(cfg, t)
  {
    forall i | 0 <= i < |t.lives| ensures EndedForCause(cfg, t.lives[i], t.cancelled) {
      assert EndedForCause(cfg, s.lives[i], s.cancelled);
    }
  }

  lemma TakeCause(cfg: Config, s: State, w: nat)
    requires Placed(cfg, s) && Causes(cfg, s) && Enabled(cfg, s, Take(w))
    ensures Causes(cfg, Do(cfg, s, Take(w)))
  {
    TakenInTurn(cfg, s, w);
    var t := Do(cfg, s, Take(w));
    assert t == s.(channels := t.channels, workers := t.workers, lives := t.lives);
    OneChanged(cfg, s, t, s.channels[w].queue[0]);
  }

  lemma WorkCause(cfg: Config, s: State, w: nat)
    requires Placed(cfg, s) && Causes(cfg, s) && Enabled(cfg, s, Work(w))
    ensures Causes(cfg, Do(cfg, s, Work(w)))
  {
    var id := s.workers[w].id;
    WorkFrame(cfg, s, w);
    AdvanceCause(cfg, s.log[id].msg.plan, s.lives[id], Poisoned(s, id), s.cancelled);
    OneChanged(cfg, s, Do(cfg, s, Work(w)), id);
  }

  lemma LoopsCause(cfg: Config, s: State, id: nat, e: Event)
    requires Placed(cfg, s) && Causes(cfg, s) && Enabled(cfg, s, Loop(id, e))
    ensures Causes(cfg, Do(cfg, s, Loop(id, e)))
  {
    LoopFrame(cfg, s, id, e);
    assert LifeOk(cfg, s.log[id].msg.plan, s.lives[id]);
    LoopCause(cfg, s.log[id].msg.plan, s.lives[id], e, s.cancelled);
    OneChanged(cfg, s, Do(cfg, s, Loop(id, e)), id);
  }

  lemma OtherCause(cfg: Config, s: State, step: Step)
    requires Shape(cfg, s) && Causes(cfg, s) && Enabled(cfg, s, step) && !MovesMessage(step)
    ensures Causes(cfg, Do(cfg, s, step))
  {
    OtherFrame(cfg, s, step);
    assert s.cancelled ==> Do(cfg, s, step).cancelled;
  }

  lemma EnqueueCause(cfg: Config, s: State, w: nat)
    requires Sound(cfg, s) && Causes(cfg, s) && Enabled(cfg, s, Enqueue(w))
    ensures Causes(cfg, Do(cfg, s, Enqueue(w)))
  {
    NoSendOnClosed(cfg, s, w);
    EnqueueFrame(cfg, s, w);
  }

  lemma MoveCause(cfg: Config, s: State, step: Step)
    requires Sound(cfg, s) && Causes(cfg, s) && Enabled(cfg, s, step) && MovesMessage(step)
    ensures Causes(cfg, Do(cfg, s, step))
  {
    match step
    case Take(w) => TakeCause(cfg, s, w);
    case Work(w) => WorkCause(cfg, s, w);
    case Loop(id, e) => LoopsCause(cfg, s, id, e);
    case Enqueue(w) => EnqueueCause(cfg, s, w);
  }

  lemma StepCause(cfg: Config, s: State, step: Step)
    requires Sound(cfg, s) && Causes(cfg, s) && Enabled(cfg, s, step)
    ensures Causes(cfg, Do(cfg, s, step))
  {
    if MovesMessage(step) {
      MoveCause(cfg, s, step);
    } else {
      OtherCause(cfg, s, step);
    }
  }

  lemma {:induction false} RunCause(cfg: Config, s: State, steps: seq<Step>)
    requires Sound(cfg, s) && Causes(cfg, s) && Legal(cfg, s, steps)
    ensures Sound(cfg, After(cfg, s, steps)) && Causes(cfg, After(cfg, s, steps))
    decreases |steps|
  {
    if steps != [] {
      StepSound(cfg, s, steps[0]);
      StepCause(cfg, s, steps[0]);
      RunCause(cfg, Do(cfg, s, steps[0]), steps[1..]);
    }
  }

  /** In every reachable state that has not been cancelled, a message whose handler is running and has not
      signalled yet has a live visibility loop that has renewed it only by its ticks, unless that loop
      has already made all of its limit+1 renewals. */
  lemma HandlerIsCovered(cfg: Config, steps: seq<Step>, i: nat)
    requires cfg.Valid() && Legal(cfg, Init(cfg), steps) && i < |After(cfg, Init(cfg), steps).lives|
    requires var s := After(cfg, Init(cfg), steps);
             !s.cancelled && s.lives[i].stage.Handle? && !s.lives[i].sig.dispatched && !s.lives[i].sig.backedOff
    ensures var l := After(cfg, Init(cfg), steps).lives[i];
            && TicksOnly(cfg.Vis(), l.calls)
            && (LoopLive(l) || |l.calls| == cfg.limit + 1)
  {
    InitSound(cfg);
    RunCause(cfg, Init(cfg), steps);
    WhileHandling(cfg, After(cfg, Init(cfg), steps), i);
  }

  lemma WhileHandling(cfg: Config, s: State, i: nat)
    requires Placed(cfg, s) && Causes(cfg, s) && i < |s.lives| && !s.cancelled
    requires s.lives[i].stage.Handle? && !s.lives[i].sig.dispatched && !s.lives[i].sig.backedOff
    ensures TicksOnly(cfg.Vis(), s.lives[i].calls)
    ensures LoopLive(s.lives[i]) || |s.lives[i].calls| == cfg.limit + 1
  {
    assert LifeOk(cfg, s.log[i].msg.plan, s.lives[i]) && EndedForCause(cfg, s.lives[i], s.cancelled);
    CallsShape(cfg.Vis(), s.lives[i].loop, s.lives[i].calls);
  }

  function LoopSteps(i: nat, events: seq<Event>): seq<Step> {
    if events == [] then [] else [Loop(i, events[0])] + LoopSteps(i, events[1..])
  }

  /** What the loop of a message can do, the consumer can do. */
  lemma {:induction false} LoopRunIsRun(cfg: Config, s: State, i: nat, events: seq<Event>)
    requires Sound(cfg, s) && i < |s.lives| && LoopRun(cfg, s.lives[i], events, s.cancelled)
    ensures Legal(cfg, s, LoopSteps(i, events))
    ensures var t := After(cfg, s, LoopSteps(i, events));
            |t.lives| == |s.lives| && t.lives[i] == AfterLoop(cfg, s.lives[i], events)
    decreases |events|
  {
    if events != [] {
      var e := events[0];
      LoopFrame(cfg, s, i, e);
      StepSound(cfg, s, Loop(i, e));
      LoopRunIsRun(cfg, Do(cfg, s, Loop(i, e)), i, events[1..]);
      assert LoopSteps(i, events)[1..] == LoopSteps(i, events[1..]);
    }
  }

  /** In every reachable state, the loop of a message that process has let go of can end within three of its
      events, with no more calls unless a backoff waits that it still reads, which is then the one call. */
  lemma FinishedLoopsSettle(cfg: Config, steps: seq<Step>, i: nat) returns (events: seq<Event>)
    requires cfg.Valid() && Legal(cfg, Init(cfg), steps) && i < |After(cfg, Init(cfg), steps).lives|
    requires var l := After(cfg, Init(cfg), steps).lives[i]; l.stage.Done? && LoopLive(l)
    ensures var s := After(cfg, Init(cfg), steps);
            && |events| <= 3 && Legal(cfg, s, LoopSteps(i, events))
            && var l, t := s.lives[i], After(cfg, s, LoopSteps(i, events));
               && |t.lives| == |s.lives| && t.lives[i].loop.Ended?
               && |t.lives[i].calls| <= |l.calls| + 1
               && (l.sig.dispatched || s.cancelled ==> t.lives[i].calls == l.calls)
  {
    InitSound(cfg);
    RunSound(cfg, Init(cfg), steps);
    var s := After(cfg, Init(cfg), steps);
    assert LifeOk(cfg, s.log[i].msg.plan, s.lives[i]);
    events := LoopSettles(cfg, s.log[i].msg.plan, s.lives[i], s.cancelled);
    LoopRunIsRun(cfg, s, i, events);
  }
}
