/** The polling loop goes on receiving until a cancellation, and stops at once after one. */
module ConsumerPolling {
  import opened Lifecycle
  import opened Consumer
  import opened ConsumerOrder
  import opened ConsumerShutdown
  import opened ConsumerHistory
  import opened ConsumerProgress
  import GroupKey

  /** The polling loop has returned. */
  predicate Left(poll: Poll) { poll.Closing? || poll.Joining? || poll.Flushing? || poll.Stopped? }

  ghost predicate LeftWhenCancelled(s: State) { Left(s.poll) ==> s.cancelled }

  lemma StepLeaves(cfg: Config, s: State, step: Step)
    requires Shape(cfg, s) && Enabled(cfg, s, step) && LeftWhenCancelled(s)
    ensures LeftWhenCancelled(Do(cfg, s, step))
  {
    if step.Work? {
      WorkFrame(cfg, s, step.w);
    }
  }

  lemma {:induction false} RunLeaves(cfg: Config, s: State, steps: seq<Step>)
    requires Legal(cfg, s, steps) && LeftWhenCancelled(s)
    ensures LeftWhenCancelled(After(cfg, s, steps))
    decreases |steps|
  {
    if steps != [] {
      StepLeaves(cfg, s, steps[0]);
      RunLeaves(cfg, Do(cfg, s, steps[0]), steps[1..]);
    }
  }

  /** In every reachable state the polling loop has returned, or the shutdown begun, only if the run has been
      cancelled. */
  lemma StopsOnlyWhenCancelled(cfg: Config, steps: seq<Step>)
    requires Legal(cfg, Init(cfg), steps)
    ensures Left(After(cfg, Init(cfg), steps).poll) ==> After(cfg, Init(cfg), steps).cancelled
  {
    RunLeaves(cfg, Init(cfg), steps);
  }

  // ----- Without a cancellation it comes back to receiving -----

  ghost predicate NoCancel(steps: seq<Step>) { Cancel !in steps }

  lemma CancelledByCancel(cfg: Config, s: State, step: Step)
    requires Shape(cfg, s) && Enabled(cfg, s, step) && !step.Cancel?
    ensures Do(cfg, s, step).cancelled == s.cancelled
  {
    if step.Work? {
      WorkFrame(cfg, s, step.w);
    }
  }

  /** One step on the way back to a receive: of the polling loop, or of a worker or sender it waits for. */
  lemma TowardsReceive(cfg: Config, s: State) returns (step: Step)
    requires Sound(cfg, s) && !s.cancelled && !Left(s.poll) && !s.poll.Receiving?
    ensures Enabled(cfg, s, step) && !step.Cancel?
    ensures Do(cfg, s, step).poll.Receiving? || Measure(cfg, Do(cfg, s, step)) < Measure(cfg, s)
  {
    match s.poll
    case Top => step := PollTop;
    case RetryWait =>
      step := RetryTimer;
      WaitShrinks(cfg, s);
    case Dispatching(rest) =>
      if rest == [] {
        step := BatchDone;
        BatchShrinks(cfg, s);
      } else {
        step := DispatchNext(cfg, s);
      }
  }

  lemma StillPolling(cfg: Config, s: State, step: Step)
    requires Sound(cfg, s) && !s.cancelled && !Left(s.poll) && Enabled(cfg, s, step) && !step.Cancel?
    ensures var t := Do(cfg, s, step); Sound(cfg, t) && !t.cancelled && !Left(t.poll)
  {
    StepSound(cfg, s, step);
    StepLeaves(cfg, s, step);
    CancelledByCancel(cfg, s, step);
  }

  lemma WaitShrinks(cfg: Config, s: State)
    requires Shape(cfg, s) && s.poll.RetryWait?
    ensures Measure(cfg, Do(cfg, s, RetryTimer)) < Measure(cfg, s)
  {}

  lemma BatchShrinks(cfg: Config, s: State)
    requires Shape(cfg, s) && s.poll.Dispatching? && s.poll.rest == []
    ensures Measure(cfg, Do(cfg, s, BatchDone)) < Measure(cfg, s)
  {}

  /** The next message is enqueued, or a worker whose channel is full gets on, or a sender for it. */
  lemma DispatchNext(cfg: Config, s: State) returns (step: Step)
    requires Sound(cfg, s) && s.poll.Dispatching? && s.poll.rest != []
    ensures Enabled(cfg, s, step) && (step.Enqueue? || step.Take? || step.WorkerExit? || step.Work? || step.Batcher?)
    ensures Measure(cfg, Do(cfg, s, step)) < Measure(cfg, s)
  {
    var w := if cfg.mode.PerGroupID? then GroupKey.Index(s.poll.rest[0].key, cfg.workers) else 0;
    step := if |s.channels[w].queue| < cfg.maxMessages then Enqueue(w) else Take(w);
    if |s.channels[w].queue| >= cfg.maxMessages {
      step := WorkerCanMove(cfg, s, w);
    }
    if MovesMessage(step) {
      MoveShrinks(cfg, s, step);
    } else {
      EndShrinks(cfg, s, step);
    }
  }

  /** From any state of a run that has not been cancelled, some continuation without a cancellation brings
      the polling loop back to a receive request. */
  lemma {:induction false} BackToReceive(cfg: Config, s: State) returns (steps: seq<Step>)
    requires Sound(cfg, s) && !s.cancelled && !Left(s.poll)
    ensures Legal(cfg, s, steps) && NoCancel(steps)
    ensures After(cfg, s, steps).poll.Receiving? && !After(cfg, s, steps).cancelled
    decreases Measure(cfg, s)
  {
    if s.poll.Receiving? {
      steps := [];
    } else {
      var step := TowardsReceive(cfg, s);
      var t := Do(cfg, s, step);
      StillPolling(cfg, s, step);
      if t.poll.Receiving? {
        Prepend(cfg, s, step, []);
        steps := [step] + [];
      } else {
        var rest := BackToReceive(cfg, t);
        Prepend(cfg, s, step, rest);
        steps := [step] + rest;
      }
    }
  }

  /** Polling goes on: from every reachable state that has not been cancelled a receive request follows,
      without a cancellation, in which the route's limit of messages can be received. */
  lemma KeepsPolling(cfg: Config, before: seq<Step>, batch: seq<Msg>) returns (steps: seq<Step>)
    requires cfg.Valid() && Legal(cfg, Init(cfg), before) && !After(cfg, Init(cfg), before).cancelled
    requires |batch| <= cfg.maxMessages
    ensures var s := After(cfg, Init(cfg), before);
            && Legal(cfg, s, steps) && NoCancel(steps)
            && var t := After(cfg, s, steps); t.poll.Receiving? && Shape(cfg, t) && Enabled(cfg, t, Receive(batch))
  {
    InitSound(cfg);
    RunSound(cfg, Init(cfg), before);
    StopsOnlyWhenCancelled(cfg, before);
    var s := After(cfg, Init(cfg), before);
    steps := BackToReceive(cfg, s);
    RunSound(cfg, s, steps);
  }

  // ----- After a cancellation it stops -----

  /** Once cancelled, no retry wait and no receive request begins any more; a receive request that fails, a
      retry wait and the top of the loop lead straight to the shutdown. */
  lemma StopsAtOnce(cfg: Config, s: State, step: Step)
    requires Shape(cfg, s) && Enabled(cfg, s, step) && s.cancelled
    ensures var t := Do(cfg, s, step);
            && (t.poll.RetryWait? ==> s.poll.RetryWait?) && (t.poll.Receiving? ==> s.poll.Receiving?)
            && (s.poll.Top? ==> t.poll == s.poll || t.poll == Closing(0))
            && (s.poll.Receiving? ==> t.poll == s.poll || t.poll == Closing(0) || step.Receive?)
    ensures s.poll.Top? ==> Enabled(cfg, s, PollTop) && Do(cfg, s, PollTop).poll == Closing(0)
    ensures s.poll.Receiving? ==> Enabled(cfg, s, ReceiveError) && Do(cfg, s, ReceiveError).poll == Closing(0)
    ensures s.poll.RetryWait? ==> Enabled(cfg, s, RetryCancelled) && Do(cfg, s, RetryCancelled).poll == Closing(0)
  {
    if step.Work? {
      WorkFrame(cfg, s, step.w);
    }
  }
}
