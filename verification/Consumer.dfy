/** The consumer of one queue as a step system: the polling loop, W workers with bounded channels, one
    visibility loop per message, the delete batcher's senders, and the shutdown sequence.

    A run is any sequence of enabled steps, so the scheduler, the order of handler returns, the outcome
    of every API call and every choice of a select are free. A message is named by its position in the
    order of dispatch, which also stands for its receipt handle. */
module Consumer {
  import opened Options
  import opened Visibility
  import opened Lifecycle
  import GroupKey
  import DB = DeleteBatcher

  datatype Channel = Channel(queue: seq<nat>, closed: bool)

  datatype Worker = Idle | Busy(id: nat) | Exited

  /** Where the polling goroutine is, from the receive loop to the return of stop. */
  datatype Poll =
    | Top
    | Receiving
    | RetryWait
    | Dispatching(rest: seq<Msg>)
    | Closing(next: nat)   // closing the worker channels, one after the other
    | Joining              // waiting for workers and visibility loops
    | Flushing             // the batcher is closed; waiting for its senders
    | Stopped

  /** A dispatched message: its batch and the worker it was given to. */
  datatype Entry = Entry(msg: Msg, batch: nat, worker: nat)

  datatype State = State(
    cancelled: bool,
    poll: Poll,
    batches: seq<seq<Msg>>,              // history: what was received
    dropped: nat,                        // history: messages given up on cancellation
    log: seq<Entry>,                     // history: what was enqueued, in order
    lives: seq<Life>,                    // parallel to log
    channels: seq<Channel>,
    workers: seq<Worker>,
    poisoned: set<(nat, GroupKey.Bytes)>, // the failed groups of every batch's barrier
    waitGroup: int,
    batcher: DB.State<nat>,
    issued: seq<nat>,                    // history: deletes issued, in order
    emitted: seq<(nat, Metric)>,         // history: metrics emitted, in order
    panicked: bool)                      // a misuse of a channel or of the wait group

  datatype Step =
    | Cancel
    | PollTop
    | Receive(batch: seq<Msg>)
    | ReceiveError
    | RetryTimer
    | RetryCancelled
    | Enqueue(w: nat)
    | Drop
    | BatchDone
    | CloseChannel
    | Join
    | AwaitSenders
    | Take(w: nat)
    | WorkerExit(w: nat)
    | Work(w: nat)                       // worker w takes the next step of process
    | Loop(id: nat, event: Event)        // the visibility loop of message id
    | Batcher(step: DB.Step<nat>)        // a sender

  function Init(cfg: Config): State {
    State(false, Top, [], 0, [], [],
          seq(cfg.workers, i => Channel([], false)), seq(cfg.workers, i => Idle), {}, cfg.workers,
          DB.Init(cfg.workers * cfg.maxMessages, if cfg.batched then cfg.workers else 0), [], [], false)
  }

  predicate Poisoned(s: State, id: nat)
    requires id < |s.log|
  {
    (s.log[id].batch, s.log[id].msg.key) in s.poisoned
  }

  /** Well-formed indices; part of the invariant. */
  ghost predicate Shape(cfg: Config, s: State) {
    && cfg.Valid()
    && |s.channels| == |s.workers| == cfg.workers
    && |s.lives| == |s.log|
    && (forall i :: 0 <= i < |s.log| ==>
          && s.log[i].worker < cfg.workers
          && s.log[i].batch < |s.batches|
          && (cfg.mode.PerGroupID? ==> s.log[i].worker == GroupKey.Index(s.log[i].msg.key, cfg.workers)))
    && (forall w :: 0 <= w < cfg.workers && s.workers[w].Busy? ==>
          s.workers[w].id < |s.log| && Active(s.lives[s.workers[w].id]))
    && (s.poll.Closing? ==> s.poll.next <= cfg.workers)
    && (s.poll.Dispatching? ==> s.batches != [])
  }

  /** What each goroutine can do. A send on a closed channel does not block, and nothing here keeps a
      goroutine from sending on, or closing, a closed channel: that this never happens is proved. */
  ghost predicate Enabled(cfg: Config, s: State, step: Step)
    requires Shape(cfg, s)
  {
    match step
    case Cancel => !s.cancelled
    case PollTop => s.poll.Top?
    case Receive(batch) => s.poll.Receiving? && |batch| <= cfg.maxMessages
    case ReceiveError => s.poll.Receiving?
    case RetryTimer => s.poll.RetryWait?
    case RetryCancelled => s.poll.RetryWait? && s.cancelled
    case Enqueue(w) =>
      && s.poll.Dispatching? && s.poll.rest != [] && w < cfg.workers
      && (cfg.mode.PerGroupID? ==> w == GroupKey.Index(s.poll.rest[0].key, cfg.workers))
      && (s.channels[w].closed || |s.channels[w].queue| < cfg.maxMessages)
    case Drop => s.poll.Dispatching? && s.poll.rest != [] && s.cancelled
    case BatchDone => s.poll.Dispatching? && s.poll.rest == []
    case CloseChannel => s.poll.Closing?
    case Join => s.poll.Joining? && s.waitGroup == 0
    case AwaitSenders => s.poll.Flushing? && DB.AllExited(s.batcher)
    case Take(w) => w < cfg.workers && s.workers[w].Idle? && s.channels[w].queue != []
    case WorkerExit(w) =>
      w < cfg.workers && s.workers[w].Idle? && s.channels[w].queue == [] && s.channels[w].closed
    case Work(w) =>
      && w < cfg.workers && s.workers[w].Busy?
      && (s.lives[s.workers[w].id].stage.Commit? && cfg.batched ==>
            DB.Enabled(s.batcher, DB.Enqueue(s.workers[w].id)))
    case Loop(id, e) => id < |s.lives| && Ready(cfg.Vis(), s.lives[id].loop, e, s.lives[id].sig, s.cancelled)
    case Batcher(b) => !b.Enqueue? && !b.Close? && DB.Enabled(s.batcher, b)
  }

  function StopPolling(s: State): State { s.(poll := Closing(0)) }

  ghost function Do(cfg: Config, s: State, step: Step): State
    requires Shape(cfg, s) && Enabled(cfg, s, step)
  {
    match step
    case Cancel => s.(cancelled := true)
    case PollTop => if s.cancelled then StopPolling(s) else s.(poll := Receiving)
    case Receive(batch) => s.(poll := Dispatching(batch), batches := s.batches + [batch])
    case ReceiveError => if s.cancelled then StopPolling(s) else s.(poll := RetryWait)
    case RetryTimer => s.(poll := Top)
    case RetryCancelled => StopPolling(s)
    case Enqueue(w) =>
      if s.channels[w].closed then s.(panicked := true)
      else
        s.(poll := Dispatching(s.poll.rest[1..]),
           channels := s.channels[w := Channel(s.channels[w].queue + [|s.log|], false)],
           log := s.log + [Entry(s.poll.rest[0], |s.batches| - 1, w)],
           lives := s.lives + [BORN])
    case Drop => s.(poll := Dispatching(s.poll.rest[1..]), dropped := s.dropped + 1)
    case BatchDone => s.(poll := Top)
    case CloseChannel =>
      var k := s.poll.next;
      if k == cfg.workers then s.(poll := Joining)
      else
        s.(poll := Closing(k + 1), channels := s.channels[k := s.channels[k].(closed := true)],
           panicked := s.panicked || s.channels[k].closed)
    case Join =>
      if cfg.batched then
        s.(poll := Flushing, batcher := DB.Do(s.batcher, DB.Close), panicked := s.panicked || s.batcher.closed)
      else s.(poll := Stopped)
    case AwaitSenders => s.(poll := Stopped)
    case Take(w) =>
      var id := s.channels[w].queue[0];
      if id >= |s.lives| then s
      else
        s.(channels := s.channels[w := s.channels[w].(queue := s.channels[w].queue[1..])],
           workers := s.workers[w := Busy(id)],
           lives := s.lives[id := s.lives[id].(stage := Check)])
    case WorkerExit(w) => WaitGroupDone(s.(workers := s.workers[w := Exited]))
    case Work(w) => DoWork(cfg, s, w)
    case Loop(id, e) =>
      var t := s.(lives := s.lives[id := LoopStep(cfg, s.lives[id], e)]);
      if t.lives[id].loop.Ended? then WaitGroupDone(t) else t
    case Batcher(b) => s.(batcher := DB.Do(s.batcher, b))
  }

  /** A negative counter panics. */
  function WaitGroupDone(s: State): State {
    s.(waitGroup := s.waitGroup - 1, panicked := s.panicked || s.waitGroup <= 0)
  }

  /** Worker w advances its message, with the effect the stage has on the shared state. */
  ghost function DoWork(cfg: Config, s: State, w: nat): State
    requires Shape(cfg, s) && Enabled(cfg, s, Work(w))
  {
    var id := s.workers[w].id;
    var after := Advance(cfg, s.log[id].msg.plan, s.lives[id], Poisoned(s, id));
    var workers := if after.stage.Done? then s.workers[w := Idle] else s.workers;
    var t := s.(lives := s.lives[id := after], workers := workers);
    Effect(cfg, t, id, s.log[id], s.lives[id].stage)
  }

  /** The effect of one stage on the counter, the barrier, the batcher and the outside world. */
  function Effect(cfg: Config, t: State, id: nat, e: Entry, stage: Stage): State
    requires stage.Commit? && cfg.batched ==> DB.Enabled(t.batcher, DB.Enqueue(id))
  {
    match stage
    case Spawn =>
      // Adding to a counter that has reached zero races with the wait.
      t.(waitGroup := t.waitGroup + 1, panicked := t.panicked || t.waitGroup <= 0)
    case Fail => t.(poisoned := if cfg.Ordered() then t.poisoned + {(e.batch, e.msg.key)} else t.poisoned)
    case Commit =>
      if cfg.batched then
        t.(issued := t.issued + [id], batcher := DB.Do(t.batcher, DB.Enqueue(id)),
           panicked := t.panicked || t.batcher.closed)
      else t.(issued := t.issued + [id])
    case Observe => Emit(t, id, MetricOf(cfg, e.msg.plan, Failed))
    case Record => Emit(t, id, MetricOf(cfg, e.msg.plan, Committed))
    case _ => t
  }

  function Emit(s: State, id: nat, metric: Option<Metric>): State {
    if metric.Some? then s.(emitted := s.emitted + [(id, metric.value)]) else s
  }

  // ----- Runs -----

  ghost predicate Legal(cfg: Config, s: State, steps: seq<Step>)
    decreases |steps|
  {
    Shape(cfg, s) && (steps == [] || (Enabled(cfg, s, steps[0]) && Legal(cfg, Do(cfg, s, steps[0]), steps[1..])))
  }

  ghost function After(cfg: Config, s: State, steps: seq<Step>): State
    requires Legal(cfg, s, steps)
    decreases |steps|
  {
    if steps == [] then s else After(cfg, Do(cfg, s, steps[0]), steps[1..])
  }
}
