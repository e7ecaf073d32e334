/** The scheduled retry model as a closed loop: entry queue, consumer, schedules, dead-letter queue and
    the scheduler that fires the schedules back into the queue.

    Every API call may fail, a worker may stop at any point, a message may be received again before it is
    deleted, and a schedule may fire more than once. Message ids are fresh on every send. */
module RetryLoop {
  import opened Options
  import opened Decimal
  import opened Attributes
  import B = Backoff

  /** The validated configuration of the route. */
  datatype Config = Config(maxRetryCount: nat, base: nat, maxDelay: nat)

  predicate Valid(cfg: Config) { cfg.maxRetryCount <= B.MAX_RETRY_COUNT }

  datatype Message = Message(body: string, group: string, attrs: map<string, string>)

  function CountOf(m: Message): nat { ParseRetryCount(m.attrs) }

  /** A message somewhere in the loop, with its history: the message it descends from, how many times it
      has been republished since, the user attributes that survived the first time, and the time before
      which it should not have been retried. */
  datatype Copy = Copy(msg: Message, origin: nat, hops: nat, survived: map<string, string>, readyAt: nat)

  datatype Schedule = Schedule(copy: Copy, fireAt: nat, fired: bool)

  /** A worker has a copy: its handler is running, or it is about to delete the copy. */
  datatype Flight = Flight(id: nat, copy: Copy, deleting: bool)

  datatype State = State(
    now: nat,
    nextId: nat,
    queue: map<nat, Copy>,
    schedules: map<nat, Schedule>,
    deadLetters: map<nat, Copy>,
    flights: map<nat, Flight>,
    origins: seq<Message>,    // history: the messages that entered from outside
    handled: set<nat>,        // history: the origins handled successfully
    last: seq<nat>)           // history: the most republished copy made of each origin

  datatype Step =
    | Tick(elapsed: nat)
    | Enter(msg: Message)               // a producer sends a message
    | Receive(id: nat)                  // ... possibly again
    | Succeed(flight: nat)              // the handler succeeds
    | Reschedule(flight: nat, table: Table)  // the handler fails and the schedule is created
    | DeadLetter(flight: nat, table: Table)  // the handler fails for good and the DLQ accepts the copy
    | Abandon(flight: nat)              // an API call failed, or the worker stopped: the copy stays
    | Delete(flight: nat)               // the delete works
    | Fire(schedule: nat)               // the scheduler sends the copy
    | Clear(schedule: nat)              // ... and deletes the schedule

  const INIT := State(0, 0, map[], map[], map[], map[], [], {}, [])

  predicate Handling(s: State, f: nat) { f in s.flights && !s.flights[f].deleting }

  /** A failed message whose next count is within the limit is republished with that count. */
  ghost predicate MayRetry(cfg: Config, m: Message, table: Table) {
    CountOf(m) + 1 <= cfg.maxRetryCount && Republished(m.attrs, CountOf(m) + 1, table)
  }

  /** Beyond the limit it goes to the dead-letter queue, again with the next count. */
  ghost predicate MustBury(cfg: Config, m: Message, table: Table) {
    CountOf(m) + 1 > cfg.maxRetryCount && DeadLettered(m.attrs, CountOf(m) + 1, table)
  }

  ghost predicate Enabled(cfg: Config, s: State, step: Step) {
    match step
    case Tick(_) => true
    // The next count must be an integer of the machine.
    case Enter(m) => CountOf(m) < MAX_INT
    case Receive(id) => id in s.queue
    case Succeed(f) => Handling(s, f)
    case Reschedule(f, table) => Handling(s, f) && MayRetry(cfg, s.flights[f].copy.msg, table)
    case DeadLetter(f, table) => Handling(s, f) && MustBury(cfg, s.flights[f].copy.msg, table)
    case Abandon(f) => f in s.flights
    case Delete(f) => f in s.flights && s.flights[f].deleting
    case Fire(i) => i in s.schedules && s.now >= s.schedules[i].fireAt
    case Clear(i) => i in s.schedules && s.schedules[i].fired
  }

  function Next(c: Copy, table: Table, readyAt: nat): Copy {
    var texts := Texts(table);
    Copy(c.msg.(attrs := texts), c.origin, c.hops + 1, if c.hops == 0 then UserPart(texts) else c.survived, readyAt)
  }

  /** The schedule for the next attempt: it fires, to the second, once the backoff is over. */
  function Retry(cfg: Config, c: Copy, table: Table, now: nat): Schedule {
    var delay := B.Delay(CountOf(c.msg) + 1, cfg.base, cfg.maxDelay);
    Schedule(Next(c, table, now + delay), B.ScheduleAt(now, delay), false)
  }

  function Raise(last: seq<nat>, c: Copy): seq<nat> {
    if c.origin < |last| && last[c.origin] < c.hops then last[c.origin := c.hops] else last
  }

  ghost function Do(cfg: Config, s: State, step: Step): State
    requires Enabled(cfg, s, step)
  {
    match step
    case Tick(d) => s.(now := s.now + d)
    case Enter(m) =>
      s.(queue := s.queue[s.nextId := Copy(m, |s.origins|, 0, map[], 0)], nextId := s.nextId + 1,
         origins := s.origins + [m], last := s.last + [0])
    case Receive(id) => s.(flights := s.flights[s.nextId := Flight(id, s.queue[id], false)], nextId := s.nextId + 1)
    case Succeed(f) =>
      s.(handled := s.handled + {s.flights[f].copy.origin}, flights := s.flights[f := s.flights[f].(deleting := true)])
    case Reschedule(f, table) =>
      var retry := Retry(cfg, s.flights[f].copy, table, s.now);
      s.(schedules := s.schedules[s.nextId := retry], nextId := s.nextId + 1,
         flights := s.flights[f := s.flights[f].(deleting := true)], last := Raise(s.last, retry.copy))
    case DeadLetter(f, table) =>
      var n := Next(s.flights[f].copy, table, s.now);
      s.(deadLetters := s.deadLetters[s.nextId := n], nextId := s.nextId + 1,
         flights := s.flights[f := s.flights[f].(deleting := true)], last := Raise(s.last, n))
    case Abandon(f) => s.(flights := s.flights - {f})
    case Delete(f) => s.(queue := s.queue - {s.flights[f].id}, flights := s.flights - {f})
    case Fire(i) =>
      s.(queue := s.queue[s.nextId := s.schedules[i].copy], nextId := s.nextId + 1,
         schedules := s.schedules[i := s.schedules[i].(fired := true)])
    case Clear(i) => s.(schedules := s.schedules - {i})
  }

  ghost predicate Legal(cfg: Config, s: State, steps: seq<Step>)
    decreases |steps|
  {
    steps == [] || (Enabled(cfg, s, steps[0]) && Legal(cfg, Do(cfg, s, steps[0]), steps[1..]))
  }

  ghost function After(cfg: Config, s: State, steps: seq<Step>): State
    requires Legal(cfg, s, steps)
    decreases |steps|
  {
    if steps == [] then s else After(cfg, Do(cfg, s, steps[0]), steps[1..])
  }

  // ----- The invariant of one copy -----

  /** Body and group never change, the count text reads back as the count at entry plus the number of
      republications, and the user attributes that survive the first one never change again. */
  ghost predicate Faithful(origins: seq<Message>, c: Copy) {
    && c.origin < |origins|
    && var o := origins[c.origin];
       && CountOf(o) < MAX_INT
       && c.msg.body == o.body && c.msg.group == o.group
       && (c.hops == 0 ==> c.msg == o)
       && (c.hops > 0 ==>
             && CountOf(c.msg) == CountOf(o) + c.hops
             && |c.msg.attrs.Keys| <= MAX_ATTRIBUTES && RETRY_COUNT in c.msg.attrs
             && UserPart(c.msg.attrs) == c.survived && |c.survived.Keys| == Kept(|UserPart(o.attrs).Keys|)
             && forall k :: k in c.survived ==> k in UserPart(o.attrs) && c.survived[k] == o.attrs[k])
  }

  /** The largest count a copy of this origin can carry while it can still be retried. */
  function Ceiling(cfg: Config, origins: seq<Message>, c: Copy): nat
    requires c.origin < |origins|
  {
    Max(CountOf(origins[c.origin]), cfg.maxRetryCount)
  }

  ghost predicate Retriable(cfg: Config, origins: seq<Message>, c: Copy) {
    Faithful(origins, c) && CountOf(c.msg) <= Ceiling(cfg, origins, c)
  }

  ghost predicate Scheduled(cfg: Config, origins: seq<Message>, c: Copy) {
    Faithful(origins, c) && c.hops > 0 && CountOf(c.msg) <= cfg.maxRetryCount
  }

  ghost predicate Dead(cfg: Config, origins: seq<Message>, c: Copy) {
    Faithful(origins, c) && c.hops > 0 && CountOf(c.msg) == Ceiling(cfg, origins, c) + 1
  }

  lemma CountFits(cfg: Config, origins: seq<Message>, c: Copy)
    requires Valid(cfg) && Retriable(cfg, origins, c)
    ensures IsInt(CountOf(c.msg) + 1) && CountOf(origins[c.origin]) <= CountOf(c.msg)
  {}

  /** What a receiver reads back from the table of one hop. */
  lemma HopAttributes(attrs: map<string, string>, next: nat, table: Table)
    requires Republished(attrs, next, table) && IsInt(next)
    ensures var texts := Texts(table);
            && ParseRetryCount(texts) == next && RETRY_COUNT in texts
            && |texts.Keys| <= MAX_ATTRIBUTES && |UserPart(texts).Keys| == Kept(|UserPart(attrs).Keys|)
            && (forall k :: k in UserPart(texts) ==> k in UserPart(attrs) && UserPart(texts)[k] == attrs[k])
            && (|UserPart(attrs).Keys| <= MAX_ATTRIBUTES - 1 ==> UserPart(texts) == UserPart(attrs))
  {
    CountReadsBack(attrs, next, table);
    assert Texts(table).Keys == table.Keys;
    if |UserPart(attrs).Keys| <= MAX_ATTRIBUTES - 1 {
      NothingDropped(attrs, next, table);
    }
  }

  /** One hop, to a schedule or to the dead-letter queue, keeps all of it. */
  lemma HopFaithful(cfg: Config, origins: seq<Message>, c: Copy, table: Table, readyAt: nat)
    requires Valid(cfg) && Retriable(cfg, origins, c) && Republished(c.msg.attrs, CountOf(c.msg) + 1, table)
    ensures Faithful(origins, Next(c, table, readyAt))
    ensures CountOf(Next(c, table, readyAt).msg) == CountOf(c.msg) + 1
  {
    CountFits(cfg, origins, c);
    HopAttributes(c.msg.attrs, CountOf(c.msg) + 1, table);
  }

  /** The k-th retry, by the count its copy carries, waits min(max, base * 2^(k-1)) from the failure. */
  lemma RetryWaits(cfg: Config, origins: seq<Message>, c: Copy, table: Table, now: nat)
    requires Valid(cfg) && B.MIN_BACKOFF as int <= cfg.base <= cfg.maxDelay
    requires Retriable(cfg, origins, c) && MayRetry(cfg, c.msg, table)
    ensures var retry := Retry(cfg, c, table, now);
            var k := CountOf(retry.copy.msg);
            && k >= 1 && retry.copy.readyAt == now + Min(cfg.maxDelay, cfg.base * B.Pow2(k - 1))
            && retry.fireAt <= retry.copy.readyAt < retry.fireAt + B.SECOND as nat
  {
    HopFaithful(cfg, origins, c, table, Retry(cfg, c, table, now).copy.readyAt);
    B.DelayIs(CountOf(c.msg) + 1, cfg.base, cfg.maxDelay);
    B.FiresWithinASecond(now, B.Delay(CountOf(c.msg) + 1, cfg.base, cfg.maxDelay));
  }

  /** A failed copy beyond the limit carries exactly the ceiling. */
  lemma DeadAtCeiling(cfg: Config, origins: seq<Message>, c: Copy)
    requires Retriable(cfg, origins, c) && CountOf(c.msg) + 1 > cfg.maxRetryCount && Valid(cfg)
    ensures CountOf(c.msg) == Ceiling(cfg, origins, c)
  {}

  // ----- The invariant of the loop -----

  /** What is done with a copy whose latest form does not matter any more. */
  ghost predicate Superseded(s: State, c: Copy) {
    c.origin in s.handled || (c.origin < |s.last| && c.hops < s.last[c.origin])
  }

  ghost predicate QueueOk(cfg: Config, origins: seq<Message>, queue: map<nat, Copy>) {
    forall i :: i in queue ==> Retriable(cfg, origins, queue[i])
  }

  ghost predicate SchedulesOk(cfg: Config, origins: seq<Message>, schedules: map<nat, Schedule>) {
    forall i :: i in schedules ==> Scheduled(cfg, origins, schedules[i].copy)
  }

  ghost predicate DeadLettersOk(cfg: Config, origins: seq<Message>, deadLetters: map<nat, Copy>) {
    forall i :: i in deadLetters ==> Dead(cfg, origins, deadLetters[i])
  }

  ghost predicate FlightsOk(cfg: Config, origins: seq<Message>, flights: map<nat, Flight>) {
    forall f :: f in flights ==> Retriable(cfg, origins, flights[f].copy)
  }

  ghost predicate CopiesOk(cfg: Config, s: State) {
    && QueueOk(cfg, s.origins, s.queue)
    && SchedulesOk(cfg, s.origins, s.schedules)
    && DeadLettersOk(cfg, s.origins, s.deadLetters)
    && FlightsOk(cfg, s.origins, s.flights)
  }

  ghost predicate IdsOk(s: State) {
    && (forall i :: i in s.queue || i in s.schedules || i in s.deadLetters || i in s.flights ==> i < s.nextId)
    && (forall f :: f in s.flights ==> s.flights[f].id < s.nextId)
    && (forall f :: f in s.flights && s.flights[f].id in s.queue ==> s.queue[s.flights[f].id] == s.flights[f].copy)
  }

  /** `last` is a bound on the republications of every copy of an origin. */
  ghost predicate LastOk(s: State) {
    && |s.last| == |s.origins|
    && (forall i :: i in s.queue ==> WithinLast(s, s.queue[i]))
    && (forall i :: i in s.schedules ==> WithinLast(s, s.schedules[i].copy))
    && (forall f :: f in s.flights ==> WithinLast(s, s.flights[f].copy))
  }

  ghost predicate WithinLast(s: State, c: Copy) { c.origin < |s.last| && c.hops <= s.last[c.origin] }

  /** A copy is deleted, or a fired schedule cleared, only when it no longer matters. */
  ghost predicate Guarded(s: State) {
    && (forall f :: f in s.flights && s.flights[f].deleting ==> Superseded(s, s.flights[f].copy))
    && (forall i :: i in s.schedules && s.schedules[i].fired ==>
          Superseded(s, s.schedules[i].copy) || InQueue(s, s.schedules[i].copy.origin, s.schedules[i].copy.hops))
  }

  ghost predicate InQueue(s: State, origin: nat, hops: nat) {
    exists i :: i in s.queue && s.queue[i].origin == origin && s.queue[i].hops == hops
  }

  ghost predicate IsScheduled(s: State, origin: nat, hops: nat) {
    exists i :: i in s.schedules && s.schedules[i].copy.origin == origin && s.schedules[i].copy.hops == hops
  }

  ghost predicate IsDead(s: State, origin: nat, hops: nat) {
    exists i :: i in s.deadLetters && s.deadLetters[i].origin == origin && s.deadLetters[i].hops == hops
  }

  /** The latest form of the message still exists somewhere. */
  ghost predicate Alive(s: State, o: nat, hops: nat) {
    InQueue(s, o, hops) || IsScheduled(s, o, hops) || IsDead(s, o, hops)
  }

  ghost predicate NothingLost(s: State) {
    |s.last| == |s.origins| && forall o :: 0 <= o < |s.origins| && o !in s.handled ==> Alive(s, o, s.last[o])
  }

  /** A copy is back in the queue at most one second before the backoff it was given ends. */
  ghost predicate OnTime(s: State) {
    && (forall i :: i in s.queue ==> s.now + B.SECOND as nat > s.queue[i].readyAt)
    && (forall i :: i in s.schedules ==> s.schedules[i].fireAt + B.SECOND as nat > s.schedules[i].copy.readyAt)
  }

  ghost predicate Inv(cfg: Config, s: State) {
    CopiesOk(cfg, s) && IdsOk(s) && LastOk(s) && Guarded(s) && NothingLost(s) && OnTime(s)
  }
}
