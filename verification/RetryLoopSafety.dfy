/** The main results about the scheduled retry loop, for every run. */
module RetryLoopSafety {
  import opened Options
  import opened Decimal
  import opened Attributes
  import opened RetryLoop
  import B = Backoff

  // ----- Every copy is faithful and within its limits -----

  lemma Grows(cfg: Config, origins: seq<Message>, m: Message, c: Copy)
    ensures Retriable(cfg, origins, c) ==> Retriable(cfg, origins + [m], c)
    ensures Scheduled(cfg, origins, c) ==> Scheduled(cfg, origins + [m], c)
    ensures Dead(cfg, origins, c) ==> Dead(cfg, origins + [m], c)
  {
    if c.origin < |origins| {
      assert (origins + [m])[c.origin] == origins[c.origin];
    }
  }

  /** A message that enters changes nothing for the copies of the others. */
  lemma AllGrow(cfg: Config, s: State, m: Message)
    requires CopiesOk(cfg, s)
    ensures CopiesOk(cfg, s.(origins := s.origins + [m]))
  {
    forall i | i in s.queue ensures Retriable(cfg, s.origins + [m], s.queue[i]) {
      Grows(cfg, s.origins, m, s.queue[i]);
    }
    forall i | i in s.schedules ensures Scheduled(cfg, s.origins + [m], s.schedules[i].copy) {
      Grows(cfg, s.origins, m, s.schedules[i].copy);
    }
    forall i | i in s.deadLetters ensures Dead(cfg, s.origins + [m], s.deadLetters[i]) {
      Grows(cfg, s.origins, m, s.deadLetters[i]);
    }
    forall f | f in s.flights ensures Retriable(cfg, s.origins + [m], s.flights[f].copy) {
      Grows(cfg, s.origins, m, s.flights[f].copy);
    }
  }

  lemma Queued(cfg: Config, origins: seq<Message>, queue: map<nat, Copy>, id: nat, c: Copy)
    requires QueueOk(cfg, origins, queue) && Retriable(cfg, origins, c)
    ensures QueueOk(cfg, origins, queue[id := c])
  {}

  lemma NewlyEntered(cfg: Config, origins: seq<Message>, m: Message)
    requires CountOf(m) < MAX_INT
    ensures Retriable(cfg, origins + [m], Copy(m, |origins|, 0, map[], 0))
  {}

  lemma EnterCopies(cfg: Config, s: State, m: Message)
    requires CopiesOk(cfg, s) && CountOf(m) < MAX_INT
    ensures CopiesOk(cfg, Do(cfg, s, Enter(m)))
  {
    AllGrow(cfg, s, m);
    NewlyEntered(cfg, s.origins, m);
    Queued(cfg, s.origins + [m], s.queue, s.nextId, Copy(m, |s.origins|, 0, map[], 0));
  }

  lemma NewSchedule(cfg: Config, origins: seq<Message>, schedules: map<nat, Schedule>, id: nat, x: Schedule)
    requires SchedulesOk(cfg, origins, schedules) && Scheduled(cfg, origins, x.copy)
    ensures SchedulesOk(cfg, origins, schedules[id := x])
  {}

  lemma NewDeadLetter(cfg: Config, origins: seq<Message>, deadLetters: map<nat, Copy>, id: nat, c: Copy)
    requires DeadLettersOk(cfg, origins, deadLetters) && Dead(cfg, origins, c)
    ensures DeadLettersOk(cfg, origins, deadLetters[id := c])
  {}

  lemma HopScheduled(cfg: Config, origins: seq<Message>, c: Copy, table: Table, readyAt: nat)
    requires Valid(cfg) && Retriable(cfg, origins, c) && MayRetry(cfg, c.msg, table)
    ensures Scheduled(cfg, origins, Next(c, table, readyAt))
  {
    HopFaithful(cfg, origins, c, table, readyAt);
  }

  lemma HopDead(cfg: Config, origins: seq<Message>, c: Copy, table: Table, readyAt: nat)
    requires Valid(cfg) && Retriable(cfg, origins, c) && MustBury(cfg, c.msg, table)
    ensures Dead(cfg, origins, Next(c, table, readyAt))
  {
    HopFaithful(cfg, origins, c, table, readyAt);
    DeadAtCeiling(cfg, origins, c);
  }

  lemma InFlight(cfg: Config, s: State, f: nat)
    requires CopiesOk(cfg, s) && f in s.flights
    ensures Retriable(cfg, s.origins, s.flights[f].copy)
  {}

  lemma RetryScheduled(cfg: Config, origins: seq<Message>, c: Copy, table: Table, now: nat)
    requires Valid(cfg) && Retriable(cfg, origins, c) && MayRetry(cfg, c.msg, table)
    ensures Scheduled(cfg, origins, Retry(cfg, c, table, now).copy)
  {
    HopScheduled(cfg, origins, c, table, Retry(cfg, c, table, now).copy.readyAt);
  }

  lemma Hopped(cfg: Config, s: State, f: nat)
    requires CopiesOk(cfg, s) && f in s.flights
    ensures FlightsOk(cfg, s.origins, s.flights[f := s.flights[f].(deleting := true)])
  {}

  /** The copy a hop makes keeps within its limits. */
  lemma RescheduledCopy(cfg: Config, s: State, f: nat, table: Table)
    requires Valid(cfg) && CopiesOk(cfg, s) && Enabled(cfg, s, Reschedule(f, table))
    ensures f in s.flights && Scheduled(cfg, s.origins, Retry(cfg, s.flights[f].copy, table, s.now).copy)
  {
    InFlight(cfg, s, f);
    RetryScheduled(cfg, s.origins, s.flights[f].copy, table, s.now);
  }

  lemma DeadLetteredCopy(cfg: Config, s: State, f: nat, table: Table)
    requires Valid(cfg) && CopiesOk(cfg, s) && Enabled(cfg, s, DeadLetter(f, table))
    ensures f in s.flights && Dead(cfg, s.origins, Next(s.flights[f].copy, table, s.now))
  {
    InFlight(cfg, s, f);
    HopDead(cfg, s.origins, s.flights[f].copy, table, s.now);
  }

  lemma RescheduleCopies(cfg: Config, s: State, f: nat, table: Table)
    requires Valid(cfg) && CopiesOk(cfg, s) && Enabled(cfg, s, Reschedule(f, table))
    ensures CopiesOk(cfg, Do(cfg, s, Reschedule(f, table)))
  {
    RescheduledCopy(cfg, s, f, table);
    var x := Retry(cfg, s.flights[f].copy, table, s.now);
    NewSchedule(cfg, s.origins, s.schedules, s.nextId, x);
    Hopped(cfg, s, f);
  }

  lemma DeadLetterCopies(cfg: Config, s: State, f: nat, table: Table)
    requires Valid(cfg) && CopiesOk(cfg, s) && Enabled(cfg, s, DeadLetter(f, table))
    ensures CopiesOk(cfg, Do(cfg, s, DeadLetter(f, table)))
  {
    DeadLetteredCopy(cfg, s, f, table);
    NewDeadLetter(cfg, s.origins, s.deadLetters, s.nextId, Next(s.flights[f].copy, table, s.now));
    Hopped(cfg, s, f);
  }

  lemma ScheduledRetriable(cfg: Config, origins: seq<Message>, c: Copy)
    requires Scheduled(cfg, origins, c)
    ensures Retriable(cfg, origins, c)
  {}

  lemma FireCopies(cfg: Config, s: State, i: nat)
    requires CopiesOk(cfg, s) && Enabled(cfg, s, Fire(i))
    ensures CopiesOk(cfg, Do(cfg, s, Fire(i)))
  {
    var x := s.schedules[i];
    ScheduledRetriable(cfg, s.origins, x.copy);
    Queued(cfg, s.origins, s.queue, s.nextId, x.copy);
    NewSchedule(cfg, s.origins, s.schedules, i, x.(fired := true));
  }

  lemma FlightCopies(cfg: Config, s: State, step: Step)
    requires CopiesOk(cfg, s) && Enabled(cfg, s, step) && (step.Receive? || step.Succeed?)
    ensures CopiesOk(cfg, Do(cfg, s, step))
  {}

  /** Removing copies. */
  lemma FewerCopies(cfg: Config, s: State, ids: set<nat>)
    requires CopiesOk(cfg, s)
    ensures QueueOk(cfg, s.origins, s.queue - ids)
    ensures SchedulesOk(cfg, s.origins, s.schedules - ids)
    ensures FlightsOk(cfg, s.origins, s.flights - ids)
  {}

  lemma CopiesStep(cfg: Config, s: State, step: Step)
    requires Valid(cfg) && CopiesOk(cfg, s) && Enabled(cfg, s, step)
    ensures CopiesOk(cfg, Do(cfg, s, step))
  {
    match step
    case Tick(_) =>
    case Enter(m) => EnterCopies(cfg, s, m);
    case Receive(_) => FlightCopies(cfg, s, step);
    case Succeed(_) => FlightCopies(cfg, s, step);
    case Reschedule(f, table) => RescheduleCopies(cfg, s, f, table);
    case DeadLetter(f, table) => DeadLetterCopies(cfg, s, f, table);
    case Abandon(f) => FewerCopies(cfg, s, {f});
    case Delete(f) =>
      FewerCopies(cfg, s, {f});
      FewerCopies(cfg, s, {s.flights[f].id});
    case Fire(i) => FireCopies(cfg, s, i);
    case Clear(i) => FewerCopies(cfg, s, {i});
  }

  // ----- Bookkeeping -----

  lemma IdsStep(cfg: Config, s: State, step: Step)
    requires IdsOk(s) && Enabled(cfg, s, step)
    ensures IdsOk(Do(cfg, s, step))
  {}

  /** `last` only grows. */
  ghost predicate Grown(s: State, t: State) {
    && |s.last| <= |t.last| && s.handled <= t.handled
    && forall o :: 0 <= o < |s.last| ==> s.last[o] <= t.last[o]
  }

  lemma LastGrows(cfg: Config, s: State, step: Step)
    requires Enabled(cfg, s, step)
    ensures Grown(s, Do(cfg, s, step))
  {}

  lemma LastQueue(cfg: Config, s: State, step: Step)
    requires LastOk(s) && Enabled(cfg, s, step) && Grown(s, Do(cfg, s, step))
    ensures var t := Do(cfg, s, step); forall i :: i in t.queue ==> WithinLast(t, t.queue[i])
  {}

  lemma LastSchedules(cfg: Config, s: State, step: Step)
    requires LastOk(s) && Enabled(cfg, s, step) && Grown(s, Do(cfg, s, step))
    ensures var t := Do(cfg, s, step); forall i :: i in t.schedules ==> WithinLast(t, t.schedules[i].copy)
  {}

  lemma LastFlights(cfg: Config, s: State, step: Step)
    requires LastOk(s) && Enabled(cfg, s, step) && Grown(s, Do(cfg, s, step))
    ensures var t := Do(cfg, s, step); forall f :: f in t.flights ==> WithinLast(t, t.flights[f].copy)
  {}

  lemma LastStep(cfg: Config, s: State, step: Step)
    requires LastOk(s) && Enabled(cfg, s, step)
    ensures LastOk(Do(cfg, s, step))
  {
    LastGrows(cfg, s, step);
    LastQueue(cfg, s, step);
    LastSchedules(cfg, s, step);
    LastFlights(cfg, s, step);
  }

  lemma OnTimeStep(cfg: Config, s: State, step: Step)
    requires OnTime(s) && Enabled(cfg, s, step)
    ensures OnTime(Do(cfg, s, step))
  {}

  // ----- Nothing is lost -----

  /** What exists of an origin after a step that removes nothing. */
  lemma AliveKept(s: State, t: State, o: nat, hops: nat)
    requires Alive(s, o, hops)
    requires forall i :: i in s.queue ==> i in t.queue && t.queue[i] == s.queue[i]
    requires forall i :: i in s.schedules ==> i in t.schedules && t.schedules[i].copy == s.schedules[i].copy
    requires forall i :: i in s.deadLetters ==> i in t.deadLetters && t.deadLetters[i] == s.deadLetters[i]
    ensures Alive(t, o, hops)
    ensures InQueue(s, o, hops) ==> InQueue(t, o, hops)
  {}

  predicate Removes(step: Step) { step.Delete? || step.Clear? }

  lemma KeepsQueue(cfg: Config, s: State, step: Step)
    requires IdsOk(s) && Enabled(cfg, s, step) && !Removes(step)
    ensures forall i :: i in s.queue ==> i in Do(cfg, s, step).queue && Do(cfg, s, step).queue[i] == s.queue[i]
  {}

  lemma KeepsSchedules(cfg: Config, s: State, step: Step)
    requires IdsOk(s) && Enabled(cfg, s, step) && !Removes(step)
    ensures var t := Do(cfg, s, step);
            forall i :: i in s.schedules ==> i in t.schedules && t.schedules[i].copy == s.schedules[i].copy
  {}

  /** Fresh ids: a step that is not a delete or a clear keeps every copy. */
  lemma Keeps(cfg: Config, s: State, step: Step)
    requires IdsOk(s) && Enabled(cfg, s, step) && !Removes(step)
    ensures var t := Do(cfg, s, step);
            && (forall i :: i in s.queue ==> i in t.queue && t.queue[i] == s.queue[i])
            && (forall i :: i in s.schedules ==> i in t.schedules && t.schedules[i].copy == s.schedules[i].copy)
            && (forall i :: i in s.deadLetters ==> i in t.deadLetters && t.deadLetters[i] == s.deadLetters[i])
  {
    KeepsQueue(cfg, s, step);
    KeepsSchedules(cfg, s, step);
  }

  lemma KeptLost(cfg: Config, s: State, step: Step)
    requires IdsOk(s) && NothingLost(s) && LastOk(s) && Enabled(cfg, s, step) && !Removes(step)
    requires !step.Enter? && !step.Reschedule? && !step.DeadLetter?
    ensures NothingLost(Do(cfg, s, step))
  {
    var t := Do(cfg, s, step);
    Keeps(cfg, s, step);
    forall o: nat | o < |t.origins| && o !in t.handled ensures Alive(t, o, t.last[o]) {
      AliveKept(s, t, o, s.last[o]);
    }
  }

  lemma EnterLost(cfg: Config, s: State, m: Message)
    requires IdsOk(s) && NothingLost(s) && Enabled(cfg, s, Enter(m))
    ensures NothingLost(Do(cfg, s, Enter(m)))
  {
    var t := Do(cfg, s, Enter(m));
    Keeps(cfg, s, Enter(m));
    assert t.queue[s.nextId].origin == |s.origins| && t.queue[s.nextId].hops == 0;
    forall o: nat | o < |t.origins| && o !in t.handled ensures Alive(t, o, t.last[o]) {
      if o < |s.origins| {
        AliveKept(s, t, o, s.last[o]);
      }
    }
  }

  lemma HopLost(cfg: Config, s: State, step: Step)
    requires IdsOk(s) && NothingLost(s) && LastOk(s) && Enabled(cfg, s, step) && (step.Reschedule? || step.DeadLetter?)
    ensures NothingLost(Do(cfg, s, step))
  {
    var t := Do(cfg, s, step);
    Keeps(cfg, s, step);
    var n := if step.Reschedule? then t.schedules[s.nextId].copy else t.deadLetters[s.nextId];
    assert t.last == Raise(s.last, n);
    forall o: nat | o < |t.origins| && o !in t.handled ensures Alive(t, o, t.last[o]) {
      if t.last[o] == s.last[o] {
        AliveKept(s, t, o, s.last[o]);
      } else {
        assert n.origin == o && n.hops == t.last[o];
        assert if step.Reschedule? then IsScheduled(t, o, n.hops) else IsDead(t, o, n.hops);
      }
    }
  }

  /** A delete removes only what is superseded. */
  lemma DeleteLost(cfg: Config, s: State, f: nat)
    requires IdsOk(s) && NothingLost(s) && Guarded(s) && Enabled(cfg, s, Delete(f))
    ensures NothingLost(Do(cfg, s, Delete(f)))
  {
    var t := Do(cfg, s, Delete(f));
    var c := s.flights[f].copy;
    assert Superseded(s, c);
    forall o: nat | o < |t.origins| && o !in t.handled ensures Alive(t, o, t.last[o]) {
      StillThere(s, t, f, o);
    }
  }

  lemma StillThere(s: State, t: State, f: nat, o: nat)
    requires IdsOk(s) && f in s.flights && Superseded(s, s.flights[f].copy)
    requires t.queue == s.queue - {s.flights[f].id} && t.schedules == s.schedules && t.deadLetters == s.deadLetters
    requires o < |s.last| && o !in s.handled && Alive(s, o, s.last[o])
    ensures Alive(t, o, s.last[o])
  {
    if i :| i in s.queue && s.queue[i].origin == o && s.queue[i].hops == s.last[o] {
      assert i != s.flights[f].id;
      assert i in t.queue && t.queue[i].origin == o && t.queue[i].hops == s.last[o];
    } else if IsScheduled(s, o, s.last[o]) {
      assert IsScheduled(t, o, s.last[o]);
    } else {
      assert IsDead(t, o, s.last[o]);
    }
  }

  /** A schedule is cleared only once its copy is in the queue or superseded. */
  lemma ClearLost(cfg: Config, s: State, k: nat)
    requires NothingLost(s) && Guarded(s) && Enabled(cfg, s, Clear(k))
    ensures NothingLost(Do(cfg, s, Clear(k)))
  {
    var t := Do(cfg, s, Clear(k));
    var c := s.schedules[k].copy;
    forall o: nat | o < |t.origins| && o !in t.handled ensures Alive(t, o, t.last[o]) {
      var hops := s.last[o];
      if InQueue(s, o, hops) {
        assert InQueue(t, o, hops);
      } else if IsDead(s, o, hops) {
        assert IsDead(t, o, hops);
      } else {
        var i :| i in s.schedules && s.schedules[i].copy.origin == o && s.schedules[i].copy.hops == hops;
        assert i != k;
        assert t.schedules[i].copy.origin == o && t.schedules[i].copy.hops == hops;
      }
    }
  }

  lemma LostStep(cfg: Config, s: State, step: Step)
    requires IdsOk(s) && NothingLost(s) && LastOk(s) && Guarded(s) && Enabled(cfg, s, step)
    ensures NothingLost(Do(cfg, s, step))
  {
    match step
    case Enter(m) => EnterLost(cfg, s, m);
    case Reschedule(_, _) => HopLost(cfg, s, step);
    case DeadLetter(_, _) => HopLost(cfg, s, step);
    case Delete(f) => DeleteLost(cfg, s, f);
    case Clear(k) => ClearLost(cfg, s, k);
    case _ => KeptLost(cfg, s, step);
  }

  // ----- Only what no longer matters is removed -----

  lemma SupersededKept(s: State, t: State, c: Copy)
    requires Grown(s, t) && Superseded(s, c)
    ensures Superseded(t, c)
  {}

  lemma GuardedFlights(cfg: Config, s: State, step: Step)
    requires IdsOk(s) && LastOk(s) && Guarded(s) && Enabled(cfg, s, step)
    ensures var t := Do(cfg, s, step);
            forall f :: f in t.flights && t.flights[f].deleting ==> Superseded(t, t.flights[f].copy)
  {
    var t := Do(cfg, s, step);
    LastGrows(cfg, s, step);
    forall f | f in t.flights && t.flights[f].deleting ensures Superseded(t, t.flights[f].copy) {
      if f in s.flights && s.flights[f].deleting {
        SupersededKept(s, t, s.flights[f].copy);
      } else {
        assert step.Succeed? || step.Reschedule? || step.DeadLetter?;
        assert f == step.flight && WithinLast(s, s.flights[f].copy);
      }
    }
  }

  /** A copy in the queue that still matters stays there. */
  lemma StaysQueued(cfg: Config, s: State, step: Step, c: Copy)
    requires IdsOk(s) && Guarded(s) && Enabled(cfg, s, step)
    requires InQueue(s, c.origin, c.hops) && !Superseded(s, c)
    ensures InQueue(Do(cfg, s, step), c.origin, c.hops)
  {
    var t := Do(cfg, s, step);
    var j :| j in s.queue && s.queue[j].origin == c.origin && s.queue[j].hops == c.hops;
    if step.Delete? {
      assert Superseded(s, s.flights[step.flight].copy);
      assert j in t.queue && t.queue[j] == s.queue[j];
    } else if !step.Clear? {
      Keeps(cfg, s, step);
      assert j in t.queue && t.queue[j] == s.queue[j];
    }
  }

  /** The only schedules that become fired are those that fire, and their copies are then queued. */
  lemma FiredBefore(cfg: Config, s: State, step: Step, i: nat)
    requires IdsOk(s) && Enabled(cfg, s, step) && i in Do(cfg, s, step).schedules
    requires Do(cfg, s, step).schedules[i].fired
    ensures var t := Do(cfg, s, step);
            var c := t.schedules[i].copy;
            (i in s.schedules && s.schedules[i] == t.schedules[i]) || InQueue(t, c.origin, c.hops)
  {
    var t := Do(cfg, s, step);
    if step.Fire? && i == step.schedule {
      var c := t.schedules[i].copy;
      assert t.queue[s.nextId].origin == c.origin && t.queue[s.nextId].hops == c.hops;
    }
  }

  lemma GuardedSchedules(cfg: Config, s: State, step: Step)
    requires IdsOk(s) && LastOk(s) && Guarded(s) && Enabled(cfg, s, step)
    ensures var t := Do(cfg, s, step);
            forall i :: i in t.schedules && t.schedules[i].fired ==>
              Superseded(t, t.schedules[i].copy) || InQueue(t, t.schedules[i].copy.origin, t.schedules[i].copy.hops)
  {
    var t := Do(cfg, s, step);
    forall i | i in t.schedules && t.schedules[i].fired
      ensures Superseded(t, t.schedules[i].copy) || InQueue(t, t.schedules[i].copy.origin, t.schedules[i].copy.hops)
    {
      var c := t.schedules[i].copy;
      FiredBefore(cfg, s, step, i);
      if !InQueue(t, c.origin, c.hops) {
        if Superseded(s, c) {
          LastGrows(cfg, s, step);
          SupersededKept(s, t, c);
        } else {
          StaysQueued(cfg, s, step, c);
        }
      }
    }
  }

  // ----- Main results -----

  lemma StepInv(cfg: Config, s: State, step: Step)
    requires Valid(cfg) && Inv(cfg, s) && Enabled(cfg, s, step)
    ensures Inv(cfg, Do(cfg, s, step))
  {
    CopiesStep(cfg, s, step);
    IdsStep(cfg, s, step);
    LastStep(cfg, s, step);
    GuardedFlights(cfg, s, step);
    GuardedSchedules(cfg, s, step);
    LostStep(cfg, s, step);
    OnTimeStep(cfg, s, step);
  }

  lemma {:induction false} RunInv(cfg: Config, s: State, steps: seq<Step>)
    requires Valid(cfg) && Inv(cfg, s) && Legal(cfg, s, steps)
    ensures Inv(cfg, After(cfg, s, steps))
    decreases |steps|
  {
    if steps != [] {
      StepInv(cfg, s, steps[0]);
      RunInv(cfg, Do(cfg, s, steps[0]), steps[1..]);
    }
  }

  /** No loss: in every reachable state, under any mix of failed schedules, publishes, deletes and
      schedule deletes, repeated deliveries and repeated firings, every message that entered has been
      handled successfully or still has a copy in the entry queue, a schedule or the dead-letter queue,
      and that copy is the most recently republished one. */
  lemma NoLoss(cfg: Config, steps: seq<Step>, o: nat)
    requires Valid(cfg) && Legal(cfg, INIT, steps) && o < |After(cfg, INIT, steps).origins|
    ensures var s := After(cfg, INIT, steps);
            |s.last| == |s.origins| && (o in s.handled || Alive(s, o, s.last[o]))
  {
    RunInv(cfg, INIT, steps);
  }

  /** The count of a queued or scheduled copy against the count c0 at entry and the limit. */
  ghost predicate Within(cfg: Config, origins: seq<Message>, c: Copy) {
    && c.origin < |origins|
    && var c0 := CountOf(origins[c.origin]);
       && CountOf(c.msg) == c0 + c.hops <= Max(c0, cfg.maxRetryCount)
       && c.hops <= Max(0, cfg.maxRetryCount - c0)
  }

  /** The count of a dead-lettered copy. */
  ghost predicate JustPast(cfg: Config, origins: seq<Message>, c: Copy) {
    && c.origin < |origins|
    && var c0 := CountOf(origins[c.origin]);
       CountOf(c.msg) == c0 + c.hops == Max(c0, cfg.maxRetryCount) + 1
  }

  lemma RetriableWithin(cfg: Config, origins: seq<Message>, c: Copy)
    requires Retriable(cfg, origins, c)
    ensures Within(cfg, origins, c)
  {}

  lemma DeadJustPast(cfg: Config, origins: seq<Message>, c: Copy)
    requires Dead(cfg, origins, c)
    ensures JustPast(cfg, origins, c)
  {}

  /** Bounded retries: for a message entering with count c0 and limit M, every copy carries c0 plus the
      number of its republications; none that is queued or scheduled exceeds max(c0, M), so a lineage
      has at most max(0, M - c0) schedules; and a dead-lettered copy carries exactly max(c0, M) + 1. */
  lemma BoundedRetries(cfg: Config, steps: seq<Step>, i: nat)
    requires Valid(cfg) && Legal(cfg, INIT, steps)
    ensures var s := After(cfg, INIT, steps);
            && (i in s.queue ==> Within(cfg, s.origins, s.queue[i]))
            && (i in s.schedules ==> Within(cfg, s.origins, s.schedules[i].copy) && s.schedules[i].copy.hops >= 1)
            && (i in s.deadLetters ==> JustPast(cfg, s.origins, s.deadLetters[i]))
  {
    RunInv(cfg, INIT, steps);
    var s := After(cfg, INIT, steps);
    if i in s.queue { RetriableWithin(cfg, s.origins, s.queue[i]); }
    if i in s.schedules {
      assert Scheduled(cfg, s.origins, s.schedules[i].copy);
      ScheduledRetriable(cfg, s.origins, s.schedules[i].copy);
      RetriableWithin(cfg, s.origins, s.schedules[i].copy);
    }
    if i in s.deadLetters { DeadJustPast(cfg, s.origins, s.deadLetters[i]); }
  }

  ghost predicate InLoop(s: State, c: Copy) {
    || (exists i :: i in s.queue && s.queue[i] == c)
    || (exists i :: i in s.schedules && s.schedules[i].copy == c)
    || (exists i :: i in s.deadLetters && s.deadLetters[i] == c)
  }

  /** The body, the group and the attributes of a copy against those of the message that entered. */
  ghost predicate SamePayload(o: Message, c: Copy) {
    && c.msg.body == o.body && c.msg.group == o.group
    && (c.hops == 0 ==> c.msg == o)
    && (c.hops > 0 ==>
          && |c.msg.attrs.Keys| <= MAX_ATTRIBUTES && RETRY_COUNT in c.msg.attrs
          && UserPart(c.msg.attrs) == c.survived
          && (forall k :: k in c.survived ==> k in o.attrs && c.survived[k] == o.attrs[k])
          && |c.survived.Keys| == Kept(|UserPart(o.attrs).Keys|)
          && (|UserPart(o.attrs).Keys| <= MAX_ATTRIBUTES - 1 ==> c.survived == UserPart(o.attrs)))
  }

  lemma FaithfulPayload(origins: seq<Message>, c: Copy)
    requires Faithful(origins, c)
    ensures SamePayload(origins[c.origin], c)
  {
    if c.hops > 0 {
      SubsetSize(c.survived.Keys, UserPart(origins[c.origin].attrs).Keys);
    }
  }

  /** Payload over any number of hops: the body and the group never change; a republished copy carries at
      most ten attributes, one of them the count; its user attributes are nine of those of the message
      that entered, or all of them if they are fewer, with their values, and they are exactly those that
      survived the first republication. */
  lemma PayloadKept(cfg: Config, steps: seq<Step>, c: Copy)
    requires Valid(cfg) && Legal(cfg, INIT, steps) && InLoop(After(cfg, INIT, steps), c)
    ensures var s := After(cfg, INIT, steps); c.origin < |s.origins| && SamePayload(s.origins[c.origin], c)
  {
    RunInv(cfg, INIT, steps);
    FaithfulPayload(After(cfg, INIT, steps).origins, c);
  }

  /** A retry is back in the queue no more than one second before its backoff ends. */
  lemma NeverEarly(cfg: Config, steps: seq<Step>, i: nat)
    requires Valid(cfg) && Legal(cfg, INIT, steps)
    ensures var s := After(cfg, INIT, steps); i in s.queue ==> s.now > s.queue[i].readyAt - B.SECOND as int
  {
    RunInv(cfg, INIT, steps);
  }

  /** A message that enters without a count has been republished as often as its count says: it is
      scheduled exactly up to the limit, and dead-lettered with one more. */
  lemma FreshMessage(cfg: Config, steps: seq<Step>, c: Copy)
    requires Valid(cfg) && Legal(cfg, INIT, steps) && InLoop(After(cfg, INIT, steps), c)
    requires var s := After(cfg, INIT, steps); c.origin < |s.origins| && RETRY_COUNT !in s.origins[c.origin].attrs
    ensures FreshCount(cfg, After(cfg, INIT, steps), c)
  {
    RunInv(cfg, INIT, steps);
    Fresh(cfg, After(cfg, INIT, steps), c);
  }

  ghost predicate FreshCount(cfg: Config, s: State, c: Copy) {
    && CountOf(c.msg) == c.hops
    && ((exists i :: i in s.schedules && s.schedules[i].copy == c) ==> 1 <= c.hops <= cfg.maxRetryCount)
    && ((exists i :: i in s.deadLetters && s.deadLetters[i] == c) ==> c.hops == cfg.maxRetryCount + 1)
  }

  lemma Fresh(cfg: Config, s: State, c: Copy)
    requires CopiesOk(cfg, s) && InLoop(s, c)
    requires c.origin < |s.origins| && RETRY_COUNT !in s.origins[c.origin].attrs
    ensures FreshCount(cfg, s, c)
  {
    FreshQueued(cfg, s.origins, s.queue, c);
    FreshScheduled(cfg, s.origins, s.schedules, c);
    FreshDead(cfg, s.origins, s.deadLetters, c);
  }

  lemma FreshQueued(cfg: Config, origins: seq<Message>, queue: map<nat, Copy>, c: Copy)
    requires QueueOk(cfg, origins, queue)
    requires c.origin < |origins| && RETRY_COUNT !in origins[c.origin].attrs
    ensures (exists i :: i in queue && queue[i] == c) ==> CountOf(c.msg) == c.hops
  {
    if i :| i in queue && queue[i] == c {
      FreshFaithful(origins, c);
    }
  }

  lemma FreshScheduled(cfg: Config, origins: seq<Message>, schedules: map<nat, Schedule>, c: Copy)
    requires SchedulesOk(cfg, origins, schedules)
    requires c.origin < |origins| && RETRY_COUNT !in origins[c.origin].attrs
    ensures (exists i :: i in schedules && schedules[i].copy == c) ==>
      CountOf(c.msg) == c.hops && 1 <= c.hops <= cfg.maxRetryCount
  {
    if i :| i in schedules && schedules[i].copy == c {
      assert Scheduled(cfg, origins, c);
      FreshFaithful(origins, c);
    }
  }

  lemma FreshDead(cfg: Config, origins: seq<Message>, deadLetters: map<nat, Copy>, c: Copy)
    requires DeadLettersOk(cfg, origins, deadLetters)
    requires c.origin < |origins| && RETRY_COUNT !in origins[c.origin].attrs
    ensures (exists i :: i in deadLetters && deadLetters[i] == c) ==>
      CountOf(c.msg) == c.hops == cfg.maxRetryCount + 1
  {
    if i :| i in deadLetters && deadLetters[i] == c {
      assert Dead(cfg, origins, c);
      FreshFaithful(origins, c);
    }
  }

  lemma FreshFaithful(origins: seq<Message>, c: Copy)
    requires Faithful(origins, c) && RETRY_COUNT !in origins[c.origin].attrs
    ensures CountOf(c.msg) == c.hops && CountOf(origins[c.origin]) == 0
  {
    CountIs(origins[c.origin].attrs);
  }

  /** Its first retry waits exactly the base. */
  lemma FirstRetryWaitsBase(cfg: Config, origins: seq<Message>, c: Copy, table: Table, now: nat)
    requires Valid(cfg) && 1_000_000 <= cfg.base <= cfg.maxDelay
    requires Retriable(cfg, origins, c) && RETRY_COUNT !in c.msg.attrs && MayRetry(cfg, c.msg, table)
    ensures Retry(cfg, c, table, now).copy.readyAt == now + cfg.base
    ensures CountOf(Retry(cfg, c, table, now).copy.msg) == 1
  {
    CountIs(c.msg.attrs);
    RetryWaits(cfg, origins, c, table, now);
    assert B.Pow2(0) == 1;
  }

  // ----- Schedules are not late, and a message given up can be received again -----

  ghost predicate NotLate(s: State) {
    forall i :: i in s.schedules ==> s.schedules[i].fireAt <= s.schedules[i].copy.readyAt
  }

  lemma NotLateStep(cfg: Config, s: State, step: Step)
    requires NotLate(s) && Enabled(cfg, s, step)
    ensures NotLate(Do(cfg, s, step))
  {
    if step.Reschedule? {
      var c := s.flights[step.flight].copy;
      B.FiresWithinASecond(s.now, B.Delay(CountOf(c.msg) + 1, cfg.base, cfg.maxDelay));
    }
  }

  lemma {:induction false} RunNotLate(cfg: Config, s: State, steps: seq<Step>)
    requires NotLate(s) && Legal(cfg, s, steps)
    ensures NotLate(After(cfg, s, steps))
    decreases |steps|
  {
    if steps != [] {
      NotLateStep(cfg, s, steps[0]);
      RunNotLate(cfg, Do(cfg, s, steps[0]), steps[1..]);
    }
  }

  /** In every reachable state a schedule whose backoff is over can fire at once. */
  lemma CanFireOnTime(cfg: Config, steps: seq<Step>, i: nat)
    requires Legal(cfg, INIT, steps)
    ensures var s := After(cfg, INIT, steps);
            i in s.schedules && s.now >= s.schedules[i].copy.readyAt ==> Enabled(cfg, s, Fire(i))
  {
    RunNotLate(cfg, INIT, steps);
  }

  /** In every reachable state, a message whose worker gives it up before an outcome stays in the queue as
      it was, no longer with that worker, and can be received again. */
  lemma GivenUpComesBack(cfg: Config, s: State, f: nat)
    requires IdsOk(s) && Handling(s, f) && s.flights[f].id in s.queue
    ensures var t := Do(cfg, s, Abandon(f));
            && f !in t.flights && t.queue == s.queue && t.queue[s.flights[f].id] == s.flights[f].copy
            && Enabled(cfg, t, Receive(s.flights[f].id))
  {}
}
