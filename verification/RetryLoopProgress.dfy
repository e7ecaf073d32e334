/** The scheduled retry loop comes to an end: without failures, redeliveries and new messages every message
    is handled or dead-lettered after a bounded number of steps. */
module RetryLoopProgress {
  import opened Attributes
  import opened RetryLoop
  import opened RetryLoopSafety

  /** A worker has the message. */
  ghost predicate InHand(s: State, id: nat) { exists f :: f in s.flights && s.flights[f].id == id }

  /** A step that brings some message further: anything but a new message, the passing of time, a failed
      call, a redelivery and a second firing. */
  ghost predicate Forward(s: State, step: Step) {
    match step
    case Succeed(_) => true
    case Reschedule(_, _) => true
    case DeadLetter(_, _) => true
    case Delete(_) => true
    case Clear(_) => true
    case Receive(id) => !InHand(s, id)
    case Fire(i) => i in s.schedules && !s.schedules[i].fired
    case _ => false
  }

  // ----- Sums over ids -----

  ghost function SumTo(n: nat, f: nat -> nat): nat { if n == 0 then 0 else SumTo(n - 1, f) + f(n - 1) }

  lemma {:induction false} SumLess(n: nat, f: nat -> nat, g: nat -> nat)
    requires forall i: nat :: i < n ==> g(i) <= f(i)
    ensures SumTo(n, g) <= SumTo(n, f)
  {
    if n > 0 {
      SumLess(n - 1, f, g);
    }
  }

  /** Nothing grows but, possibly, what stands at a. */
  lemma {:induction false} SumPoint(n: nat, f: nat -> nat, g: nat -> nat, a: nat)
    requires a < n && forall i: nat :: i < n && i != a ==> g(i) <= f(i)
    ensures SumTo(n, g) + f(a) <= SumTo(n, f) + g(a)
  {
    if a == n - 1 {
      SumLess(n - 1, f, g);
    } else {
      SumPoint(n - 1, f, g, a);
    }
  }

  // ----- The work left -----

  /** How many more schedules a copy can have. */
  function Retries(cfg: Config, c: Copy): nat {
    if CountOf(c.msg) < cfg.maxRetryCount then cfg.maxRetryCount - CountOf(c.msg) else 0
  }

  ghost function QueueWork(cfg: Config, s: State, i: nat): nat {
    if i in s.queue && !InHand(s, i) then 5 * Retries(cfg, s.queue[i]) + 3 else 0
  }

  ghost function FlightWork(cfg: Config, s: State, i: nat): nat {
    if i !in s.flights then 0 else if s.flights[i].deleting then 1 else 5 * Retries(cfg, s.flights[i].copy) + 2
  }

  ghost function ScheduleWork(cfg: Config, s: State, i: nat): nat {
    if i !in s.schedules then 0 else if s.schedules[i].fired then 1 else 5 * Retries(cfg, s.schedules[i].copy) + 5
  }

  ghost function WorkAt(cfg: Config, s: State): nat -> nat {
    i => QueueWork(cfg, s, i) + FlightWork(cfg, s, i) + ScheduleWork(cfg, s, i)
  }

  /** An upper bound on the forward steps to come. */
  ghost function Work(cfg: Config, s: State): nat { SumTo(s.nextId, WorkAt(cfg, s)) }

  /** Nothing is in progress: what there was is handled or in the dead-letter queue. */
  predicate Done(s: State) { s.queue == map[] && s.schedules == map[] && s.flights == map[] }

  // ----- Every forward step leaves less -----

  /** Work is lost at id a, and made, if at all, under a new id. */
  lemma Shrinks(cfg: Config, s: State, t: State, a: nat)
    requires a < s.nextId && t.nextId == s.nextId
    requires forall i: nat :: i < s.nextId && i != a ==> WorkAt(cfg, t)(i) <= WorkAt(cfg, s)(i)
    requires WorkAt(cfg, t)(a) < WorkAt(cfg, s)(a)
    ensures Work(cfg, t) < Work(cfg, s)
  {
    SumPoint(s.nextId, WorkAt(cfg, s), WorkAt(cfg, t), a);
  }

  lemma Moves(cfg: Config, s: State, t: State, a: nat)
    requires a < s.nextId && t.nextId == s.nextId + 1
    requires forall i: nat :: i < s.nextId && i != a ==> WorkAt(cfg, t)(i) <= WorkAt(cfg, s)(i)
    requires WorkAt(cfg, t)(a) + WorkAt(cfg, t)(s.nextId) < WorkAt(cfg, s)(a)
    ensures Work(cfg, t) < Work(cfg, s)
  {
    SumPoint(s.nextId, WorkAt(cfg, s), WorkAt(cfg, t), a);
  }

  /** Settling or starting a flight keeps in hand what was in hand. */
  lemma SameHands(s: State, t: State, f: nat)
    requires f in s.flights && t.flights == s.flights[f := s.flights[f].(deleting := true)]
    ensures forall id :: InHand(t, id) <==> InHand(s, id)
  {
    forall id ensures InHand(t, id) <==> InHand(s, id) {
      if g :| g in s.flights && s.flights[g].id == id {
        assert g in t.flights && t.flights[g].id == id;
      }
      if g :| g in t.flights && t.flights[g].id == id {
        assert g in s.flights && s.flights[g].id == id;
      }
    }
  }

  lemma ReceiveShrinks(cfg: Config, s: State, id: nat)
    requires IdsOk(s) && Enabled(cfg, s, Receive(id)) && !InHand(s, id)
    ensures Work(cfg, Do(cfg, s, Receive(id))) < Work(cfg, s)
  {
    var t := Do(cfg, s, Receive(id));
    assert s.nextId in t.flights && t.flights[s.nextId].id == id;
    forall i: nat | InHand(s, i) ensures InHand(t, i) {
      var f :| f in s.flights && s.flights[f].id == i;
      assert f in t.flights && t.flights[f].id == i;
    }
    Moves(cfg, s, t, id);
  }

  lemma SucceedShrinks(cfg: Config, s: State, f: nat)
    requires IdsOk(s) && Enabled(cfg, s, Succeed(f))
    ensures Work(cfg, Do(cfg, s, Succeed(f))) < Work(cfg, s)
  {
    SameHands(s, Do(cfg, s, Succeed(f)), f);
    Shrinks(cfg, s, Do(cfg, s, Succeed(f)), f);
  }

  /** A flight settles and makes, under a new id, less work than it had. */
  lemma HopShrinks(cfg: Config, s: State, t: State, f: nat)
    requires IdsOk(s) && Handling(s, f) && t.nextId == s.nextId + 1 && t.queue == s.queue
    requires t.flights == s.flights[f := s.flights[f].(deleting := true)]
    requires forall i: nat :: i < s.nextId ==> ScheduleWork(cfg, t, i) == ScheduleWork(cfg, s, i)
    requires ScheduleWork(cfg, t, s.nextId) <= 5 * Retries(cfg, s.flights[f].copy)
    ensures Work(cfg, t) < Work(cfg, s)
  {
    SameHands(s, t, f);
    Moves(cfg, s, t, f);
  }

  lemma RescheduleShrinks(cfg: Config, s: State, f: nat, table: Table)
    requires Valid(cfg) && CopiesOk(cfg, s) && IdsOk(s) && Enabled(cfg, s, Reschedule(f, table))
    ensures Work(cfg, Do(cfg, s, Reschedule(f, table))) < Work(cfg, s)
  {
    InFlight(cfg, s, f);
    RetryCount(cfg, s.origins, s.flights[f].copy, table, s.now);
    ScheduleShrinks(cfg, s, Do(cfg, s, Reschedule(f, table)), f, Retry(cfg, s.flights[f].copy, table, s.now));
  }

  /** A flight settles and makes a schedule with one retry fewer. */
  lemma ScheduleShrinks(cfg: Config, s: State, t: State, f: nat, x: Schedule)
    requires IdsOk(s) && Handling(s, f) && t.nextId == s.nextId + 1 && t.queue == s.queue
    requires t.flights == s.flights[f := s.flights[f].(deleting := true)] && t.schedules == s.schedules[s.nextId := x]
    requires !x.fired && Retries(cfg, x.copy) + 1 == Retries(cfg, s.flights[f].copy)
    ensures Work(cfg, t) < Work(cfg, s)
  {
    HopShrinks(cfg, s, t, f);
  }

  /** The new copy can be scheduled one time fewer. */
  lemma RetryCount(cfg: Config, origins: seq<Message>, c: Copy, table: Table, now: nat)
    requires Valid(cfg) && Retriable(cfg, origins, c) && MayRetry(cfg, c.msg, table)
    ensures Retries(cfg, Retry(cfg, c, table, now).copy) + 1 == Retries(cfg, c)
  {
    HopFaithful(cfg, origins, c, table, Retry(cfg, c, table, now).copy.readyAt);
  }

  lemma DeadLetterShrinks(cfg: Config, s: State, f: nat, table: Table)
    requires IdsOk(s) && Enabled(cfg, s, DeadLetter(f, table))
    ensures Work(cfg, Do(cfg, s, DeadLetter(f, table))) < Work(cfg, s)
  {
    HopShrinks(cfg, s, Do(cfg, s, DeadLetter(f, table)), f);
  }

  lemma DeleteShrinks(cfg: Config, s: State, f: nat)
    requires IdsOk(s) && Enabled(cfg, s, Delete(f))
    ensures Work(cfg, Do(cfg, s, Delete(f))) < Work(cfg, s)
  {
    var t := Do(cfg, s, Delete(f));
    forall id | id != s.flights[f].id && InHand(s, id) ensures InHand(t, id) {
      var g :| g in s.flights && s.flights[g].id == id;
      assert g in t.flights && t.flights[g].id == id;
    }
    Shrinks(cfg, s, t, f);
  }

  lemma FireShrinks(cfg: Config, s: State, i: nat)
    requires IdsOk(s) && Enabled(cfg, s, Fire(i)) && !s.schedules[i].fired
    ensures Work(cfg, Do(cfg, s, Fire(i))) < Work(cfg, s)
  {
    var t := Do(cfg, s, Fire(i));
    assert forall id :: InHand(t, id) <==> InHand(s, id);
    Moves(cfg, s, t, i);
  }

  lemma ClearShrinks(cfg: Config, s: State, i: nat)
    requires IdsOk(s) && Enabled(cfg, s, Clear(i))
    ensures Work(cfg, Do(cfg, s, Clear(i))) < Work(cfg, s)
  {
    var t := Do(cfg, s, Clear(i));
    assert forall id :: InHand(t, id) <==> InHand(s, id);
    Shrinks(cfg, s, t, i);
  }

  /** Every forward step strictly decreases the work left. */
  lemma ForwardShrinks(cfg: Config, s: State, step: Step)
    requires Valid(cfg) && Inv(cfg, s) && Enabled(cfg, s, step) && Forward(s, step)
    ensures Work(cfg, Do(cfg, s, step)) < Work(cfg, s)
  {
    match step
    case Receive(id) => ReceiveShrinks(cfg, s, id);
    case Succeed(f) => SucceedShrinks(cfg, s, f);
    case Reschedule(f, table) => RescheduleShrinks(cfg, s, f, table);
    case DeadLetter(f, table) => DeadLetterShrinks(cfg, s, f, table);
    case Delete(f) => DeleteShrinks(cfg, s, f);
    case Fire(i) => FireShrinks(cfg, s, i);
    case Clear(i) => ClearShrinks(cfg, s, i);
  }

  lemma TickKeepsWork(cfg: Config, s: State, elapsed: nat)
    ensures Work(cfg, Do(cfg, s, Tick(elapsed))) == Work(cfg, s)
  {
    var t := Do(cfg, s, Tick(elapsed));
    assert forall id :: InHand(t, id) <==> InHand(s, id);
    SumLess(s.nextId, WorkAt(cfg, s), WorkAt(cfg, t));
    SumLess(s.nextId, WorkAt(cfg, t), WorkAt(cfg, s));
  }

  // ----- Something can be done until all is done -----

  /** Unless all is done, some forward step can be taken, at the latest after a wait. */
  lemma CanMove(cfg: Config, s: State) returns (wait: nat, step: Step)
    requires !Done(s)
    ensures var t := Do(cfg, s, Tick(wait)); Enabled(cfg, t, step) && Forward(t, step)
  {
    if f :| f in s.flights {
      wait, step := 0, if s.flights[f].deleting then Delete(f) else Succeed(f);
    } else if id :| id in s.queue {
      wait, step := 0, Receive(id);
    } else {
      var i :| i in s.schedules;
      if s.schedules[i].fired {
        wait, step := 0, Clear(i);
      } else {
        wait, step := s.schedules[i].fireAt, Fire(i);
      }
    }
  }

  /** The steps of a run without failures, redeliveries and new messages. */
  ghost predicate SmoothRun(cfg: Config, s: State, steps: seq<Step>)
    requires Legal(cfg, s, steps)
    decreases |steps|
  {
    steps == [] || ((steps[0].Tick? || Forward(s, steps[0])) && SmoothRun(cfg, Do(cfg, s, steps[0]), steps[1..]))
  }

  /** How many of its steps are not mere waiting. */
  function Busy(steps: seq<Step>): nat {
    if steps == [] then 0 else (if steps[0].Tick? then 0 else 1) + Busy(steps[1..])
  }

  lemma {:induction false} SmoothShrinks(cfg: Config, s: State, steps: seq<Step>)
    requires Valid(cfg) && Inv(cfg, s) && Legal(cfg, s, steps) && SmoothRun(cfg, s, steps)
    ensures Inv(cfg, After(cfg, s, steps)) && Work(cfg, After(cfg, s, steps)) + Busy(steps) <= Work(cfg, s)
    decreases |steps|
  {
    if steps != [] {
      StepInv(cfg, s, steps[0]);
      if steps[0].Tick? {
        TickKeepsWork(cfg, s, steps[0].elapsed);
      } else {
        ForwardShrinks(cfg, s, steps[0]);
      }
      SmoothShrinks(cfg, Do(cfg, s, steps[0]), steps[1..]);
    }
  }

  /** Every message that entered has been handled successfully, or the most republished copy of it is in the
      dead-letter queue, with the count of a message out of retries. */
  ghost predicate Concluded(cfg: Config, s: State) {
    && |s.last| == |s.origins|
    && forall o: nat :: o < |s.origins| && o !in s.handled ==>
         exists i :: i in s.deadLetters && s.deadLetters[i].origin == o && s.deadLetters[i].hops == s.last[o] &&
                     JustPast(cfg, s.origins, s.deadLetters[i])
  }

  lemma DoneIsConcluded(cfg: Config, s: State)
    requires Inv(cfg, s) && Done(s)
    ensures Concluded(cfg, s)
  {
    forall o: nat | o < |s.origins| && o !in s.handled
      ensures exists i :: i in s.deadLetters && s.deadLetters[i].origin == o && s.deadLetters[i].hops == s.last[o] &&
                          JustPast(cfg, s.origins, s.deadLetters[i])
    {
      assert Alive(s, o, s.last[o]);
      var i :| i in s.deadLetters && s.deadLetters[i].origin == o && s.deadLetters[i].hops == s.last[o];
      DeadJustPast(cfg, s.origins, s.deadLetters[i]);
    }
  }

  /** The loop drains: from any reachable state a run without further failures, redeliveries and new messages
      takes at most Work steps besides waiting; it can take no more, however long it waits, if and only if
      nothing is queued, scheduled or in a worker; and then every message that ever entered has been handled
      or dead-lettered. */
  lemma Drains(cfg: Config, before: seq<Step>, after: seq<Step>)
    requires Valid(cfg) && Legal(cfg, INIT, before)
    requires var s := After(cfg, INIT, before); Legal(cfg, s, after) && SmoothRun(cfg, s, after)
    ensures var s := After(cfg, INIT, before);
            var t := After(cfg, s, after);
            && Busy(after) <= Work(cfg, s)
            && ((forall wait: nat, step ::
                   Enabled(cfg, Do(cfg, t, Tick(wait)), step) ==> !Forward(Do(cfg, t, Tick(wait)), step)) <==> Done(t))
            && (Done(t) ==> Concluded(cfg, t))
  {
    RunInv(cfg, INIT, before);
    var s := After(cfg, INIT, before);
    SmoothShrinks(cfg, s, after);
    var t := After(cfg, s, after);
    if Done(t) {
      DoneIsConcluded(cfg, t);
    } else {
      var wait, step := CanMove(cfg, t);
    }
  }
}
