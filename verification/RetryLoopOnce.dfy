/** When the scheduled retry loop handles a message more than once, and when it cannot. */
module RetryLoopOnce {
  import opened Attributes
  import opened Decimal
  import opened RetryLoop
  import opened RetryLoopSafety

  /** The three ways in which a copy can be duplicated are excluded: a message is received again while a
      worker has it, a delete fails after the outcome, or a schedule that has fired fires again. */
  ghost predicate Careful(s: State, step: Step) {
    match step
    case Receive(id) => forall f :: f in s.flights ==> s.flights[f].id != id
    case Abandon(f) => f in s.flights && !s.flights[f].deleting
    case Fire(i) => i in s.schedules && !s.schedules[i].fired
    case _ => true
  }

  ghost predicate CarefulRun(cfg: Config, s: State, steps: seq<Step>)
    requires Legal(cfg, s, steps)
    decreases |steps|
  {
    steps == [] || (Careful(s, steps[0]) && CarefulRun(cfg, Do(cfg, s, steps[0]), steps[1..]))
  }

  datatype Place = Entry(id: nat) | Pending(id: nat) | Buried(id: nat)

  /** The worker that has the message has decided its outcome and is about to delete it. */
  ghost predicate Settled(s: State, id: nat) {
    exists f :: f in s.flights && s.flights[f].id == id && s.flights[f].deleting
  }

  /** A copy of origin o that can still be handled, or is kept in the dead-letter queue. */
  ghost predicate Live(s: State, p: Place, o: nat) {
    match p
    case Entry(id) => id in s.queue && s.queue[id].origin == o && !Settled(s, id)
    case Pending(i) => i in s.schedules && s.schedules[i].copy.origin == o && !s.schedules[i].fired
    case Buried(i) => i in s.deadLetters && s.deadLetters[i].origin == o
  }

  /** Every message has one worker at most, which has it until its delete. */
  ghost predicate OneWorker(s: State) {
    && (forall f :: f in s.flights ==> s.flights[f].id in s.queue)
    && (forall f, g :: f in s.flights && g in s.flights && s.flights[f].id == s.flights[g].id ==> f == g)
  }

  ghost predicate AtMostOne(s: State) {
    forall o: nat, p, q :: Live(s, p, o) && Live(s, q, o) ==> p == q
  }

  /** There is a live copy exactly of the messages that have not been handled successfully. */
  ghost predicate Balanced(s: State) {
    && (forall o: nat, p :: Live(s, p, o) ==> o < |s.origins| && o !in s.handled)
    && (forall o: nat :: o < |s.origins| && o !in s.handled ==> exists p :: Live(s, p, o))
  }

  ghost predicate Once(s: State) { OneWorker(s) && AtMostOne(s) && Balanced(s) }

  // ----- What a step does to the live copies -----

  /** The live copy at `from`, if any, moves to `to`. */
  ghost predicate MovedTo(s: State, t: State, from: Place, to: Place) {
    && (forall o: nat :: !Live(s, to, o))
    && (forall o: nat :: Live(t, to, o) <==> Live(s, from, o))
    && (forall p, o: nat :: p != to ==> (Live(t, p, o) <==> p != from && Live(s, p, o)))
  }

  lemma MoveKeepsOnce(s: State, t: State, from: Place, to: Place)
    requires AtMostOne(s) && Balanced(s) && MovedTo(s, t, from, to)
    requires t.origins == s.origins && t.handled == s.handled
    ensures AtMostOne(t) && Balanced(t)
  {}

  ghost predicate SameLive(s: State, t: State) { forall p, o: nat :: Live(t, p, o) <==> Live(s, p, o) }

  lemma SameKeepsOnce(s: State, t: State)
    requires AtMostOne(s) && Balanced(s) && SameLive(s, t) && t.origins == s.origins && t.handled == s.handled
    ensures AtMostOne(t) && Balanced(t)
  {}

  /** Who has settled what, after a worker settles its message. */
  lemma Settles(s: State, t: State, f: nat)
    requires f in s.flights && t.flights == s.flights[f := s.flights[f].(deleting := true)]
    ensures forall id :: Settled(t, id) <==> Settled(s, id) || id == s.flights[f].id
  {
    forall id ensures Settled(t, id) <==> Settled(s, id) || id == s.flights[f].id {
      if g :| g in s.flights && s.flights[g].id == id && s.flights[g].deleting {
        assert g in t.flights && t.flights[g].id == id && t.flights[g].deleting;
      }
      assert f in t.flights && t.flights[f].id == s.flights[f].id && t.flights[f].deleting;
    }
  }

  lemma UnsettledLive(s: State, f: nat)
    requires IdsOk(s) && OneWorker(s) && Handling(s, f)
    ensures Live(s, Entry(s.flights[f].id), s.flights[f].copy.origin)
    ensures forall o: nat :: Live(s, Entry(s.flights[f].id), o) ==> o == s.flights[f].copy.origin
  {}

  /** An outcome settles the message and makes a copy under a new id. */
  lemma OutcomeMoves(s: State, t: State, f: nat, to: Place)
    requires IdsOk(s) && OneWorker(s) && Handling(s, f) && t.queue == s.queue
    requires t.flights == s.flights[f := s.flights[f].(deleting := true)]
    requires to.id == s.nextId && forall o: nat :: Live(t, to, o) <==> o == s.flights[f].copy.origin
    requires forall p: Place, o: nat :: !p.Entry? && p != to ==> (Live(t, p, o) <==> Live(s, p, o))
    ensures MovedTo(s, t, Entry(s.flights[f].id), to)
  {
    UnsettledLive(s, f);
    Settles(s, t, f);
  }

  lemma RescheduleMoves(cfg: Config, s: State, f: nat, table: Table)
    requires IdsOk(s) && OneWorker(s) && Enabled(cfg, s, Reschedule(f, table))
    ensures MovedTo(s, Do(cfg, s, Reschedule(f, table)), Entry(s.flights[f].id), Pending(s.nextId))
  {
    OutcomeMoves(s, Do(cfg, s, Reschedule(f, table)), f, Pending(s.nextId));
  }

  lemma DeadLetterMoves(cfg: Config, s: State, f: nat, table: Table)
    requires IdsOk(s) && OneWorker(s) && Enabled(cfg, s, DeadLetter(f, table))
    ensures MovedTo(s, Do(cfg, s, DeadLetter(f, table)), Entry(s.flights[f].id), Buried(s.nextId))
  {
    OutcomeMoves(s, Do(cfg, s, DeadLetter(f, table)), f, Buried(s.nextId));
  }

  lemma FireMoves(cfg: Config, s: State, i: nat)
    requires IdsOk(s) && OneWorker(s) && Enabled(cfg, s, Fire(i)) && Careful(s, Fire(i))
    ensures MovedTo(s, Do(cfg, s, Fire(i)), Pending(i), Entry(s.nextId))
  {
    var t := Do(cfg, s, Fire(i));
    assert forall id :: Settled(t, id) <==> Settled(s, id);
  }

  lemma SucceedOnce(cfg: Config, s: State, f: nat)
    requires IdsOk(s) && Once(s) && Enabled(cfg, s, Succeed(f))
    ensures AtMostOne(Do(cfg, s, Succeed(f))) && Balanced(Do(cfg, s, Succeed(f)))
  {
    var t := Do(cfg, s, Succeed(f));
    var at, done := Entry(s.flights[f].id), s.flights[f].copy.origin;
    UnsettledLive(s, f);
    Settles(s, t, f);
    assert forall p, o: nat :: Live(t, p, o) <==> p != at && Live(s, p, o);
    forall o: nat | o < |t.origins| && o !in t.handled ensures exists p :: Live(t, p, o) {
      var p :| Live(s, p, o);
      assert Live(t, p, o);
    }
  }

  lemma EnterOnce(cfg: Config, s: State, m: Message)
    requires IdsOk(s) && Once(s) && Enabled(cfg, s, Enter(m)) && forall o: nat :: o in s.handled ==> o < |s.origins|
    ensures AtMostOne(Do(cfg, s, Enter(m))) && Balanced(Do(cfg, s, Enter(m)))
  {
    var t := Do(cfg, s, Enter(m));
    var here, o := Entry(s.nextId), |s.origins|;
    assert forall id :: Settled(t, id) <==> Settled(s, id);
    assert forall p, x: nat :: Live(t, p, x) <==> Live(s, p, x) || (p == here && x == o);
    forall x: nat | x < |t.origins| && x !in t.handled ensures exists p :: Live(t, p, x) {
      if x < o {
        var p :| Live(s, p, x);
        assert Live(t, p, x);
      } else {
        assert Live(t, here, x);
      }
    }
  }

  /** The delete and the clear remove only what is not live. */
  lemma DeleteSame(cfg: Config, s: State, f: nat)
    requires OneWorker(s) && Enabled(cfg, s, Delete(f))
    ensures SameLive(s, Do(cfg, s, Delete(f)))
  {
    var t := Do(cfg, s, Delete(f));
    assert Settled(s, s.flights[f].id);
    forall id | id != s.flights[f].id ensures Settled(t, id) <==> Settled(s, id) {
      if g :| g in s.flights && s.flights[g].id == id && s.flights[g].deleting {
        assert g in t.flights && t.flights[g].id == id && t.flights[g].deleting;
      }
    }
  }

  predicate IsQuiet(step: Step) { step.Tick? || step.Receive? || step.Abandon? || step.Clear? }

  lemma QuietSame(cfg: Config, s: State, step: Step)
    requires IdsOk(s) && Enabled(cfg, s, step) && Careful(s, step) && IsQuiet(step)
    ensures SameLive(s, Do(cfg, s, step))
  {
    var t := Do(cfg, s, step);
    forall id ensures Settled(t, id) <==> Settled(s, id) {
      if g :| g in s.flights && s.flights[g].id == id && s.flights[g].deleting {
        assert g in t.flights && t.flights[g].id == id && t.flights[g].deleting;
      }
    }
  }

  lemma WorkersStep(cfg: Config, s: State, step: Step)
    requires IdsOk(s) && OneWorker(s) && Enabled(cfg, s, step) && Careful(s, step)
    ensures OneWorker(Do(cfg, s, step))
  {}

  lemma HandledKnown(cfg: Config, s: State, step: Step)
    requires LastOk(s) && Enabled(cfg, s, step) && forall o: nat :: o in s.handled ==> o < |s.origins|
    ensures forall o: nat :: o in Do(cfg, s, step).handled ==> o < |Do(cfg, s, step).origins|
  {}

  lemma StepOnce(cfg: Config, s: State, step: Step)
    requires IdsOk(s) && LastOk(s) && Once(s) && Enabled(cfg, s, step) && Careful(s, step)
    requires forall o: nat :: o in s.handled ==> o < |s.origins|
    ensures Once(Do(cfg, s, step))
  {
    var t := Do(cfg, s, step);
    WorkersStep(cfg, s, step);
    match step
    case Enter(m) => EnterOnce(cfg, s, m);
    case Succeed(f) => SucceedOnce(cfg, s, f);
    case Reschedule(f, table) =>
      RescheduleMoves(cfg, s, f, table);
      MoveKeepsOnce(s, t, Entry(s.flights[f].id), Pending(s.nextId));
    case DeadLetter(f, table) =>
      DeadLetterMoves(cfg, s, f, table);
      MoveKeepsOnce(s, t, Entry(s.flights[f].id), Buried(s.nextId));
    case Fire(i) =>
      FireMoves(cfg, s, i);
      MoveKeepsOnce(s, t, Pending(i), Entry(s.nextId));
    case Delete(f) =>
      DeleteSame(cfg, s, f);
      SameKeepsOnce(s, t);
    case _ =>
      QuietSame(cfg, s, step);
      SameKeepsOnce(s, t);
  }

  lemma {:induction false} RunOnce(cfg: Config, s: State, steps: seq<Step>)
    requires Valid(cfg) && Inv(cfg, s) && Once(s) && Legal(cfg, s, steps) && CarefulRun(cfg, s, steps)
    requires forall o: nat :: o in s.handled ==> o < |s.origins|
    ensures Once(After(cfg, s, steps))
    decreases |steps|
  {
    if steps != [] {
      StepInv(cfg, s, steps[0]);
      StepOnce(cfg, s, steps[0]);
      HandledKnown(cfg, s, steps[0]);
      RunOnce(cfg, Do(cfg, s, steps[0]), steps[1..]);
    }
  }

  // ----- The three exclusions are exactly what is needed -----

  /** An outcome that makes live again, or makes a second time, what is already handled or elsewhere. */
  lemma Surplus(s: State, t: State, p: Place, o: nat)
    requires Balanced(s) && t.origins == s.origins && t.handled == s.handled && o < |s.origins|
    requires Live(t, p, o) && !Live(s, p, o)
    requires forall q, x: nat :: Live(s, q, x) ==> Live(t, q, x)
    ensures !Once(t)
  {
    if o !in s.handled {
      var q :| Live(s, q, o);
      assert Live(t, q, o) && q != p;
    }
  }

  /** A second worker on a message. */
  lemma CarelessReceive(cfg: Config, s: State, id: nat)
    requires IdsOk(s) && Enabled(cfg, s, Receive(id)) && !Careful(s, Receive(id))
    ensures !Once(Do(cfg, s, Receive(id)))
  {
    var t := Do(cfg, s, Receive(id));
    var f :| f in s.flights && s.flights[f].id == id;
    assert f in t.flights && s.nextId in t.flights && t.flights[f].id == t.flights[s.nextId].id && f != s.nextId;
  }

  /** A failed delete leaves a message that has been settled. */
  lemma CarelessAbandon(cfg: Config, s: State, f: nat)
    requires IdsOk(s) && LastOk(s) && Once(s) && Enabled(cfg, s, Abandon(f)) && !Careful(s, Abandon(f))
    ensures !Once(Do(cfg, s, Abandon(f)))
  {
    var t := Do(cfg, s, Abandon(f));
    var id := s.flights[f].id;
    assert Settled(s, id) && !Settled(t, id);
    assert WithinLast(s, s.queue[id]);
    forall q, x: nat | Live(s, q, x) ensures Live(t, q, x) {
      assert forall j :: Settled(t, j) ==> Settled(s, j);
    }
    Surplus(s, t, Entry(id), s.queue[id].origin);
  }

  /** A schedule that fires again sends a copy of a message that is elsewhere by now. */
  lemma CarelessFire(cfg: Config, s: State, i: nat)
    requires IdsOk(s) && LastOk(s) && Once(s) && Enabled(cfg, s, Fire(i)) && !Careful(s, Fire(i))
    ensures !Once(Do(cfg, s, Fire(i)))
  {
    var t := Do(cfg, s, Fire(i));
    assert WithinLast(s, s.schedules[i].copy);
    assert forall j :: Settled(t, j) <==> Settled(s, j);
    Surplus(s, t, Entry(s.nextId), s.schedules[i].copy.origin);
  }

  /** One step keeps exactly one copy of every open message, and one worker at most on each, if and only
      if it is careful. */
  lemma StepOnceIff(cfg: Config, s: State, step: Step)
    requires IdsOk(s) && LastOk(s) && Once(s) && Enabled(cfg, s, step)
    requires forall o: nat :: o in s.handled ==> o < |s.origins|
    ensures Once(Do(cfg, s, step)) <==> Careful(s, step)
  {
    if Careful(s, step) {
      StepOnce(cfg, s, step);
    } else {
      match step
      case Receive(id) => CarelessReceive(cfg, s, id);
      case Abandon(f) => CarelessAbandon(cfg, s, f);
      case Fire(i) => CarelessFire(cfg, s, i);
    }
  }

  /** Every state of a run, from first to last, has exactly one copy of every open message. */
  ghost predicate OnceThroughout(cfg: Config, s: State, steps: seq<Step>)
    requires Legal(cfg, s, steps)
    decreases |steps|
  {
    Once(s) && (steps == [] || OnceThroughout(cfg, Do(cfg, s, steps[0]), steps[1..]))
  }

  lemma {:induction false} RunOnceIff(cfg: Config, s: State, steps: seq<Step>)
    requires Valid(cfg) && Inv(cfg, s) && Once(s) && Legal(cfg, s, steps)
    requires forall o: nat :: o in s.handled ==> o < |s.origins|
    ensures OnceThroughout(cfg, s, steps) <==> CarefulRun(cfg, s, steps)
    decreases |steps|
  {
    if steps != [] {
      var t := Do(cfg, s, steps[0]);
      StepInv(cfg, s, steps[0]);
      StepOnceIff(cfg, s, steps[0]);
      HandledKnown(cfg, s, steps[0]);
      if Once(t) {
        RunOnceIff(cfg, t, steps[1..]);
      }
    }
  }

  // ----- Main results -----

  /** Exactly one: in every state of a run in which no message is redelivered while a worker has it, no
      delete fails and no schedule fires twice, whatever else fails, a message that has been handled has
      no live copy, and any other has exactly one: in the entry queue, a schedule or the DLQ. */
  lemma ExactlyOneCopy(cfg: Config, steps: seq<Step>, o: nat)
    requires Valid(cfg) && Legal(cfg, INIT, steps) && CarefulRun(cfg, INIT, steps)
    requires o < |After(cfg, INIT, steps).origins|
    ensures var s := After(cfg, INIT, steps);
            if o in s.handled then forall p :: !Live(s, p, o)
            else exists p :: Live(s, p, o) && forall q :: Live(s, q, o) ==> q == p
  {
    RunOnce(cfg, INIT, steps);
    var s := After(cfg, INIT, steps);
    if o !in s.handled {
      var p :| Live(s, p, o);
      assert forall q :: Live(s, q, o) ==> q == p;
    }
  }

  /** And only in such runs: a run has exactly one copy of every open message, and one worker at most on
      each, in all of its states, if and only if no step of it redelivers a message that a worker has, loses
      a delete or fires a schedule again. */
  lemma ExactlyOnceIff(cfg: Config, steps: seq<Step>)
    requires Valid(cfg) && Legal(cfg, INIT, steps)
    ensures OnceThroughout(cfg, INIT, steps) <==> CarefulRun(cfg, INIT, steps)
  {
    RunOnceIff(cfg, INIT, steps);
  }

  /** In such a run no message is handled successfully twice, or after it has been dead-lettered. */
  lemma HandledOnce(cfg: Config, steps: seq<Step>, f: nat)
    requires Valid(cfg) && Legal(cfg, INIT, steps) && CarefulRun(cfg, INIT, steps)
    requires Handling(After(cfg, INIT, steps), f)
    ensures var s := After(cfg, INIT, steps);
            var o := s.flights[f].copy.origin;
            o !in s.handled && forall i :: i in s.deadLetters ==> s.deadLetters[i].origin != o
  {
    RunOnce(cfg, INIT, steps);
    RunInv(cfg, INIT, steps);
    OnlyCopy(After(cfg, INIT, steps), f);
  }

  lemma OnlyCopy(s: State, f: nat)
    requires IdsOk(s) && Once(s) && Handling(s, f)
    ensures var o := s.flights[f].copy.origin;
            o !in s.handled && forall i :: i in s.deadLetters ==> s.deadLetters[i].origin != o
  {
    UnsettledLive(s, f);
    forall i | i in s.deadLetters ensures s.deadLetters[i].origin != s.flights[f].copy.origin {
      assert Live(s, Buried(i), s.deadLetters[i].origin);
    }
  }

  lemma Prepend(cfg: Config, s: State, step: Step, rest: seq<Step>)
    requires Enabled(cfg, s, step) && Legal(cfg, Do(cfg, s, step), rest)
    ensures Legal(cfg, s, [step] + rest) && After(cfg, s, [step] + rest) == After(cfg, Do(cfg, s, step), rest)
    ensures CarefulRun(cfg, s, [step] + rest) ==> Careful(s, step) && CarefulRun(cfg, Do(cfg, s, step), rest)
  {}

  /** The exclusion is needed: once a delete has failed the message is handled a second time. */
  lemma FailedDeleteRepeats(cfg: Config, m: Message) returns (steps: seq<Step>)
    requires CountOf(m) < MAX_INT
    ensures Legal(cfg, INIT, steps) && !CarefulRun(cfg, INIT, steps)
    ensures var s := After(cfg, INIT, steps); Handling(s, 2) && s.flights[2].copy.origin in s.handled
  {
    var s1 := Do(cfg, INIT, Enter(m));
    var s2 := Do(cfg, s1, Receive(0));
    var s3 := Do(cfg, s2, Succeed(1));
    var s4 := Do(cfg, s3, Abandon(1));
    assert !Careful(s3, Abandon(1));
    Prepend(cfg, s4, Receive(0), []);
    Prepend(cfg, s3, Abandon(1), [Receive(0)]);
    Prepend(cfg, s2, Succeed(1), [Abandon(1)] + [Receive(0)]);
    Prepend(cfg, s1, Receive(0), [Succeed(1)] + ([Abandon(1)] + [Receive(0)]));
    steps := [Enter(m)] + ([Receive(0)] + ([Succeed(1)] + ([Abandon(1)] + [Receive(0)])));
    Prepend(cfg, INIT, Enter(m), [Receive(0)] + ([Succeed(1)] + ([Abandon(1)] + [Receive(0)])));
  }
}
