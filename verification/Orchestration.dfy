/** processScheduled as the code runs it, on the contents of one message: which step of the retry loop it is. */
module Orchestration {
  import opened Decimal
  import opened Attributes
  import opened RetryLoop
  import B = Backoff

  /** The message is deleted after a success, a schedule, or a publish; or it is retained. */
  datatype Outcome =
    | Handled
    | Rescheduled(table: Table, retry: Schedule)
    | DeadLettered(table: Table, copy: Copy)
    | Retained

  /** The configurations a route accepts. */
  predicate Accepted(cfg: Config) {
    Valid(cfg) && B.MIN_BACKOFF as int <= cfg.base <= cfg.maxDelay <= B.MAX_BACKOFF as int
  }

  /** They are those that pass the checks of the route's options. */
  lemma AcceptedRoutes(c: B.ScheduledRetry)
    requires B.Validate(false, B.WithDefault(c)).None?
    ensures var d := B.WithDefault(c);
            && d.maxRetryCount >= 0 && d.base >= 0 && d.maxDelay >= 0
            && Accepted(Config(d.maxRetryCount, d.base, d.maxDelay))
  {
    B.AcceptedIff(false, B.WithDefault(c));
  }

  /** The outcome is the one the retry loop's steps give: `works` tells whether the API call works. */
  ghost predicate IsOutcome(cfg: Config, c: Copy, now: nat, failed: bool, works: bool, o: Outcome) {
    if !failed then o == Handled
    else if !works then o == Retained
    else if CountOf(c.msg) + 1 <= cfg.maxRetryCount then
      o.Rescheduled? && MayRetry(cfg, c.msg, o.table) && o.retry == Retry(cfg, c, o.table, now)
    else
      o.DeadLettered? && MustBury(cfg, c.msg, o.table) && o.copy == Next(c, o.table, now)
  }

  /** schedule: builds the attributes and the fire time. */
  method CreateSchedule(c: Copy, next: nat, delay: nat, now: nat) returns (table: Table, retry: Schedule)
    ensures Republished(c.msg.attrs, next, table)
    ensures retry == Schedule(Next(c, table, now + delay), B.ScheduleAt(now, delay), false)
  {
    table := BuildRetryAttributes(c.msg.attrs, next);
    var sent := Message(c.msg.body, c.msg.group, Texts(table));
    var survived := if c.hops == 0 then UserPart(Texts(table)) else c.survived;
    retry := Schedule(Copy(sent, c.origin, c.hops + 1, survived, now + delay), B.ScheduleAt(now, delay), false);
  }

  /** publish: builds the attributes of the dead letter. */
  method Publish(c: Copy, next: nat, now: nat) returns (table: Table, copy: Copy)
    ensures Attributes.DeadLettered(c.msg.attrs, next, table)
    ensures copy == Next(c, table, now)
  {
    table := BuildDLQAttributes(c.msg.attrs, next);
    var sent := Message(c.msg.body, c.msg.group, Texts(table));
    copy := Copy(sent, c.origin, c.hops + 1, if c.hops == 0 then UserPart(Texts(table)) else c.survived, now);
  }

  method ProcessScheduled(cfg: Config, c: Copy, now: nat, failed: bool, works: bool) returns (o: Outcome)
    requires Accepted(cfg) && CountOf(c.msg) < MAX_INT
    ensures IsOutcome(cfg, c, now, failed, works, o)
  {
    if !failed {
      return Handled;
    }
    var next := ParseRetryCount(c.msg.attrs) + 1;
    if next <= cfg.maxRetryCount {
      var delay, doublings := B.ComputeBackoff(next as B.int64, cfg.base as B.int64, cfg.maxDelay as B.int64);
      if !works {
        return Retained;
      }
      var table, retry := CreateSchedule(c, next, delay as nat, now);
      return Rescheduled(table, retry);
    }
    if !works {
      return Retained;
    }
    var table, copy := Publish(c, next, now);
    o := Outcome.DeadLettered(table, copy);
  }

  /** The step of the retry loop that an outcome is, for the copy that flight f has. */
  function StepOf(f: nat, o: Outcome): Step {
    match o
    case Handled => Succeed(f)
    case Rescheduled(table, _) => Reschedule(f, table)
    case DeadLettered(table, _) => DeadLetter(f, table)
    case Retained => Abandon(f)
  }

  /** What the code does with a message is an enabled step of the retry loop, and makes the schedule or the
      dead letter that the step makes. */
  lemma CodeIsStep(cfg: Config, s: State, f: nat, failed: bool, works: bool, o: Outcome)
    requires Handling(s, f) && IsOutcome(cfg, s.flights[f].copy, s.now, failed, works, o)
    ensures Enabled(cfg, s, StepOf(f, o))
    ensures o.Rescheduled? ==> Do(cfg, s, StepOf(f, o)).schedules == s.schedules[s.nextId := o.retry]
    ensures o.DeadLettered? ==> Do(cfg, s, StepOf(f, o)).deadLetters == s.deadLetters[s.nextId := o.copy]
    ensures var t := Do(cfg, s, StepOf(f, o));
            && t.queue == s.queue && t.handled == s.handled + (if o.Handled? then {s.flights[f].copy.origin} else {})
            && (o.Retained? <==> f !in t.flights)
  {}
}
