/** The visibility loop that hides one message while its handler runs: the values it sends, the order
    in which it can send them, and for how long the message is really hidden. */
module Visibility {
  import opened Options

  /** Seconds by which the loop renews ahead of the expiry. */
  const RENEWAL_MARGIN := 10
  /** The smallest and largest visibility timeouts SQS accepts. */
  const MIN_TIMEOUT := 0
  const MAX_TIMEOUT := 43200
  /** The smallest timeout a route can have. */
  const MIN_ROUTE_TIMEOUT := 11
  const MAX_INT32 := 0x7fff_ffff

  datatype Settings = Settings(timeout: int, limit: nat, scheduled: bool)

  /** What a route guarantees: at least 11 seconds, held in 32 bits. */
  predicate Accepted(v: Settings) { MIN_ROUTE_TIMEOUT <= v.timeout <= MAX_INT32 }

  /** Two's-complement addition on 32 bits. */
  function Add32(a: int, b: int): int { (a + b + 0x8000_0000) % 0x1_0000_0000 - 0x8000_0000 }

  /** The sum, wrapped around into 32 bits. */
  lemma Add32Wraps(a: int, b: int)
    ensures -2_147_483_648 <= Add32(a, b) <= 2_147_483_647
    ensures (Add32(a, b) - (a + b)) % 4_294_967_296 == 0
  {}

  function Clamp(timeout: int): int {
    if timeout < MIN_TIMEOUT then MIN_TIMEOUT else if timeout > MAX_TIMEOUT then MAX_TIMEOUT else timeout
  }

  /** The message's two signal channels and its flag. `slot` is the one-place backoff channel. */
  datatype Signals = Signals(dispatched: bool, backedOff: bool, slot: Option<int>)

  /** Where the loop is: not started, at its select, in an extension call, in the backoff call, returned. */
  datatype Loop = NotStarted | Select(count: nat, extension: int) | Extend(count: nat, extension: int) | Final | Ended

  datatype Event = LimitReached | ContextDone | DispatchSignal | BackoffSignal(delay: int) | Tick | CallReturned

  /** Which cases are ready. When several are, any of them may be chosen. */
  predicate Ready(v: Settings, l: Loop, e: Event, sig: Signals, cancelled: bool) {
    match e
    case LimitReached => l.Select? && l.count > v.limit
    case ContextDone => l.Select? && l.count <= v.limit && cancelled
    case DispatchSignal => l.Select? && l.count <= v.limit && sig.dispatched
    case BackoffSignal(d) => l.Select? && l.count <= v.limit && !v.scheduled && sig.slot == Some(d)
    case Tick => l.Select? && l.count <= v.limit
    case CallReturned => l.Extend? || l.Final?
  }

  function Next(v: Settings, l: Loop, e: Event): Loop {
    match e
    case LimitReached => Ended
    case ContextDone => Ended
    case DispatchSignal => Ended
    case BackoffSignal(_) => Final
    case Tick =>
      if l.Select? then Extend(l.count, if l.count > 0 then Add32(l.extension, v.timeout) else l.extension) else l
    case CallReturned => if l.Extend? then Select(l.count + 1, l.extension) else Ended
  }

  /** The timeout of the call the event issues, if it issues one. */
  function Call(v: Settings, l: Loop, e: Event): seq<int> {
    match e
    case BackoffSignal(d) => [Clamp(d)]
    case Tick => (match Next(v, l, e) case Extend(_, extension) => [Clamp(extension)] case _ => [])
    case _ => []
  }

  // ----- The values -----

  /** The extension held after k renewals, as 32-bit arithmetic leaves it. */
  function Extension(v: Settings, k: nat): int {
    if k <= 1 then v.timeout else Add32(Extension(v, k - 1), v.timeout)
  }

  function TickValue(v: Settings, k: nat): int { Clamp(Extension(v, k)) }

  /** The calls of the first n ticks. */
  function Ticks(v: Settings, n: nat): seq<int> {
    if n == 0 then [] else Ticks(v, n - 1) + [TickValue(v, n)]
  }

  lemma MulLe(a: nat, b: nat, t: nat)
    requires a <= b
    ensures a * t <= b * t
  {}

  lemma OneMore(k: nat, t: nat)
    ensures (k + 1) * t == k * t + t && k * t <= (k + 1) * t
  {}

  /** As long as k*timeout fits in 32 bits, the k-th extension is exactly that. */
  lemma {:induction false} ExtensionExact(v: Settings, k: nat)
    requires Accepted(v) && 1 <= k && k * v.timeout <= MAX_INT32
    ensures Extension(v, k) == k * v.timeout
  {
    if k > 1 {
      OneMore(k - 1, v.timeout);
      ExtensionExact(v, k - 1);
    }
  }

  lemma {:induction false} Wraps(v: Settings, k: nat) returns (turns: int)
    requires -2_147_483_648 <= v.timeout <= 2_147_483_647 && k >= 1
    ensures Extension(v, k) == k * v.timeout + turns * 4_294_967_296
  {
    if k == 1 {
      turns := 0;
    } else {
      var before := Wraps(v, k - 1);
      var sum := Extension(v, k - 1) + v.timeout;
      Add32Wraps(Extension(v, k - 1), v.timeout);
      turns := before + (Add32(Extension(v, k - 1), v.timeout) - sum) / 4_294_967_296;
      assert k * v.timeout == (k - 1) * v.timeout + v.timeout;
    }
  }

  lemma ModOfWraps(x: int, y: int, turns: int)
    requires x == y + turns * 4_294_967_296
    ensures (x - y) % 4_294_967_296 == 0
  {}

  /** The k-th extension is k*timeout wrapped around into 32 bits, however often it has wrapped. */
  lemma ExtensionWraps(v: Settings, k: nat)
    requires -2_147_483_648 <= v.timeout <= 2_147_483_647 && k >= 1
    ensures -2_147_483_648 <= Extension(v, k) <= 2_147_483_647
    ensures (Extension(v, k) - k * v.timeout) % 4_294_967_296 == 0
  {
    var turns := Wraps(v, k);
    ModOfWraps(Extension(v, k), k * v.timeout, turns);
    if k > 1 {
      Add32Wraps(Extension(v, k - 1), v.timeout);
    }
  }

  /** The first renewal past 32 bits goes negative and is sent as zero: the message reappears at once. */
  lemma {:induction false} FirstOverflow(v: Settings, n: nat) returns (k: nat)
    requires Accepted(v) && n * v.timeout > MAX_INT32
    ensures 1 < k <= n && TickValue(v, k) == 0
    ensures k * v.timeout > MAX_INT32 && forall j :: 1 <= j < k ==> j * v.timeout <= MAX_INT32
  {
    if (n - 1) * v.timeout > MAX_INT32 {
      k := FirstOverflow(v, n - 1);
    } else {
      k := n;
      OverflowsAt(v, n);
      EarlierFit(v, n - 1);
    }
  }

  lemma OverflowsAt(v: Settings, n: nat)
    requires Accepted(v) && n > 0 && (n - 1) * v.timeout <= MAX_INT32 < n * v.timeout
    ensures n > 1 && TickValue(v, n) == 0
  {
    OneMore(n - 1, v.timeout);
    if n > 1 {
      ExtensionExact(v, n - 1);
    }
  }

  lemma EarlierFit(v: Settings, n: nat)
    requires Accepted(v) && n * v.timeout <= MAX_INT32
    ensures forall j :: 1 <= j <= n ==> j * v.timeout <= MAX_INT32
  {
    forall j | 1 <= j <= n ensures j * v.timeout <= MAX_INT32 {
      MulLe(j, n, v.timeout);
    }
  }

  predicate Fits(v: Settings) { (v.limit + 1) * v.timeout <= 2_147_483_647 }

  ghost predicate ValuesExact(v: Settings) {
    forall k :: 1 <= k <= v.limit + 1 ==> TickValue(v, k) == Min(43200, k * v.timeout)
  }

  /** The k-th tick sends min(43200, k*timeout) for every tick the limit allows exactly when
      (limit+1)*timeout fits in 32 bits. */
  lemma ValuesExactIff(v: Settings)
    requires 11 <= v.timeout <= 2_147_483_647
    ensures ValuesExact(v) <==> Fits(v)
  {
    if Fits(v) {
      forall k: nat | 1 <= k <= v.limit + 1 ensures TickValue(v, k) == Min(MAX_TIMEOUT, k * v.timeout) {
        MulLe(k, v.limit + 1, v.timeout);
        ExtensionExact(v, k);
      }
    } else {
      var k := FirstOverflow(v, v.limit + 1);
      MulLe(1, k, v.timeout);
      assert TickValue(v, k) != Min(MAX_TIMEOUT, k * v.timeout);
    }
  }

  // ----- The call sequence -----

  /** The calls a loop in state l has made. */
  ghost predicate CallsSoFar(v: Settings, l: Loop, calls: seq<int>) {
    match l
    case NotStarted => calls == []
    case Select(c, x) => c <= v.limit + 1 && x == Extension(v, c) && calls == Ticks(v, c)
    case Extend(c, x) => c <= v.limit && x == Extension(v, c + 1) && calls == Ticks(v, c + 1)
    case Final => BackoffLast(v, calls)
    case Ended => TicksOnly(v, calls) || BackoffLast(v, calls)
  }

  ghost predicate TicksOnly(v: Settings, calls: seq<int>) {
    |calls| <= v.limit + 1 && calls == Ticks(v, |calls|)
  }

  /** At most limit ticks, then one backoff call; never in scheduled mode. */
  ghost predicate BackoffLast(v: Settings, calls: seq<int>) {
    && !v.scheduled
    && 1 <= |calls| <= v.limit + 1
    && calls[..|calls| - 1] == Ticks(v, |calls| - 1)
    && 0 <= calls[|calls| - 1] <= 43200
  }

  lemma {:induction false} TicksLength(v: Settings, n: nat)
    ensures |Ticks(v, n)| == n
    ensures forall k :: 0 <= k < n ==> Ticks(v, n)[k] == TickValue(v, k + 1)
  {
    if n > 0 {
      TicksLength(v, n - 1);
    }
  }

  /** Every event keeps the account of the calls, whatever the signals. */
  lemma EventKeepsCalls(v: Settings, l: Loop, e: Event, sig: Signals, cancelled: bool, calls: seq<int>)
    requires Ready(v, l, e, sig, cancelled) && CallsSoFar(v, l, calls)
    ensures CallsSoFar(v, Next(v, l, e), calls + Call(v, l, e))
  {
    if l.Select? {
      TicksLength(v, l.count);
      assert calls + [] == calls;
    } else {
      assert calls + [] == calls;
      if l.Extend? {
        TicksLength(v, l.count + 1);
      }
    }
  }

  lemma CallsShape(v: Settings, l: Loop, calls: seq<int>)
    requires CallsSoFar(v, l, calls)
    ensures TicksOnly(v, calls) || ((l.Final? || l.Ended?) && BackoffLast(v, calls))
  {
    if l.Select? {
      TicksLength(v, l.count);
    } else if l.Extend? {
      TicksLength(v, l.count + 1);
    }
  }

  /** The first n calls are min(43200, k*timeout) for k = 1..n; so they lie in range and never decrease. */
  ghost predicate ExactTicks(v: Settings, calls: seq<int>, n: nat) {
    && n <= |calls|
    && (forall k :: 0 <= k < n ==> calls[k] == Min(43200, (k + 1) * v.timeout))
    && (forall k :: 0 <= k < n ==> 0 <= calls[k] <= 43200)
    && (forall j, k :: 0 <= j <= k < n ==> calls[j] <= calls[k])
  }

  lemma TicksExact(v: Settings, n: nat)
    requires Accepted(v) && Fits(v) && n <= v.limit + 1
    ensures |Ticks(v, n)| == n && ExactTicks(v, Ticks(v, n), n)
  {
    ValuesExactIff(v);
    TicksLength(v, n);
    forall k: nat | k < n ensures Ticks(v, n)[k] == Min(MAX_TIMEOUT, (k + 1) * v.timeout) {
      var next := k + 1;
      assert TickValue(v, next) == Min(MAX_TIMEOUT, next * v.timeout);
    }
    forall j: nat, k: nat | j <= k < n ensures Ticks(v, n)[j] <= Ticks(v, n)[k] {
      MulLe(j + 1, k + 1, v.timeout);
    }
  }

  lemma ExactPrefix(v: Settings, calls: seq<int>, n: nat)
    requires n <= |calls| && ExactTicks(v, calls[..n], n)
    ensures ExactTicks(v, calls, n)
  {}

  /** Whatever was picked, the calls are the ticks in order and then at most one backoff call, in range and
      the last; if the extensions fit in 32 bits the tick-driven values are min(43200, k*timeout) for
      k = 1..n with n <= limit+1. */
  lemma CallSequence(v: Settings, l: Loop, calls: seq<int>) returns (n: nat)
    requires Accepted(v) && CallsSoFar(v, l, calls)
    ensures n <= |calls| <= v.limit + 1 && n >= |calls| - 1
    ensures v.scheduled || l.Select? || l.Extend? ==> n == |calls|
    ensures calls[..n] == Ticks(v, n)
    ensures Fits(v) ==> ExactTicks(v, calls, n)
    ensures n < |calls| ==> 0 <= calls[n] <= 43200
  {
    CallsShape(v, l, calls);
    n := if TicksOnly(v, calls) then |calls| else |calls| - 1;
    assert calls[..n] == Ticks(v, n);
    if Fits(v) {
      TicksExact(v, n);
      ExactPrefix(v, calls, n);
    }
  }

  // ----- The loop as the code runs it -----

  /** What one select picked. */
  datatype Pick = PickContextDone | PickDispatch | PickBackoff(delay: int) | PickTick

  /** The calls the step system makes for the same picks, each call returning before the next select. */
  function Replay(v: Settings, l: Loop, picks: seq<Pick>): seq<int>
    decreases |picks|
  {
    if picks == [] || !l.Select? || l.count > v.limit then []
    else
      match picks[0]
      case PickContextDone => []
      case PickDispatch => []
      case PickBackoff(d) => Call(v, l, BackoffSignal(d))
      case PickTick => Call(v, l, Tick) + Replay(v, Next(v, Next(v, l, Tick), CallReturned), picks[1..])
  }

  /** changeVisibility: reassigns its argument to clamp it, then calls with it. */
  method ChangeVisibility(requested: int) returns (timeout: int)
    ensures 0 <= requested <= 43200 ==> timeout == requested
    ensures requested < 0 ==> timeout == 0
    ensures requested > 43200 ==> timeout == 43200
  {
    timeout := requested;
    if timeout < MIN_TIMEOUT {
      timeout := MIN_TIMEOUT;
    }
    if timeout > MAX_TIMEOUT {
      timeout := MAX_TIMEOUT;
    }
  }

  function Renewed(v: Settings, count: nat, extension: int): int {
    if count > 0 then Add32(extension, v.timeout) else extension
  }

  lemma TickStep(v: Settings, count: nat, extension: int, calls: seq<int>, picks: seq<Pick>)
    requires CallsSoFar(v, Select(count, extension), calls) && count <= v.limit
    requires picks != [] && picks[0].PickTick?
    ensures var x := Renewed(v, count, extension);
            && CallsSoFar(v, Select(count + 1, x), calls + [Clamp(x)])
            && calls + Replay(v, Select(count, extension), picks) ==
               calls + [Clamp(x)] + Replay(v, Select(count + 1, x), picks[1..])
  {
    var x := Renewed(v, count, extension);
    assert Replay(v, Select(count, extension), picks) == [Clamp(x)] + Replay(v, Select(count + 1, x), picks[1..]);
  }

  /** What the calls are once the loop returns. */
  lemma LastStep(v: Settings, count: nat, extension: int, calls: seq<int>, picks: seq<Pick>)
    requires CallsSoFar(v, Select(count, extension), calls)
    requires picks == [] || count > v.limit || !picks[0].PickTick?
    ensures var stops := picks == [] || count > v.limit || !picks[0].PickBackoff?;
            var last := if stops then [] else [Clamp(picks[0].delay)];
            && Replay(v, Select(count, extension), picks) == last
            && (last == [] || !v.scheduled ==> TicksOnly(v, calls + last) || BackoffLast(v, calls + last))
  {
    TicksLength(v, count);
    assert calls + [] == calls;
  }

  /** The loop's variables against the step system: the calls so far are accounted for, and with those
      still to come for the picks from i on they are all of `all`. */
  ghost predicate InStep(v: Settings, count: nat, extension: int, calls: seq<int>, picks: seq<Pick>, i: nat,
                         all: seq<int>)
    requires i <= |picks|
  {
    CallsSoFar(v, Select(count, extension), calls) && calls + Replay(v, Select(count, extension), picks[i..]) == all
  }

  lemma Begun(v: Settings, picks: seq<Pick>)
    ensures InStep(v, 0, v.timeout, [], picks, 0, Replay(v, Select(0, v.timeout), picks))
  {
    assert picks[0..] == picks;
  }

  lemma Ticked(v: Settings, count: nat, extension: int, calls: seq<int>, picks: seq<Pick>, i: nat, all: seq<int>)
    requires i < |picks| && InStep(v, count, extension, calls, picks, i, all)
    requires count <= v.limit && picks[i].PickTick?
    ensures var x := Renewed(v, count, extension);
            InStep(v, count + 1, x, calls + [Clamp(x)], picks, i + 1, all)
  {
    TickStep(v, count, extension, calls, picks[i..]);
    assert picks[i..][1..] == picks[i + 1..];
  }

  lemma Finished(v: Settings, count: nat, extension: int, calls: seq<int>, picks: seq<Pick>, i: nat, all: seq<int>)
    requires i <= |picks| && InStep(v, count, extension, calls, picks, i, all)
    requires i == |picks| || count > v.limit || !picks[i].PickTick?
    requires v.scheduled && i < |picks| ==> !picks[i].PickBackoff?
    ensures var stops := i == |picks| || count > v.limit || !picks[i].PickBackoff?;
            all == if stops then calls else calls + [Clamp(picks[i].delay)]
    ensures TicksOnly(v, all) || BackoffLast(v, all)
  {
    LastStep(v, count, extension, calls, picks[i..]);
    assert calls + [] == calls;
  }

  /** run: the loop over `count` and `extension`, for any picks its selects can make. It makes the calls
      of the step system, and every one of them is accounted for. */
  method Run(v: Settings, picks: seq<Pick>) returns (calls: seq<int>)
    requires v.scheduled ==> forall i :: 0 <= i < |picks| ==> !picks[i].PickBackoff?
    ensures calls == Replay(v, Select(0, v.timeout), picks)
    ensures TicksOnly(v, calls) || BackoffLast(v, calls)
  {
    var count, extension := 0, v.timeout;
    calls := [];
    var i := 0;
    ghost var all := Replay(v, Select(0, v.timeout), picks);
    Begun(v, picks);
    while i < |picks|
      invariant 0 <= i <= |picks| && 0 <= count
      invariant InStep(v, count, extension, calls, picks, i, all)
    {
      if count > v.limit || picks[i].PickContextDone? || picks[i].PickDispatch? {
        break;
      }
      if picks[i].PickBackoff? {
        Finished(v, count, extension, calls, picks, i, all);
        var sent := ChangeVisibility(picks[i].delay);
        return calls + [sent];
      }
      Ticked(v, count, extension, calls, picks, i, all);
      if count > 0 {
        extension := Add32(extension, v.timeout);
      }
      var sent := ChangeVisibility(extension);
      calls, count, i := calls + [sent], count + 1, i + 1;
    }
    Finished(v, count, extension, calls, picks, i, all);
  }

  /** What k ticks and then nothing, a stop or a backoff amount to, for a loop that has made `count`. */
  function ExpectedCalls(v: Settings, count: nat, k: nat, picks: seq<Pick>): seq<int>
    requires k <= |picks|
  {
    if count + k > v.limit then Ticks(v, v.limit + 1)
    else if k < |picks| && picks[k].PickBackoff? then Ticks(v, count + k) + [Clamp(picks[k].delay)]
    else Ticks(v, count + k)
  }

  /** The loop neither stops early nor runs on: every tick up to the limit sends its renewal, and a backoff
      picked before the limit is sent after them. */
  lemma {:induction false} TicksUntilLimit(v: Settings, count: nat, k: nat, picks: seq<Pick>)
    requires count <= v.limit + 1 && k <= |picks| && (forall i :: 0 <= i < k ==> picks[i].PickTick?)
    requires k < |picks| ==> !picks[k].PickTick?
    ensures Ticks(v, count) + Replay(v, Select(count, Extension(v, count)), picks) == ExpectedCalls(v, count, k, picks)
    decreases k
  {
    if k > 0 && count <= v.limit {
      TickStep(v, count, Extension(v, count), Ticks(v, count), picks);
      TicksUntilLimit(v, count + 1, k - 1, picks[1..]);
      ExpectedAfterTick(v, count, k, picks);
    } else {
      NoTickLeft(v, count, k, picks);
    }
  }

  lemma ExpectedAfterTick(v: Settings, count: nat, k: nat, picks: seq<Pick>)
    requires 0 < k <= |picks| && picks[0].PickTick?
    ensures ExpectedCalls(v, count + 1, k - 1, picks[1..]) == ExpectedCalls(v, count, k, picks)
    ensures Extension(v, count + 1) == Renewed(v, count, Extension(v, count))
  {}

  lemma NoTickLeft(v: Settings, count: nat, k: nat, picks: seq<Pick>)
    requires count <= v.limit + 1 && k <= |picks| && (k == 0 || count > v.limit)
    requires k == 0 < |picks| ==> !picks[0].PickTick?
    ensures Ticks(v, count) + Replay(v, Select(count, Extension(v, count)), picks) == ExpectedCalls(v, count, k, picks)
  {
    assert Ticks(v, count) + [] == Ticks(v, count);
  }

  // ----- How long the message stays hidden -----

  /** interval: the seconds between ticks. */
  function Interval(v: Settings): int {
    var seconds := v.timeout - RENEWAL_MARGIN;
    if seconds < 1 then 1 else seconds
  }

  /** Ten seconds less than the timeout, but at least one. */
  lemma IntervalIs(v: Settings)
    ensures Interval(v) == Max(1, v.timeout - 10)
  {}

  /** Received at time 0, started at `start`: when tick k fires, for calls that take no time. */
  function TickTime(v: Settings, start: real, k: nat): real { start + (k * Interval(v)) as real }

  /** The last tick, of the first n, that fired before time t; 0 if none has. */
  function LastTick(v: Settings, start: real, n: nat, t: real): nat {
    if n == 0 then 0 else if TickTime(v, start, n) < t then n else LastTick(v, start, n - 1, t)
  }

  /** Until when the message is hidden by tick k's call, or by the receive request for k = 0. */
  function Deadline(v: Settings, start: real, k: nat): real {
    if k == 0 then v.timeout as real else TickTime(v, start, k) + TickValue(v, k) as real
  }

  /** The loop and until when its message is hidden, on an ideal clock. */
  datatype Watch = Watch(loop: Loop, until: real)

  /** A run of the loop while the handler runs on: at every tick of the ticker it takes its tick event, if
      it still can, and the call it makes hides the message anew from that instant. */
  function Watched(v: Settings, start: real, k: nat): Watch {
    if k == 0 then Watch(Select(0, v.timeout), v.timeout as real)
    else
      var w := Watched(v, start, k - 1);
      if !Ready(v, w.loop, Tick, Signals(false, false, None), false) then w
      else
        var call := Call(v, w.loop, Tick);
        Watch(Next(v, Next(v, w.loop, Tick), CallReturned),
              if call == [] then w.until else TickTime(v, start, k) + call[0] as real)
  }

  /** The run of the loop takes every tick up to its limit, and so hides the message until these deadlines. */
  lemma {:induction false} WatchedIs(v: Settings, start: real, k: nat)
    requires k <= v.limit + 1
    ensures Watched(v, start, k) == Watch(Select(k, Extension(v, k)), Deadline(v, start, k))
  {
    if k > 0 {
      WatchedIs(v, start, k - 1);
    }
  }

  /** At time t, before its limit, the loop has taken the ticks that fired. */
  predicate Hidden(v: Settings, start: real, t: real) {
    t < Watched(v, start, LastTick(v, start, v.limit + 1, t)).until
  }

  lemma HiddenIs(v: Settings, start: real, t: real)
    ensures Hidden(v, start, t) <==> t < Deadline(v, start, LastTick(v, start, v.limit + 1, t))
  {
    LastTickBounds(v, start, v.limit + 1, t);
    WatchedIs(v, start, LastTick(v, start, v.limit + 1, t));
  }

  function CoverageEnd(v: Settings, start: real): real {
    TickTime(v, start, v.limit + 1) + Min(43200, (v.limit + 1) * v.timeout) as real
  }

  /** A message whose handler is still running cannot be received by anyone else before the end. */
  ghost predicate Covered(v: Settings, start: real) {
    forall t: real :: 0.0 <= t < CoverageEnd(v, start) ==> Hidden(v, start, t)
  }

  lemma {:induction false} LastTickBounds(v: Settings, start: real, n: nat, t: real)
    ensures var k := LastTick(v, start, n, t);
            k <= n && (k > 0 ==> TickTime(v, start, k) < t) && (k < n ==> t <= TickTime(v, start, k + 1))
  {
    if n > 0 && TickTime(v, start, n) >= t {
      LastTickBounds(v, start, n - 1, t);
    }
  }

  lemma {:induction false} LastTickIs(v: Settings, start: real, n: nat, k: nat, t: real)
    requires 1 <= k <= n && TickTime(v, start, k) < t <= TickTime(v, start, k + 1)
    ensures LastTick(v, start, n, t) == k
  {
    if n > k {
      MulLe(k + 1, n, Interval(v));
      LastTickIs(v, start, n - 1, k, t);
    }
  }

  lemma TickSpacing(v: Settings, start: real, k: nat)
    ensures TickTime(v, start, k + 1) == TickTime(v, start, k) + Interval(v) as real
  {}

  /** With calls that take no time, the message is hidden without a gap until the last extension runs
      out exactly when a worker picks it up less than ten seconds after the receive and the extensions
      fit in 32 bits. */
  lemma CoverageIff(v: Settings, start: real)
    requires 11 <= v.timeout <= 43200 && start >= 0.0
    ensures Covered(v, start) <==> start < 10.0 && Fits(v)
  {
    ValuesExactIff(v);
    if start >= RENEWAL_MARGIN as real {
      LateStart(v, start);
    } else if !Fits(v) {
      Overflowed(v, start);
    } else {
      forall t: real | 0.0 <= t < CoverageEnd(v, start) ensures Hidden(v, start, t) {
        NoGap(v, start, t);
      }
    }
  }

  /** The coverage ends there and not later: at its end the message is no longer hidden. */
  lemma CoverageTight(v: Settings, start: real)
    requires 11 <= v.timeout <= 43200 && start >= 0.0 && Fits(v)
    ensures !Hidden(v, start, CoverageEnd(v, start))
  {
    var end, n := CoverageEnd(v, start), v.limit + 1;
    ValuesExactIff(v);
    MulLe(1, n, v.timeout);
    LastTickBounds(v, start, n, end);
    assert TickTime(v, start, n) < end;
    AllFired(v, start, n, end);
    HiddenIs(v, start, end);
  }

  lemma {:induction false} AllFired(v: Settings, start: real, n: nat, t: real)
    requires TickTime(v, start, n) < t
    ensures LastTick(v, start, n, t) == n
  {}

  lemma NoGap(v: Settings, start: real, t: real)
    requires Accepted(v) && v.timeout <= MAX_TIMEOUT && 0.0 <= start < RENEWAL_MARGIN as real && ValuesExact(v)
    requires 0.0 <= t < CoverageEnd(v, start)
    ensures Hidden(v, start, t)
  {
    var k := LastTick(v, start, v.limit + 1, t);
    HiddenIs(v, start, t);
    LastTickBounds(v, start, v.limit + 1, t);
    TickSpacing(v, start, k);
    if k > 0 {
      MulLe(1, k, v.timeout);
      assert TickValue(v, k) == Min(MAX_TIMEOUT, k * v.timeout);
    }
  }

  /** Started ten seconds late or more, the message shows at the instant its first timeout expires. */
  lemma LateStart(v: Settings, start: real)
    requires Accepted(v) && v.timeout <= MAX_TIMEOUT && start >= RENEWAL_MARGIN as real
    ensures !Covered(v, start)
  {
    var t := v.timeout as real;
    var k := LastTick(v, start, v.limit + 1, t);
    HiddenIs(v, start, t);
    LastTickBounds(v, start, v.limit + 1, t);
    MulLe(1, v.limit + 1, Interval(v));
    MulLe(1, v.limit + 1, v.timeout);
    if k > 0 { MulLe(1, k, Interval(v)); }
    assert !Hidden(v, start, t);
  }

  /** A renewal that overflowed shows the message at once. */
  lemma Overflowed(v: Settings, start: real)
    requires Accepted(v) && v.timeout <= MAX_TIMEOUT && start >= 0.0 && !Fits(v)
    ensures !Covered(v, start)
  {
    var k := FirstOverflow(v, v.limit + 1);
    var t := TickTime(v, start, k) + 0.5;
    TickSpacing(v, start, k);
    LastTickIs(v, start, v.limit + 1, k, t);
    HiddenIs(v, start, t);
    MulLe(k, v.limit + 1, Interval(v));
    MulLe(0, k, Interval(v));
    assert !Hidden(v, start, t);
  }
}
