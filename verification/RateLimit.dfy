/** The fixed-window rate limiter: window arithmetic in 64-bit integers, the Redis counter script, and what callers
    get out of both. */
module RateLimit {
  import opened Schema
  import opened Bytes
  import opened Transcripts

  const MILLISECOND: Time := 1_000_000

  // ----- window arithmetic -----

  /** Division and remainder of the Go language, which truncate toward zero. */
  function Quotient(a: int, b: int): int
    requires b > 0
  {
    if a >= 0 then a / b else -((-a) / b)
  }

  function Remainder(a: int, b: int): int
    requires b > 0
  {
    a - b * Quotient(a, b)
  }

  function FloorTo(t: int, w: int): int
    requires w > 0
  {
    (t / w) * w
  }

  lemma QuotientFloors(t: int, w: int)
    requires w > 0
    ensures t / w == if Remainder(t, w) < 0 then Quotient(t, w) - 1 else Quotient(t, w)
  {
    if t < 0 {
      var q, r := (-t) / w, (-t) % w;
      assert -t == q * w + r && 0 <= r < w;
      if r == 0 {
        assert t == (-q) * w;
        FloorUnique(t, w, -q);
        } else { assert t == (-q - 1) * w + (w - r);
        FloorUnique(t, w, -q - 1);
      }
    }
  }

  lemma FloorUnique(t: int, w: int, q: int)
    requires w > 0 && q * w <= t < q * w + w
    ensures t / w == q
  {
    var p := t / w;
    assert p * w <= t < p * w + w;
    if p < q { MultiplyKeepsOrder(p + 1, q, w); }
    if q < p { MultiplyKeepsOrder(q + 1, p, w); }
  }

  lemma MultiplyKeepsOrder(a: int, b: int, w: int)
    requires a <= b && w >= 0
    ensures a * w <= b * w
  {
  }

  /** The guard on the quotient is exactly the guard on the product. */
  lemma GuardExact(q: int, w: int)
    requires w > 0
    ensures q >= Quotient(-TWO63, w) <==> q * w >= -TWO63
    ensures q <= Quotient(TWO63 - 1, w) <==> q * w <= TWO63 - 1
  {
    var low, high := TWO63 / w, (TWO63 - 1) / w;
    assert low * w <= TWO63 < low * w + w && high * w <= TWO63 - 1 < high * w + w;
    if q >= -low { MultiplyKeepsOrder(-low, q, w); } else { MultiplyKeepsOrder(q, -low - 1, w); }
    if q <= high { MultiplyKeepsOrder(q, high, w); } else { MultiplyKeepsOrder(high + 1, q, w); }
  }

  // floorWindowStart
  method FloorWindowStart(t: int, w: int) returns (start: int, ok: bool)
    requires Int64(t) && Int64(w)
    ensures ok <==> w > 0 && Int64(FloorTo(t, w))
    ensures ok ==> start == FloorTo(t, w) && start <= t < start + w
  {
    if w <= 0 { return 0, false; }
    QuotientFloors(t, w);
    var quotient := Quotient(t, w);
    if Remainder(t, w) < 0 { quotient := quotient - 1; }
    GuardExact(quotient, w);
    if quotient < Quotient(-TWO63, w) || quotient > Quotient(TWO63 - 1, w) { return 0, false; }
    return quotient * w, true;
  }

  // ----- the counter script -----

  datatype Policy = Policy(limit: nat, window: Time)

  // validRedisPolicy, and a window of whole milliseconds
  predicate PolicyValid(o: Operation, p: Policy) {
    && p.window % MILLISECOND == 0
    && match o
       case Login => 1 <= p.limit <= 100 && MINUTE <= p.window <= DAY
       case Delivery => 1 <= p.limit <= 20 && 10 * MINUTE <= p.window <= DAY
       case ChallengeOp => 5 <= p.limit <= 100 && MINUTE <= p.window <= 30 * MINUTE
  }

  /** One call: the instant its digest is computed for and the instant its script runs.  The digest is keyed by
      operation, window start and subject. */
  datatype Call = Call(o: Operation, subject: seq<byte>, at: Time, ran: Time)
  datatype Key = Key(o: Operation, start: int, subject: seq<byte>)
  datatype Counter = Counter(count: nat, deadline: Time)

  function KeyOf(c: Call, p: Policy): Key
    requires p.window > 0
  {
    Key(c.o, FloorTo(c.at, p.window), c.subject)
  }

  /** INCR, and PEXPIRE on the first increment; an expired key counts from one again. */
  function Increment(counters: map<Key, Counter>, k: Key, ran: Time, window: Time): Counter {
    if k in counters && ran < counters[k].deadline then counters[k].(count := counters[k].count + 1)
    else Counter(1, ran + window)
  }

  /** The verdict on the script's reply: the count and the time to live in milliseconds. */
  predicate Verdict(c: Counter, ran: Time, p: Policy) {
    && p.window > 0
    && var ttl := (c.deadline - ran) / MILLISECOND;
       c.count >= 1 && 1 <= ttl <= p.window / MILLISECOND && c.count <= p.limit
  }

  class RedisLimiter {
    var counters: map<Key, Counter>

    constructor ()
      ensures counters == map[]
    {
      counters := map[];
    }

    // Allow
    method Allow(c: Call, p: Policy) returns (allowed: bool)
      modifies this
      ensures !PolicyValid(c.o, p) ==> !allowed && counters == old(counters)
      ensures PolicyValid(c.o, p) ==>
                && counters == old(counters)[KeyOf(c, p) := Increment(old(counters), KeyOf(c, p), c.ran, p.window)]
                && allowed == Verdict(counters[KeyOf(c, p)], c.ran, p)
    {
      if !PolicyValid(c.o, p) { return false; }
      var k := KeyOf(c, p);
      var counter := Increment(counters, k, c.ran, p.window);
      counters := counters[k := counter];
      var ttl := (counter.deadline - c.ran) / MILLISECOND;
      if counter.count < 1 || ttl < 1 || ttl > p.window / MILLISECOND { return false; }
      allowed := counter.count <= p.limit;
    }
  }

  // ----- histories -----

  datatype Policies = Policies(login: Policy, delivery: Policy, challenge: Policy) {
    function For(o: Operation): Policy {
      match o
      case Login => login
      case Delivery => delivery
      case ChallengeOp => challenge
    }
  }

  predicate Configured(ps: Policies) {
    PolicyValid(Login, ps.login) && PolicyValid(Delivery, ps.delivery) && PolicyValid(ChallengeOp, ps.challenge)
  }

  function KeyIn(c: Call, ps: Policies): Key
    requires Configured(ps)
  {
    KeyOf(c, ps.For(c.o))
  }

  /** The counters after a history of calls, each taken as RedisLimiter.Allow takes it. */
  function After(calls: seq<Call>, ps: Policies): map<Key, Counter>
    requires Configured(ps)
  {
    if calls == [] then map[] else
      var before := After(calls[..|calls| - 1], ps);
      var c := calls[|calls| - 1];
      before[KeyIn(c, ps) := Increment(before, KeyIn(c, ps), c.ran, ps.For(c.o).window)]
  }

  /** Whether call i of the history was allowed. */
  predicate Allowed(calls: seq<Call>, i: nat, ps: Policies)
    requires i < |calls| && Configured(ps)
  {
    KeyIn(calls[i], ps) in After(calls[..i + 1], ps) &&
    Verdict(After(calls[..i + 1], ps)[KeyIn(calls[i], ps)], calls[i].ran, ps.For(calls[i].o))
  }

  function Made(calls: seq<Call>, k: Key, ps: Policies): nat
    requires Configured(ps)
  {
    if calls == [] then 0 else Made(calls[..|calls| - 1], k, ps) + if KeyIn(calls[|calls| - 1], ps) == k then 1 else 0
  }

  function Granted(calls: seq<Call>, n: nat, k: Key, ps: Policies): nat
    requires n <= |calls| && Configured(ps)
  {
    if n == 0 then 0 else Granted(calls, n - 1, k, ps) + if KeyIn(calls[n - 1], ps) == k && Allowed(calls, n - 1, ps)
    then 1 else 0
  }

  /** When the script first ran for a key. */
  function FirstRun(calls: seq<Call>, k: Key, ps: Policies): Option<Time>
    requires Configured(ps)
  {
    if calls == [] then None else
      var first, c := FirstRun(calls[..|calls| - 1], k, ps), calls[|calls| - 1];
      if first.None? && KeyIn(c, ps) == k then Some(c.ran) else first
  }

  /** Every script of the key runs less than one window after its first one, that is before the key expires. */
  predicate Prompt(calls: seq<Call>, k: Key, ps: Policies)
    requires Configured(ps)
  {
    calls == [] ||
    (var rest, c := calls[..|calls| - 1], calls[|calls| - 1];
     Prompt(rest, k, ps) &&
     (KeyIn(c, ps) == k && FirstRun(rest, k, ps).Some? ==> c.ran < FirstRun(rest, k, ps).value + ps.For(k.o).window))
  }

  /** The counter never runs ahead of the calls made, and counts them all if and only if every script was prompt. */
  lemma {:induction false} CounterCounts(calls: seq<Call>, k: Key, ps: Policies)
    requires Configured(ps)
    ensures k in After(calls, ps) <==> Made(calls, k, ps) > 0
    ensures k in After(calls, ps) <==> FirstRun(calls, k, ps).Some?
    ensures k in After(calls, ps) ==>
              && 1 <= After(calls, ps)[k].count <= Made(calls, k, ps)
              && (After(calls, ps)[k].count == Made(calls, k, ps) <==> Prompt(calls, k, ps))
              && (Prompt(calls, k, ps) ==>
                    After(calls, ps)[k].deadline == FirstRun(calls, k, ps).value + ps.For(k.o).window)
    ensures k !in After(calls, ps) ==> Prompt(calls, k, ps)
  {
    if calls != [] { CounterCounts(calls[..|calls| - 1], k, ps); }
  }

  lemma FloorBounds(t: int, w: int)
    requires w > 0
    ensures FloorTo(t, w) <= t < FloorTo(t, w) + w
  {
  }

  /** Scripts that run inside the window of their own digest are prompt. */
  lemma {:induction false} InsideIsPrompt(calls: seq<Call>, k: Key, ps: Policies)
    requires Configured(ps)
    requires forall c :: c in calls && KeyIn(c, ps) == k ==> c.at <= c.ran < k.start + ps.For(k.o).window
    ensures Prompt(calls, k, ps) && (FirstRun(calls, k, ps).Some? ==> FirstRun(calls, k, ps).value >= k.start)
  {
    if calls != [] {
      var rest, c := calls[..|calls| - 1], calls[|calls| - 1];
      InsideIsPrompt(rest, k, ps);
      assert c in calls;
      FloorBounds(c.at, ps.For(c.o).window);
    }
  }

  /** How often the script found the key missing or expired and counted from one. */
  function Starts(calls: seq<Call>, k: Key, ps: Policies): nat
    requires Configured(ps)
  {
    if calls == [] then 0 else
      var before, c := calls[..|calls| - 1], calls[|calls| - 1];
      var counters := After(before, ps);
      Starts(before, k, ps) + if KeyIn(c, ps) == k && !(k in counters && c.ran < counters[k].deadline) then 1 else 0
  }

  lemma {:induction false} PromptStartsOnce(calls: seq<Call>, k: Key, ps: Policies)
    requires Configured(ps)
    ensures Prompt(calls, k, ps) <==> Starts(calls, k, ps) <= 1
    ensures Starts(calls, k, ps) > 0 <==> k in After(calls, ps)
  {
    if calls != [] {
      PromptStartsOnce(calls[..|calls| - 1], k, ps);
      CounterCounts(calls[..|calls| - 1], k, ps);
    }
  }

  /** Grants of a key before its current start, and since. */
  lemma {:induction false} GrantedByStart(calls: seq<Call>, n: nat, k: Key, ps: Policies)
    requires n <= |calls| && Configured(ps)
    ensures k !in After(calls[..n], ps) ==> Granted(calls, n, k, ps) == 0 && Starts(calls[..n], k, ps) == 0
    ensures k in After(calls[..n], ps) ==>
              var limit, count := ps.For(k.o).limit, After(calls[..n], ps)[k].count;
              Starts(calls[..n], k, ps) > 0 &&
              Granted(calls, n, k, ps) <= limit * (Starts(calls[..n], k, ps) - 1) + if count <= limit then count
              else limit
  {
    if n > 0 {
      GrantedByStart(calls, n - 1, k, ps);
      assert calls[..n][..n - 1] == calls[..n - 1];
      OneStartMore(ps.For(k.o).limit, Starts(calls[..n - 1], k, ps));
    }
  }

  lemma OneStartMore(limit: nat, starts: nat)
    ensures starts > 0 ==> limit * (starts - 1) + limit == limit * starts
  {
  }

  lemma PartWithin(limit: nat, starts: nat, granted: nat, count: nat)
    requires starts > 0 && granted <= limit * (starts - 1) + if count <= limit then count else limit
    ensures granted <= limit * starts && (starts == 1 ==> granted <= limit)
  {
    OneStartMore(limit, starts);
  }

  /** At most `limit` calls are allowed for one subject and operation in one aligned window, for every time its key
      was started; when its scripts are prompt, that is once. */
  lemma WindowLimit(calls: seq<Call>, k: Key, ps: Policies)
    requires Configured(ps)
    ensures Granted(calls, |calls|, k, ps) <= ps.For(k.o).limit * Starts(calls, k, ps)
    ensures Prompt(calls, k, ps) ==> Granted(calls, |calls|, k, ps) <= ps.For(k.o).limit
  {
    assert calls[..|calls|] == calls;
    GrantedByStart(calls, |calls|, k, ps);
    var limit, starts := ps.For(k.o).limit, Starts(calls, k, ps);
    if starts > 0 {
      PartWithin(limit, starts, Granted(calls, |calls|, k, ps), After(calls, ps)[k].count);
    }
    if Prompt(calls, k, ps) { PromptStartsOnce(calls, k, ps); }
  }

  /** A delayed script breaks the limit: of two sign-ins of one window, one is one too many, and both are allowed when
      the second computes its digest just before the window ends and runs just after. */
  lemma DelayedScriptExceeds(subject: seq<byte>, ps: Policies)
    requires Configured(ps) && ps.login == Policy(1, MINUTE)
    ensures var calls := [Call(Login, subject, 0, 0), Call(Login, subject, MINUTE - 1, MINUTE)];
            !Prompt(calls, Key(Login, 0, subject), ps) && Granted(calls, 2, Key(Login, 0, subject), ps) == 2
  {
    var first, second, k := Call(Login, subject, 0, 0), Call(Login, subject, MINUTE - 1,
                                                             MINUTE), Key(Login, 0, subject);
    var calls := [first, second];
    FloorUnique(0, MINUTE, 0);
    FloorUnique(MINUTE - 1, MINUTE, 0);
    assert KeyIn(first, ps) == k && KeyIn(second, ps) == k;
    assert calls[..2] == calls && calls[..1] == [first] && [first][..0] == [];
    assert After([first], ps) == map[k := Counter(1, MINUTE)];
    assert After(calls, ps)[k] == Counter(1, 2 * MINUTE);
    assert FirstRun([first], k, ps) == Some(0);
    assert Allowed(calls, 0, ps) && Allowed(calls, 1, ps);
    assert Granted(calls, 1, k, ps) == 1;
  }

  /** Within the limit no call of a window is refused, except in the last millisecond of its key. */
  lemma EarlyCallsAllowed(calls: seq<Call>, n: nat, ps: Policies)
    requires n < |calls| && Configured(ps)
    requires Made(calls[..n + 1], KeyIn(calls[n], ps), ps) <= ps.For(calls[n].o).limit
    ensures Allowed(calls, n, ps) <==>
            After(calls[..n + 1], ps)[KeyIn(calls[n], ps)].deadline - calls[n].ran >= MILLISECOND &&
            After(calls[..n + 1], ps)[KeyIn(calls[n], ps)].deadline - calls[n].ran < ps.For(calls[n].o).window +
            MILLISECOND
  {
    CounterCounts(calls[..n + 1], KeyIn(calls[n], ps), ps);
    var w := ps.For(calls[n].o).window;
    assert w == (w / MILLISECOND) * MILLISECOND;
  }

  /** Allowed calls of one subject and operation between a and a plus one window length. */
  function GrantedBetween(calls: seq<Call>, n: nat, o: Operation, subject: seq<byte>, a: Time, ps: Policies): nat
    requires n <= |calls| && Configured(ps)
  {
    if n == 0 then 0 else
      GrantedBetween(calls, n - 1, o, subject, a, ps) +
      if calls[n - 1].o == o && calls[n - 1].subject == subject && a <= calls[n - 1].at < a + ps.For(o).window &&
         Allowed(calls, n - 1, ps)
      then 1 else 0
  }

  lemma TwoWindows(t: Time, a: Time, w: Time)
    requires w > 0 && a <= t < a + w
    ensures FloorTo(t, w) == FloorTo(a, w) || FloorTo(t, w) == FloorTo(a, w) + w
  {
    var q := a / w;
    assert q * w <= a < q * w + w;
    if t < q * w + w {
      FloorUnique(t, w, q);
    } else {
      assert (q + 1) * w == q * w + w;
      FloorUnique(t, w, q + 1);
    }
  }

  lemma {:induction false} BetweenIsCovered(calls: seq<Call>, n: nat, o: Operation, subject: seq<byte>, a: Time,
                                            ps: Policies)
    requires n <= |calls| && Configured(ps)
    ensures var w := ps.For(o).window;
            GrantedBetween(calls, n, o, subject, a, ps) <=
            Granted(calls, n, Key(o, FloorTo(a, w), subject), ps) +
            Granted(calls, n, Key(o, FloorTo(a, w) + w, subject), ps)
  {
    if n > 0 {
      BetweenIsCovered(calls, n - 1, o, subject, a, ps);
      if a <= calls[n - 1].at < a + ps.For(o).window { TwoWindows(calls[n - 1].at, a, ps.For(o).window); }
    }
  }

  /** At most twice `limit` calls read the clock in any interval of one window length and are allowed, when the
      scripts of the two windows it meets are prompt; and `limit` calls for every start of either key otherwise. */
  lemma IntervalLimit(calls: seq<Call>, o: Operation, subject: seq<byte>, a: Time, ps: Policies)
    requires Configured(ps)
    ensures var w := ps.For(o).window;
            var k, k' := Key(o, FloorTo(a, w), subject), Key(o, FloorTo(a, w) + w, subject);
            && GrantedBetween(calls, |calls|, o, subject, a, ps) <= ps.For(o).limit * Starts(calls, k, ps) +
               ps.For(o).limit * Starts(calls, k', ps)
            && (Prompt(calls, k, ps) && Prompt(calls, k', ps) ==>
                  GrantedBetween(calls, |calls|, o, subject, a, ps) <= 2 * ps.For(o).limit)
  {
    BetweenIsCovered(calls, |calls|, o, subject, a, ps);
    WindowLimit(calls, Key(o, FloorTo(a, ps.For(o).window), subject), ps);
    WindowLimit(calls, Key(o, FloorTo(a, ps.For(o).window) + ps.For(o).window, subject), ps);
  }
}
