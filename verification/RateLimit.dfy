/** The integer token bucket: what it grants over time, what polling costs, when a wait suffices. */
module RateLimit {
  const MICRO: nat := 1000000
  const TWO64: nat := 0x1_0000_0000_0000_0000

  datatype Bucket = Bucket(rate: nat, burst: nat, tokens: nat, last: nat)

  /** No product of the code leaves 64 bits, and the clock does not run backwards. */
  predicate Sane(b: Bucket, now: nat) {
    b.rate > 0 && b.burst * MICRO + b.rate < TWO64 && b.tokens <= b.burst && b.last <= now < TWO64
  }

  /** Credit in millionths of a token: the tokens, and the time not yet turned into tokens. */
  function Credit(b: Bucket, now: nat): nat
    requires b.last <= now
  {
    b.tokens * MICRO + b.rate * (now - b.last)
  }

  function Min(a: nat, b: nat): nat { if a <= b then a else b }

  // ------------------------------------------------------------- arithmetic

  lemma {:induction false} DivMul(a: nat, d: nat)
    requires d > 0
    ensures a / d * d <= a < a / d * d + d
  {
  }

  lemma {:induction false} DivUnique(a: nat, d: nat, q: nat)
    requires d > 0 && q * d <= a < q * d + d
    ensures a / d == q
  {
    var p := a / d;
    DivMul(a, d);
    if p < q { MulLess(p, q, d); }
    if q < p { MulLess(q, p, d); }
  }

  lemma {:induction false} Distribute(x: int, y: int, d: int)
    ensures (x + y) * d == x * d + y * d
  {
  }

  lemma {:induction false} MulLess(p: nat, q: nat, d: nat)
    requires p < q
    ensures p * d + d <= q * d
  {
    Distribute(p + 1, q - p - 1, d);
    Distribute(p, 1, d);
  }

  /** Elapsed time that would overflow is worth more than any burst. */
  lemma {:induction false} LongIsFull(rate: nat, burst: nat, elapsed: nat)
    requires rate > 0 && burst * MICRO + rate < TWO64 && elapsed >= (TWO64 - 1) / rate
    ensures rate * elapsed >= burst * MICRO
  {
    var q := (TWO64 - 1) / rate;
    DivMul(TWO64 - 1, rate);
    assert rate * elapsed >= rate * q by { assert rate * (elapsed - q) >= 0; }
    assert rate * q == q * rate;
  }

  /** The time that whole tokens account for, rounded down, costs less than one microsecond. */
  lemma {:induction false} UsedTime(rate: nat, elapsed: nat)
    requires rate > 0
    ensures
      var added := rate * elapsed / MICRO;
      var used := added * MICRO / rate;
      && used <= elapsed
      && added * MICRO <= rate * elapsed < added * MICRO + MICRO
      && rate * used <= added * MICRO < rate * used + rate
  {
    var added := rate * elapsed / MICRO;
    var used := added * MICRO / rate;
    DivMul(rate * elapsed, MICRO);
    DivMul(added * MICRO, rate);
    assert used * rate == rate * used;
    if used > elapsed { MulLess(elapsed, used, rate); }
  }

  lemma {:induction false} UsedExactly(rate: nat, added: nat)
    requires rate > 0 && MICRO % rate == 0
    ensures rate * (added * MICRO / rate) == added * MICRO
  {
    var q := MICRO / rate;
    assert MICRO == q * rate;
    assert added * MICRO == (added * q) * rate;
    DivUnique(added * MICRO, rate, added * q);
  }

  // ------------------------------------------------------------------ refill

  /** The time the whole tokens of elapsed account for. */
  function TimeOf(rate: nat, elapsed: nat): (used: nat)
    requires rate > 0
    ensures used <= elapsed
  {
    UsedTime(rate, elapsed);
    rate * elapsed / MICRO * MICRO / rate
  }

  /** refill, without the 64-bit arithmetic. */
  function Refilled(b: Bucket, now: nat): (c: Bucket)
    requires Sane(b, now)
    ensures c.rate == b.rate && c.burst == b.burst && Sane(c, now) && b.last <= c.last
  {
    var elapsed := now - b.last;
    if elapsed == 0 then b
    else if elapsed >= (TWO64 - 1) / b.rate then b.(tokens := b.burst, last := now)
    else
      var added := b.rate * elapsed / MICRO;
      if added == 0 then b
      else if added >= b.burst - b.tokens then b.(tokens := b.burst, last := now)
      else b.(tokens := b.tokens + added, last := b.last + TimeOf(b.rate, elapsed))
  }

  lemma {:induction false} CreditSplit(b: Bucket, now: nat, used: nat)
    requires b.last + used <= now
    ensures b.rate * (now - b.last) == b.rate * used + b.rate * (now - b.last - used)
  {
    var x, y := used, now - b.last - used;
    assert b.rate * (x + y) == b.rate * x + b.rate * y;
  }

  /**
    A refill turns credit into tokens up to the burst; it never costs credit below
    a full bucket, and rounding gains less than one microsecond's worth.
   */
  lemma {:induction false} RefillCredit(b: Bucket, now: nat)
    requires Sane(b, now)
    ensures
      var c := Refilled(b, now);
      && Credit(c, now) >= Min(Credit(b, now), b.burst * MICRO)
      && Credit(c, now) < Credit(b, now) + b.rate
      && (c.tokens == b.tokens || MICRO % b.rate == 0 ==> Credit(c, now) <= Credit(b, now))
  {
    var elapsed := now - b.last;
    if elapsed > 0 {
      if elapsed >= (TWO64 - 1) / b.rate {
        LongIsFull(b.rate, b.burst, elapsed);
        assert b.rate * (now - now) == 0;
      } else {
        var added := b.rate * elapsed / MICRO;
        UsedTime(b.rate, elapsed);
        if added >= b.burst - b.tokens {
          assert b.rate * (now - now) == 0;
        } else if added > 0 {
          PartialCredit(b, now, added);
        }
      }
    }
  }

  lemma {:induction false} PartialCredit(b: Bucket, now: nat, added: nat)
    requires Sane(b, now) && added == b.rate * (now - b.last) / MICRO && added * MICRO / b.rate <= now - b.last
    ensures
      var c := b.(tokens := b.tokens + added, last := b.last + added * MICRO / b.rate);
      && Credit(b, now) <= Credit(c, now) < Credit(b, now) + b.rate
      && (MICRO % b.rate == 0 ==> Credit(c, now) == Credit(b, now))
  {
    UsedTime(b.rate, now - b.last);
    CreditSplit(b, now, added * MICRO / b.rate);
    if MICRO % b.rate == 0 { UsedExactly(b.rate, added); }
  }

  /** The tokens after a refill are the whole tokens of the credit, capped. */
  lemma {:induction false} RefillTokens(b: Bucket, now: nat)
    requires Sane(b, now)
    ensures Refilled(b, now).tokens == Min(b.burst, Credit(b, now) / MICRO)
  {
    var elapsed := now - b.last;
    if elapsed == 0 {
      assert b.rate * elapsed == 0;
      DivUnique(Credit(b, now), MICRO, b.tokens);
    } else if elapsed >= (TWO64 - 1) / b.rate {
      LongIsFull(b.rate, b.burst, elapsed);
      assert Credit(b, now) >= b.burst * MICRO;
    } else {
      var added := b.rate * elapsed / MICRO;
      DivMul(b.rate * elapsed, MICRO);
      DivUnique(Credit(b, now), MICRO, b.tokens + added);
    }
  }

  // ------------------------------------------------------------------ polling

  /** Moments one may poll at, up to now. */
  ghost predicate Moments(b: Bucket, at: seq<nat>, now: nat)
    decreases |at|
  {
    Sane(b, now) && (at == [] || (Sane(b, at[0]) && at[0] <= now && Moments(Refilled(b, at[0]), at[1..], now)))
  }

  /** Refills at the given moments, one after another. */
  function Polled(b: Bucket, at: seq<nat>, now: nat): (c: Bucket)
    requires Moments(b, at, now)
    ensures Sane(c, now) && c.rate == b.rate && c.burst == b.burst
    decreases |at|
  {
    if at == [] then b else Polled(Refilled(b, at[0]), at[1..], now)
  }

  lemma {:induction false} CreditGrows(b: Bucket, t: nat, now: nat)
    requires b.last <= t <= now
    ensures Credit(b, now) == Credit(b, t) + b.rate * (now - t)
  {
    Distribute(t - b.last, now - t, b.rate);
    assert b.rate * (now - b.last) == (now - b.last) * b.rate;
    assert b.rate * (t - b.last) == (t - b.last) * b.rate;
    assert b.rate * (now - t) == (now - t) * b.rate;
  }

  lemma {:induction false} MulNonneg(a: nat, b: nat)
    ensures a * b >= 0
  {
  }

  lemma {:induction false} RefillLater(b: Bucket, t: nat, now: nat)
    requires Sane(b, t) && t <= now
    ensures
      var c := Refilled(b, t);
      && Credit(c, now) >= Min(Credit(b, now), b.burst * MICRO)
      && (MICRO % b.rate == 0 ==> Credit(c, now) <= Credit(b, now))
  {
    RefillCredit(b, t);
    CreditGrows(b, t, now);
    CreditGrows(Refilled(b, t), t, now);
    MulNonneg(b.rate, now - t);
  }

  lemma {:induction false} PolledCredit(b: Bucket, at: seq<nat>, now: nat)
    requires Moments(b, at, now)
    ensures
      var c := Polled(b, at, now);
      && Credit(c, now) >= Min(Credit(b, now), b.burst * MICRO)
      && (MICRO % b.rate == 0 ==> Credit(c, now) <= Credit(b, now))
    decreases |at|
  {
    if at != [] {
      RefillLater(b, at[0], now);
      PolledCredit(Refilled(b, at[0]), at[1..], now);
    }
  }

  lemma {:induction false} DivMono(a: nat, b: nat, d: nat)
    requires d > 0 && a <= b
    ensures a / d <= b / d
  {
    DivMul(a, d);
    DivMul(b, d);
    if b / d < a / d { MulLess(b / d, a / d, d); }
  }

  /**
    No schedule of polls in between costs a token; when whole microseconds pay
    for a token, it gains none either.
   */
  lemma {:induction false} PollingIsFree(b: Bucket, at: seq<nat>, now: nat)
    requires Moments(b, at, now)
    ensures Refilled(Polled(b, at, now), now).tokens >= Refilled(b, now).tokens
    ensures MICRO % b.rate == 0 ==> Refilled(Polled(b, at, now), now).tokens == Refilled(b, now).tokens
  {
    var c := Polled(b, at, now);
    PolledCredit(b, at, now);
    RefillTokens(b, now);
    RefillTokens(c, now);
    DivUnique(b.burst * MICRO, MICRO, b.burst);
    DivMono(Min(Credit(b, now), b.burst * MICRO), Credit(c, now), MICRO);
    if MICRO % b.rate == 0 { DivMono(Credit(c, now), Credit(b, now), MICRO); }
  }

  // -------------------------------------------------------------- over a run

  datatype Call = Allow(n: nat) | Consume(n: nat) | Ask

  /** What a call leaves, and the tokens clm_ratelimit_allow granted by it. */
  function Called(b: Bucket, now: nat, call: Call): (r: (Bucket, nat))
    requires Sane(b, now)
    ensures Sane(r.0, now) && r.0.rate == b.rate && r.0.burst == b.burst
  {
    var c := Refilled(b, now);
    match call
    case Allow(n) => if c.tokens >= n then (c.(tokens := c.tokens - n), n) else (c, 0)
    case Consume(n) => (c.(tokens := if c.tokens >= n then c.tokens - n else 0), 0)
    case Ask => (c, 0)
  }

  /** A request is granted whole or not at all, exactly when so many tokens are there; the others take what there is. */
  lemma {:induction false} CallTakes(b: Bucket, now: nat, call: Call)
    requires Sane(b, now)
    ensures
      var t := Min(b.burst, Credit(b, now) / MICRO);
      var (c, granted) := Called(b, now, call);
      match call
      case Allow(n) => granted == (if n <= t then n else 0) && c.tokens == t - granted
      case Consume(n) => granted == 0 && c.tokens == t - Min(n, t)
      case Ask => granted == 0 && c.tokens == t
  {
    RefillTokens(b, now);
  }

  datatype Timed = Timed(at: nat, call: Call)

  ghost predicate Timely(b: Bucket, calls: seq<Timed>, end: nat)
    decreases |calls|
  {
    Sane(b, end) &&
    (calls == [] ||
     (Sane(b, calls[0].at) && calls[0].at <= end
      && Timely(Called(b, calls[0].at, calls[0].call).0, calls[1..], end)))
  }

  /** Tokens granted over the calls. */
  function Grants(b: Bucket, calls: seq<Timed>, end: nat): nat
    requires Timely(b, calls, end)
    decreases |calls|
  {
    if calls == [] then 0
    else
      var r := Called(b, calls[0].at, calls[0].call);
      r.1 + Grants(r.0, calls[1..], end)
  }

  /** Refills among the calls that credited anything. */
  function Crediting(b: Bucket, calls: seq<Timed>, end: nat): nat
    requires Timely(b, calls, end)
    decreases |calls|
  {
    if calls == [] then 0
    else
      (if Refilled(b, calls[0].at).tokens != b.tokens then 1 else 0)
      + Crediting(Called(b, calls[0].at, calls[0].call).0, calls[1..], end)
  }

  lemma {:induction false} CallCredit(b: Bucket, now: nat, call: Call)
    requires Sane(b, now)
    ensures
      var r := Called(b, now, call);
      var gain := if Refilled(b, now).tokens != b.tokens && MICRO % b.rate != 0 then b.rate else 0;
      r.1 * MICRO + Credit(r.0, now) <= Credit(b, now) + gain
  {
    RefillCredit(b, now);
    var c := Refilled(b, now);
    if call.Allow? && c.tokens >= call.n { Distribute(c.tokens - call.n, call.n, MICRO); }
  }

  lemma {:induction false} GrantsWithin(b: Bucket, calls: seq<Timed>, end: nat)
    requires Timely(b, calls, end)
    ensures
      var k := if MICRO % b.rate == 0 then 0 else Crediting(b, calls, end);
      Grants(b, calls, end) * MICRO <= Credit(b, end) + b.rate * k
    decreases |calls|
  {
    if calls == [] {
      assert b.rate * 0 == 0;
    } else {
      var t := calls[0].at;
      var r := Called(b, t, calls[0].call);
      CallCredit(b, t, calls[0].call);
      GrantsWithin(r.0, calls[1..], end);
      CreditGrows(b, t, end);
      CreditGrows(r.0, t, end);
      var exact := MICRO % b.rate == 0;
      var later := if exact then 0 else Crediting(r.0, calls[1..], end);
      var one := if !exact && Refilled(b, t).tokens != b.tokens then 1 else 0;
      AddGrants(b.rate, r.1, Grants(r.0, calls[1..], end), Credit(b, end), Credit(r.0, end), one, later);
    }
  }

  /** The first call's grant, paid from the credit, and the later ones'. */
  lemma {:induction false} AddGrants(rate: nat, first: nat, rest: nat, before: nat, after: nat, one: nat, later: nat)
    requires one <= 1 && first * MICRO + after <= before + (if one == 1 then rate else 0)
    requires rest * MICRO <= after + rate * later
    ensures (first + rest) * MICRO <= before + rate * (one + later)
  {
    Distribute(one, later, rate);
    Commute(rate, one + later);
    Commute(rate, later);
  }

  /**
    Over T microseconds and k crediting refills at most
    burst + rate * (T + k) / 10^6 tokens are granted; without the k when whole
    microseconds pay for a token.
   */
  lemma {:induction false} GrantsBounded(b: Bucket, calls: seq<Timed>, end: nat)
    requires Timely(b, calls, end)
    ensures
      var k := if MICRO % b.rate == 0 then 0 else Crediting(b, calls, end);
      Grants(b, calls, end) <= b.burst + b.rate * (end - b.last + k) / MICRO
  {
    GrantsWithin(b, calls, end);
    var k := if MICRO % b.rate == 0 then 0 else Crediting(b, calls, end);
    WholeGrants(b, Grants(b, calls, end), end - b.last, k);
  }

  lemma {:induction false} WholeGrants(b: Bucket, g: nat, t: nat, k: nat)
    requires b.tokens <= b.burst && g * MICRO <= b.tokens * MICRO + b.rate * t + b.rate * k
    ensures g <= b.burst + b.rate * (t + k) / MICRO
  {
    Distribute(t, k, b.rate);
    Commute(b.rate, t + k);
    Commute(b.rate, t);
    Commute(b.rate, k);
    WholeTokens(g, b.burst, b.rate * (t + k));
  }

  lemma {:induction false} Commute(a: nat, b: nat)
    ensures a * b == b * a
  {
  }

  lemma {:induction false} WholeTokens(g: nat, burst: nat, p: nat)
    requires g * MICRO <= burst * MICRO + p
    ensures g <= burst + p / MICRO
  {
  }

  // --------------------------------------------------------------- the delay

  /** clm_ratelimit_delay after its refill. */
  function Delay(c: Bucket, n: nat): nat
    requires c.rate > 0
  {
    if c.tokens >= n then 0 else (n - c.tokens) * MICRO / c.rate
  }

  /** Asking for n tokens at now, waiting the delay told, or longer, and asking again. */
  ghost predicate WaitWorks(b: Bucket, now: nat, n: nat, later: nat)
    requires Sane(b, now) && Sane(b, later) && later >= now
  {
    Refilled(Refilled(b, now), later).tokens >= n
  }

  lemma {:induction false} WaitIsEnough(b: Bucket, now: nat, n: nat, later: nat)
    requires Sane(b, now) && MICRO % b.rate == 0 && n <= b.burst
    requires later >= now + Delay(Refilled(b, now), n) && later < TWO64
    ensures WaitWorks(b, now, n, later)
  {
    var c := Refilled(b, now);
    RefillTokens(c, later);
    DivUnique(n * MICRO, MICRO, n);
    CreditAfterWait(c, n, later);
    DivMono(n * MICRO, Credit(c, later), MICRO);
  }

  lemma {:induction false} CreditAfterWait(c: Bucket, n: nat, later: nat)
    requires c.rate > 0 && MICRO % c.rate == 0 && c.last + Delay(c, n) <= later
    ensures Credit(c, later) >= n * MICRO
  {
    MulNonneg(c.rate, later - c.last);
    if c.tokens < n {
      UsedExactly(c.rate, n - c.tokens);
      MulMono(c.rate, (n - c.tokens) * MICRO / c.rate, later - c.last);
    }
  }

  /**
    And it is the least that does, counted from the time the bucket's tokens account
    for, which lies less than one token's worth back.
   */
  lemma {:induction false} WaitIsNeeded(b: Bucket, now: nat, n: nat, later: nat)
    requires Sane(b, now) && MICRO % b.rate == 0 && n <= b.burst && now <= later < TWO64
    requires Refilled(b, now).tokens < n
    ensures var c := Refilled(b, now);
            && (WaitWorks(b, now, n, later) <==> later >= c.last + Delay(c, n))
            && c.rate * (now - c.last) < MICRO
  {
    var c := Refilled(b, now);
    RefillTokens(c, later);
    DivUnique(n * MICRO, MICRO, n);
    EnoughCredit(c, n, later);
    if Credit(c, later) >= n * MICRO {
      DivMono(n * MICRO, Credit(c, later), MICRO);
    } else {
      LessThan(Credit(c, later), n);
    }
    RefillRest(b, now);
  }

  lemma {:induction false} LessThan(x: nat, n: nat)
    requires x < n * MICRO
    ensures x / MICRO < n
  {
  }

  lemma {:induction false} EnoughCredit(c: Bucket, n: nat, later: nat)
    requires c.rate > 0 && MICRO % c.rate == 0 && c.last <= later && c.tokens < n
    ensures Credit(c, later) >= n * MICRO <==> later >= c.last + Delay(c, n)
  {
    var d := (n - c.tokens) * MICRO / c.rate;
    UsedExactly(c.rate, n - c.tokens);
    Distribute(c.tokens, n - c.tokens, MICRO);
    if later >= c.last + d { MulMono(c.rate, d, later - c.last); } else { MulStrict(c.rate, later - c.last, d); }
  }

  lemma {:induction false} MulStrict(a: nat, x: nat, y: nat)
    requires a > 0 && x < y
    ensures a * x < a * y
  {
    MulLess(x, y, a);
    Commute(a, x);
    Commute(a, y);
  }

  lemma {:induction false} RefillRest(b: Bucket, now: nat)
    requires Sane(b, now) && MICRO % b.rate == 0 && Refilled(b, now).tokens < b.burst
    ensures b.rate * (now - Refilled(b, now).last) < MICRO
  {
    var elapsed := now - b.last;
    if elapsed == 0 {
      assert b.rate * 0 == 0;
    } else {
      var added := b.rate * elapsed / MICRO;
      DivMul(b.rate * elapsed, MICRO);
      if added > 0 && elapsed < (TWO64 - 1) / b.rate {
        UsedExactly(b.rate, added);
        CreditSplit(b, now, TimeOf(b.rate, elapsed));
      }
    }
  }

  lemma {:induction false} MulMono(a: nat, x: nat, y: nat)
    requires x <= y
    ensures a * x <= a * y
  {
    MulNonneg(a, y - x);
    Distribute(x, y - x, a);
    Commute(a, x);
    Commute(a, y);
    Commute(a, y - x);
  }

  /** An empty bucket at its refill time, asked for one token, tells too short a wait. */
  lemma {:induction false} WaitTooShort(rate: nat, burst: nat)
    requires rate > 0 && burst > 0 && burst * MICRO + rate < TWO64 && MICRO % rate != 0
    ensures
      var b := Bucket(rate, burst, 0, 0);
      var later := Delay(Refilled(b, 0), 1);
      Sane(b, 0) && later < TWO64 && !WaitWorks(b, 0, 1, later)
  {
    var b := Bucket(rate, burst, 0, 0);
    var d := MICRO / rate;
    DivMul(MICRO, rate);
    assert rate * 0 == 0 && rate * d == d * rate;
    assert d * rate != MICRO;
    DivMono(0, MICRO, rate);
    assert d <= MICRO;
    RefillTokens(b, d);
    assert Credit(b, d) == rate * d;
    DivUnique(rate * d, MICRO, 0);
  }

  ghost predicate WaitAlwaysWorks(rate: nat, burst: nat) {
    forall tokens: nat, last: nat, now: nat, n: nat, later: nat ::
      var b := Bucket(rate, burst, tokens, last);
      Sane(b, now) && n <= burst && later < TWO64 && later >= now + Delay(Refilled(b, now), n)
      ==> WaitWorks(b, now, n, later)
  }

  /** The wait told suffices from every state exactly when the rate divides a million. */
  lemma {:induction false} DelayExactIff(rate: nat, burst: nat)
    requires rate > 0 && burst > 0 && burst * MICRO + rate < TWO64
    ensures WaitAlwaysWorks(rate, burst) <==> MICRO % rate == 0
  {
    if MICRO % rate == 0 {
      forall tokens: nat, last: nat, now: nat, n: nat, later: nat |
        var b := Bucket(rate, burst, tokens, last);
        Sane(b, now) && n <= burst && later < TWO64 && later >= now + Delay(Refilled(b, now), n)
        ensures WaitWorks(Bucket(rate, burst, tokens, last), now, n, later)
      {
        WaitIsEnough(Bucket(rate, burst, tokens, last), now, n, later);
      }
    } else {
      WaitTooShort(rate, burst);
    }
  }

  // ---------------------------------------------------------------- in place

  /** 64-bit wrap-around. */
  function Wrap(x: int): (r: nat)
    ensures r < TWO64
    ensures 0 <= x < TWO64 ==> r == x
  {
    x % TWO64
  }

  lemma {:induction false} NoWrap(rate: nat, elapsed: nat)
    requires rate > 0 && elapsed < (TWO64 - 1) / rate
    ensures rate * elapsed < TWO64
  {
    DivMul(TWO64 - 1, rate);
    MulLess(elapsed, (TWO64 - 1) / rate, rate);
    Commute(rate, elapsed);
  }

  lemma {:induction false} DelayFits(b: Bucket, n: nat)
    requires b.rate > 0 && b.burst * MICRO < TWO64 && b.tokens < n <= b.burst
    ensures Wrap(Wrap(n - b.tokens) * MICRO) / b.rate == Delay(b, n)
  {
  }

  /** clm_ratelimit; the clock's reading is an argument. */
  class Limiter {
    var rate: nat
    var burst: nat
    var tokens: nat
    var lastUsec: nat

    /** What holds whatever wraps around. */
    predicate Valid()
      reads this
    {
      rate < TWO64 && burst < TWO64 && tokens <= burst && lastUsec < TWO64
    }

    function Now(): Bucket
      reads this
    {
      Bucket(rate, burst, tokens, lastUsec)
    }

    constructor (rate: nat, burst: nat, now: nat)
      requires rate < TWO64 && burst < TWO64 && now < TWO64
      ensures Valid() && this.rate == rate && this.burst == (if burst > 0 then burst else rate)
      ensures tokens == this.burst && lastUsec == now
    {
      this.rate := rate;
      this.burst := if burst > 0 then burst else rate;
      tokens := if burst > 0 then burst else rate;
      lastUsec := now;
    }

    method Refill(now: nat)
      requires Valid() && now < TWO64
      modifies this`tokens, this`lastUsec
      ensures Valid()
      ensures rate == 0 ==> Now() == old(Now())
      ensures Sane(old(Now()), now) ==> Now() == Refilled(old(Now()), now)
    {
      if rate == 0 {
        return;
      }
      var elapsed := Wrap(now - lastUsec);
      if elapsed == 0 {
        return;
      }
      if elapsed >= (TWO64 - 1) / rate {
        tokens := burst;
        lastUsec := now;
        return;
      }
      NoWrap(rate, elapsed);
      var added := Wrap(rate * elapsed) / MICRO;
      if added == 0 {
        return;
      }
      if added >= Wrap(burst - tokens) {
        tokens := burst;
        lastUsec := now;
        return;
      }
      tokens := Wrap(tokens + added);
      var used := Wrap(added * MICRO) / rate;
      lastUsec := Wrap(lastUsec + used);
    }

    method Allow(now: nat, n: nat) returns (ok: bool)
      requires Valid() && now < TWO64 && n < TWO64
      modifies this`tokens, this`lastUsec
      ensures Valid()
      ensures rate == 0 ==> ok && Now() == old(Now())
      ensures Sane(old(Now()), now) ==>
                && Now() == Called(old(Now()), now, Call.Allow(n)).0
                && ok == (Refilled(old(Now()), now).tokens >= n)
    {
      if rate == 0 {
        return true;
      }
      Refill(now);
      if tokens >= n {
        tokens := Wrap(tokens - n);
        return true;
      }
      return false;
    }

    method DelayFor(now: nat, n: nat) returns (usec: nat)
      requires Valid() && now < TWO64 && n < TWO64
      modifies this`tokens, this`lastUsec
      ensures Valid()
      ensures rate == 0 ==> usec == 0 && Now() == old(Now())
      ensures Sane(old(Now()), now) ==> Now() == Refilled(old(Now()), now)
      ensures Sane(old(Now()), now) && n <= burst ==> usec == Delay(Now(), n)
    {
      if rate == 0 {
        return 0;
      }
      Refill(now);
      if tokens >= n {
        return 0;
      }
      if n <= burst && burst * MICRO < TWO64 { DelayFits(Now(), n); }
      var deficit := Wrap(n - tokens);
      return Wrap(deficit * MICRO) / rate;
    }

    method Consume(now: nat, n: nat)
      requires Valid() && now < TWO64 && n < TWO64
      modifies this`tokens, this`lastUsec
      ensures Valid()
      ensures rate == 0 ==> Now() == old(Now())
      ensures Sane(old(Now()), now) ==> Now() == Called(old(Now()), now, Call.Consume(n)).0
    {
      if rate == 0 {
        return;
      }
      Refill(now);
      if tokens >= n {
        tokens := Wrap(tokens - n);
      } else {
        tokens := 0;
      }
    }

    /** clm_ratelimit_set_rate: what the old rate earned is settled first. */
    method SetRate(now: nat, newRate: nat)
      requires Valid() && now < TWO64 && newRate < TWO64
      modifies this`tokens, this`lastUsec, this`rate
      ensures Valid() && rate == newRate
      ensures Sane(old(Now()), now) ==> Now() == Refilled(old(Now()), now).(rate := newRate)
    {
      Refill(now);
      rate := newRate;
    }

    /** clm_ratelimit_set_burst: a smaller bucket spills. */
    method SetBurst(newBurst: nat)
      requires Valid() && newBurst < TWO64
      modifies this`burst, this`tokens
      ensures Valid() && burst == newBurst && tokens == Min(old(tokens), newBurst)
    {
      burst := newBurst;
      if tokens > newBurst {
        tokens := newBurst;
      }
    }
  }
}
