/** The retry schedule (delivery/retry.rs) over real arithmetic. Instants are seconds since 1970. */
module Retry {
  import opened Queue

  datatype ClientError =
    | Http(status: nat, retryAfter: Option<real>)
    | Network | Decode | UndecodableSuccess | OutboundDisallowed
    | ClipOpen | CredentialIo | TlsConfig | InvalidUrl

  datatype FailureKind = Transient | Terminal

  /** Overflow: the retry instant is past the last one the clock library can represent, and the addition panics. */
  datatype NextAction = Retry(at: Instant) | Exhausted | Overflow

  datatype Schedule = Schedule(
    initialDelay: real, maxAttemptDelay: real, jitterFraction: real,
    maxAttempts: u32, maxWallclock: real)
  {
    /** What config.rs accepts, with the fixed jitter of 20 %. */
    predicate Validated() {
      && 0.0 <= initialDelay <= maxAttemptDelay <= 604800.0
      && jitterFraction == 0.2
      && 1 <= maxAttempts
      && 0.0 < maxWallclock
    }
  }

  const MAX_BACKOFF_SECS := 1000000000000000.0

  /** The longest span the clock library can add to an instant (2^63 - 1 milliseconds). */
  const MAX_SPAN_SECS := 9223372036854775.807

  /** The last instant of the clock library: the end of the year 262142. */
  const MAX_INSTANT := 8210266876799.999999999

  function ErrorKind(err: ClientError): string {
    match err
    case Http(_, _) => "http_status"
    case Network => "network"
    case Decode => "decode"
    case UndecodableSuccess => "undecodable_success"
    case OutboundDisallowed => "outbound_disallowed"
    case ClipOpen => "clip_open"
    case _ => "config"
  }

  function ClassifyStatusCode(status: nat): FailureKind {
    if 200 <= status <= 299 || status in {408, 425, 429, 500, 502, 503, 504} then Transient else Terminal
  }

  function ClassifyUploadError(err: ClientError): FailureKind {
    match err
    case Http(status, _) => ClassifyStatusCode(status)
    case Network => Transient
    case Decode => Transient
    case _ => Terminal
  }

  function ClassifyPollError(err: ClientError): FailureKind {
    if err.UndecodableSuccess? then Transient else ClassifyUploadError(err)
  }

  function Min(a: real, b: real): real { if a <= b then a else b }
  function Max(a: real, b: real): real { if a <= b then b else a }

  function Pow2(n: nat): real { if n == 0 then 1.0 else 2.0 * Pow2(n - 1) }

  /** The delay for a growth factor: capped by the configured ceiling, then clamped to what a duration can hold. */
  function Capped(s: Schedule, growth: real): real {
    Max(0.0, Min(Min(s.initialDelay * growth, s.maxAttemptDelay), MAX_BACKOFF_SECS))
  }

  function BaseDelay(s: Schedule, attempt: u32): real {
    Capped(s, Pow2(if attempt == 0 then 0 else attempt - 1))
  }

  /** The part of a second that the instant is past its whole second. */
  function SubSecond(now: Instant): (r: real)
    ensures 0.0 <= r < 1.0
  {
    now - now.Floor as real
  }

  function ApplyJitter(base: real, fraction: real, now: Instant): real {
    if fraction <= 0.0 then base
    else base * Max(0.0, 1.0 + (SubSecond(now) * 2.0 - 1.0) * fraction)
  }

  function Delay(s: Schedule, now: Instant, attempt: u32, floor: Option<real>): real {
    var jittered := ApplyJitter(BaseDelay(s, attempt), s.jitterFraction, now);
    if floor.Some? && floor.value > jittered then floor.value else jittered
  }

  /** The span actually added: one too long to convert is replaced by the configured ceiling. */
  function Wait(s: Schedule, now: Instant, attempt: u32, floor: Option<real>): real {
    var d := Delay(s, now, attempt, floor);
    if d <= MAX_SPAN_SECS then d else s.maxAttemptDelay
  }

  function Next(s: Schedule, now: Instant, attempt: u32, first: Option<Instant>, floor: Option<real>): NextAction {
    if attempt >= s.maxAttempts then Exhausted
    else if first.Some? && Max(0.0, now - first.value) >= s.maxWallclock then Exhausted
    else
      var at := now + Wait(s, now, attempt, floor);
      if at <= MAX_INSTANT then Retry(at) else Overflow
  }

  // ---- Bounds ----

  lemma {:induction false} Pow2Grows(a: nat, b: nat)
    requires a <= b
    ensures 1.0 <= Pow2(a) <= Pow2(b)
    decreases b
  {
    if b > 0 {
      Pow2Grows(if a < b then a else b - 1, b - 1);
    }
  }

  lemma ProductMonotone(c: real, x: real, y: real)
    requires 0.0 <= c && x <= y
    ensures c * x <= c * y
  {
  }

  lemma CappedMonotone(s: Schedule, p: real, q: real)
    requires s.Validated() && 0.0 <= p <= q
    ensures Capped(s, p) == Min(s.initialDelay * p, s.maxAttemptDelay)
    ensures 0.0 <= Capped(s, p) <= Capped(s, q) <= s.maxAttemptDelay
  {
    ProductMonotone(s.initialDelay, p, q);
    ProductMonotone(s.initialDelay, 0.0, p);
  }

  /** For a validated schedule the base never exceeds the ceiling nor shrinks with the attempt number. */
  lemma BaseDelayMonotone(s: Schedule, m: u32, n: u32)
    requires s.Validated() && 1 <= m <= n
    ensures 0.0 <= BaseDelay(s, m) <= BaseDelay(s, n) <= s.maxAttemptDelay
  {
    Pow2Grows(m - 1, n - 1);
    CappedMonotone(s, Pow2(m - 1), Pow2(n - 1));
  }

  /** The base is the exponential law itself, cut off at the ceiling: the final clamp never bites. */
  lemma BaseDelayIsCappedExponential(s: Schedule, attempt: u32, growth: real)
    requires s.Validated() && 1 <= attempt && growth == Pow2(attempt - 1)
    ensures BaseDelay(s, attempt) == Min(s.initialDelay * growth, s.maxAttemptDelay)
  {
    Pow2Grows(attempt - 1, attempt - 1);
    CappedMonotone(s, growth, growth);
  }

  /** The jittered delay is the base times 0.8 + 0.4 * the sub-second part. */
  lemma JitterForm(base: real, now: Instant)
    requires 0.0 <= base
    ensures ApplyJitter(base, 0.2, now) == base * (0.8 + 0.4 * SubSecond(now))
    ensures 0.8 * base <= ApplyJitter(base, 0.2, now) <= 1.2 * base
  {
    var f := 0.8 + 0.4 * SubSecond(now);
    assert 1.0 + (SubSecond(now) * 2.0 - 1.0) * 0.2 == f;
    ProductMonotone(base, 0.8, f);
    ProductMonotone(base, f, 1.2);
  }

  lemma JitterMonotone(x: real, y: real, now: Instant)
    requires 0.0 <= x <= y
    ensures ApplyJitter(x, 0.2, now) <= ApplyJitter(y, 0.2, now)
  {
    var k := 0.8 + 0.4 * SubSecond(now);
    JitterForm(x, now);
    JitterForm(y, now);
    ProductMonotone(k, x, y);
    assert x * k == k * x && y * k == k * y;
  }

  /** Exactly when jitter keeps two instants in order, and two conditions that suffice. */
  lemma JitterOrder(b: real, t: Instant, u: Instant)
    requires 0.0 <= b
    ensures t + ApplyJitter(b, 0.2, t) <= u + ApplyJitter(b, 0.2, u) <==> 0.4 * b * (SubSecond(t) - SubSecond(u)) <= u - t
    ensures t <= u && (t.Floor == u.Floor || 0.4 * b <= u - t) ==>
              t + ApplyJitter(b, 0.2, t) <= u + ApplyJitter(b, 0.2, u)
  {
    var c, d := 0.4 * b, SubSecond(t) - SubSecond(u);
    JitterForm(b, t);
    JitterForm(b, u);
    assert b * (0.8 + 0.4 * SubSecond(t)) - b * (0.8 + 0.4 * SubSecond(u)) == c * d;
    ProductMonotone(c, d, 1.0);
    if t.Floor == u.Floor && t <= u {
      ProductMonotone(c, d, 0.0);
    }
  }

  /** Every delay lies within 20 % of the capped exponential unless a longer Retry-After replaces it, and never
      undercuts the Retry-After. */
  lemma DelayBounds(s: Schedule, now: Instant, attempt: u32, floor: Option<real>)
    requires s.Validated() && 1 <= attempt
    ensures var cap := BaseDelay(s, attempt);
            var d := Delay(s, now, attempt, floor);
            && 0.8 * cap <= d
            && (floor.None? ==> d <= 1.2 * cap)
            && (floor.Some? ==> floor.value <= d <= Max(1.2 * cap, floor.value))
  {
    BaseDelayMonotone(s, attempt, attempt);
    var cap := BaseDelay(s, attempt);
    JitterForm(cap, now);
    assert ApplyJitter(cap, s.jitterFraction, now) <= 1.2 * cap;
  }

  /** At a fixed instant the delay never shrinks as attempts accumulate. */
  lemma DelayGrowsWithAttempts(s: Schedule, now: Instant, m: u32, n: u32, floor: Option<real>)
    requires s.Validated() && 1 <= m <= n
    ensures Delay(s, now, m, floor) <= Delay(s, now, n, floor)
  {
    BaseDelayMonotone(s, m, n);
    JitterMonotone(BaseDelay(s, m), BaseDelay(s, n), now);
  }

  predicate WithinBudgets(s: Schedule, now: Instant, attempt: u32, first: Option<Instant>) {
    attempt < s.maxAttempts && (first.Some? ==> Max(0.0, now - first.value) < s.maxWallclock)
  }

  /** The clip is given up exactly when a budget is spent. Otherwise it is retried, at an instant bounded by the first
      attempt, the wall-clock budget and one delay, or the addition overflows. */
  lemma RetryWithinBudget(s: Schedule, now: Instant, attempt: u32, first: Instant, floor: Option<real>)
    requires s.Validated() && 1 <= attempt
    ensures var next := Next(s, now, attempt, Some(first), floor);
            && (next.Exhausted? <==> !(attempt < s.maxAttempts && now - first < s.maxWallclock))
            && (next.Retry? ==> next.at <= MAX_INSTANT)
            && (next.Retry? ==> next.at < first + s.maxWallclock +
                                          Max(1.2 * s.maxAttemptDelay, if floor.Some? then floor.value else 0.0))
  {
    DelayBounds(s, now, attempt, floor);
    BaseDelayMonotone(s, attempt, attempt);
    assert 1.2 * BaseDelay(s, attempt) <= 1.2 * s.maxAttemptDelay;
  }

  /** What becomes of a Retry-After, exactly, while both budgets last. The span it asks for can be one the clock library
      cannot hold, and then a shorter one is used; or the instant it leads to can be one the library cannot hold, and
      then the addition panics; in every other case it is honoured. */
  lemma RetryAfterExactly(s: Schedule, now: Instant, attempt: u32, first: Option<Instant>, floor: real)
    requires s.Validated() && 1 <= attempt && 0.0 <= floor && WithinBudgets(s, now, attempt, first)
    ensures var next, d := Next(s, now, attempt, first, Some(floor)), Delay(s, now, attempt, Some(floor));
            && (d <= MAX_SPAN_SECS <==> floor <= MAX_SPAN_SECS)
            && (next.Retry? && now + floor <= next.at <==> floor <= MAX_SPAN_SECS && now + d <= MAX_INSTANT)
            && (next.Retry? && next.at < now + floor <==> floor > MAX_SPAN_SECS && now + s.maxAttemptDelay <= MAX_INSTANT)
            && (next.Overflow? <==> now + (if floor <= MAX_SPAN_SECS then d else s.maxAttemptDelay) > MAX_INSTANT)
  {
    DelayBounds(s, now, attempt, Some(floor));
    BaseDelayMonotone(s, attempt, attempt);
  }

  /** Without a Retry-After the addition overflows only within nine days of the last instant. */
  lemma NoOverflowWithoutRetryAfter(s: Schedule, now: Instant, attempt: u32, first: Option<Instant>)
    requires s.Validated() && now <= MAX_INSTANT - 777600.0
    ensures !Next(s, now, attempt, first, None).Overflow?
  {
    var n: u32 := if attempt == 0 then 1 else attempt;
    assert Delay(s, now, attempt, None) == Delay(s, now, n, None);
    DelayBounds(s, now, n, None);
    BaseDelayMonotone(s, n, n);
  }

  // ---- Scheduling order ----

  /** Exactly when two equal-attempt clips scheduled at t <= u keep their order. */
  lemma OrderKeptExactly(s: Schedule, t: Instant, u: Instant, attempt: u32)
    requires s.Validated() && 1 <= attempt
    ensures t + Delay(s, t, attempt, None) <= u + Delay(s, u, attempt, None)
       <==> 0.4 * BaseDelay(s, attempt) * (SubSecond(t) - SubSecond(u)) <= u - t
  {
    BaseDelayMonotone(s, attempt, attempt);
    JitterOrder(BaseDelay(s, attempt), t, u);
  }

  /** Oldest-first survives jitter within one second, and across seconds once the gap reaches 0.4 of the base. */
  lemma OldestFirstKept(s: Schedule, t: Instant, u: Instant, attempt: u32)
    requires s.Validated() && 1 <= attempt && t <= u
    requires t.Floor == u.Floor || 0.4 * BaseDelay(s, attempt) <= u - t
    ensures t + Delay(s, t, attempt, None) <= u + Delay(s, u, attempt, None)
  {
    BaseDelayMonotone(s, attempt, attempt);
    JitterOrder(BaseDelay(s, attempt), t, u);
  }

  /** Across a second boundary the order the source describes as kept can flip. */
  lemma OldestFirstBroken()
    ensures exists s: Schedule, t: Instant, u: Instant ::
              s.Validated() && t < u && t + Delay(s, t, 1, None) > u + Delay(s, u, 1, None)
  {
    var s := Schedule(10.0, 3600.0, 0.2, 12, 86400.0);
    var t, u := 0.9, 1.0;
    assert Pow2(0) == 1.0;
    assert BaseDelay(s, 1) == 10.0;
    assert t.Floor == 0 && u.Floor == 1;
    OrderKeptExactly(s, t, u, 1);
    assert t + Delay(s, t, 1, None) > u + Delay(s, u, 1, None);
  }
}
