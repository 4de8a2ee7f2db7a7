/** The motion sensor's liveness tracker (capture/liveness.rs) and the projection that status reads
    (capture/state.rs), against the history of observations. */
module Liveness {
  import opened Queue

  datatype Level = Asserted | Quiescent

  /** A level probe, or an error from a probe or from waiting for a trigger. */
  datatype Observation = Probe(at: Instant, level: Level) | Failure(at: Instant, reason: string)

  datatype Health = Healthy | StuckAsserted(since: Instant) | Unavailable(since: Instant, reason: string)

  datatype Kind = StuckKind | UnavailableKind

  datatype Transition = Degraded(kind: Kind, since: Instant, reason: Option<string>) | Recovered(kind: Kind) | NoChange

  /** The tracker's two changing fields. */
  datatype Tracking = Tracking(health: Health, assertedSince: Option<Instant>)

  function Observe(t: Tracking, threshold: real, o: Observation): Tracking {
    match o
    case Failure(at, reason) => if t.health.Unavailable? then t else Tracking(Unavailable(at, reason), None)
    case Probe(at, Quiescent) => Tracking(Healthy, None)
    case Probe(at, Asserted) =>
      match t.health
      case Unavailable(_, _) => Tracking(Healthy, Some(at))
      case StuckAsserted(_) => t
      case Healthy =>
        var start := if t.assertedSince.Some? then t.assertedSince.value else at;
        Tracking(if at - start >= threshold then StuckAsserted(start) else Healthy, Some(start))
  }

  /** What a change of health is announced as. */
  function Announced(before: Health, after: Health): Transition {
    if after == before then NoChange
    else match after
      case Healthy => Recovered(if before.Unavailable? then UnavailableKind else StuckKind)
      case StuckAsserted(since) => Degraded(StuckKind, since, None)
      case Unavailable(since, reason) => Degraded(UnavailableKind, since, Some(reason))
  }

  class SensorLivenessTracker {
    var health: Health
    var assertedSince: Option<Instant>
    const threshold: real

    function Value(): Tracking reads this { Tracking(health, assertedSince) }

    constructor (stuckSecs: nat)
      ensures Value() == Tracking(Healthy, None) && threshold == stuckSecs as real
    {
      health, assertedSince, threshold := Healthy, None, stuckSecs as real;
    }

    method HandleError(now: Instant, reason: string) returns (t: Transition)
      modifies this
      ensures Value() == Observe(old(Value()), threshold, Failure(now, reason))
      ensures t == Announced(old(health), health)
    {
      if health.Unavailable? {
        return NoChange;
      }
      health := Unavailable(now, reason);
      assertedSince := None;
      t := Degraded(UnavailableKind, now, Some(reason));
    }

    method HandleAsserted(now: Instant) returns (t: Transition)
      modifies this
      ensures Value() == Observe(old(Value()), threshold, Probe(now, Asserted))
      ensures t == Announced(old(health), health)
    {
      match health
      case Unavailable(_, _) =>
        health := Healthy;
        assertedSince := Some(now);
        t := Recovered(UnavailableKind);
      case StuckAsserted(_) =>
        t := NoChange;
      case Healthy =>
        if assertedSince.None? {
          assertedSince := Some(now);
        }
        var startedAt := assertedSince.value;
        if now - startedAt >= threshold {
          health := StuckAsserted(startedAt);
          t := Degraded(StuckKind, startedAt, None);
        } else {
          t := NoChange;
        }
    }

    method HandleQuiescent(now: Instant) returns (t: Transition)
      modifies this
      ensures Value() == Observe(old(Value()), threshold, Probe(now, Quiescent))
      ensures t == Announced(old(health), health)
    {
      t := match health
        case StuckAsserted(_) => Recovered(StuckKind)
        case Unavailable(_, _) => Recovered(UnavailableKind)
        case Healthy => NoChange;
      health := Healthy;
      assertedSince := None;
    }
  }

  // ---- The reference: what the history of observations says ----

  predicate IsFailure(o: Observation) { o.Failure? }
  predicate IsAsserted(o: Observation) { o.Probe? && o.level.Asserted? }

  /** The trailing run of observations of one kind in h[..n] starts at i. */
  ghost predicate TrailingFrom(h: seq<Observation>, n: nat, kind: Observation -> bool, i: nat) {
    && i < n <= |h|
    && (forall j | i <= j < n :: kind(h[j]))
    && (i > 0 ==> !kind(h[i - 1]))
  }

  ghost predicate UnavailableSince(h: seq<Observation>, n: nat, at: Instant, reason: string) {
    exists i: nat :: TrailingFrom(h, n, IsFailure, i) && h[i] == Failure(at, reason)
  }

  ghost predicate AssertedSince(h: seq<Observation>, n: nat, at: Instant) {
    exists i: nat :: TrailingFrom(h, n, IsAsserted, i) && h[i].at == at
  }

  ghost predicate StuckSince(h: seq<Observation>, n: nat, threshold: real, at: Instant) {
    exists i: nat :: TrailingFrom(h, n, IsAsserted, i) && h[i].at == at && HeldFor(h, n, i, threshold)
  }

  /** Some probe of the run that starts at i is at least the threshold after its start. */
  ghost predicate HeldFor(h: seq<Observation>, n: nat, i: nat, threshold: real)
    requires i < n <= |h|
  {
    exists j | i <= j < n :: h[j].at - h[i].at >= threshold
  }

  /** The tracker after the first n observations. */
  function After(h: seq<Observation>, threshold: real, n: nat): Tracking
    requires n <= |h|
  {
    if n == 0 then Tracking(Healthy, None) else Observe(After(h, threshold, n - 1), threshold, h[n - 1])
  }

  ghost predicate Reflects(t: Tracking, h: seq<Observation>, n: nat, threshold: real) {
    && (forall at, reason :: t.health == Unavailable(at, reason) <==> UnavailableSince(h, n, at, reason))
    && (forall at :: t.health == StuckAsserted(at) <==> StuckSince(h, n, threshold, at))
    && (forall at :: t.assertedSince == Some(at) <==> AssertedSince(h, n, at))
  }

  /** Where the trailing run of one kind starts, computed step by step. */
  ghost function Start(h: seq<Observation>, n: nat, kind: Observation -> bool): (r: Option<nat>)
    requires n <= |h|
    ensures r.Some? ==> r.value < n && kind(h[r.value])
  {
    if n == 0 || !kind(h[n - 1]) then None
    else if Start(h, n - 1, kind).Some? then Start(h, n - 1, kind) else Some(n - 1)
  }

  lemma {:induction false} StartIsTrailing(h: seq<Observation>, n: nat, kind: Observation -> bool, i: nat)
    requires n <= |h|
    ensures TrailingFrom(h, n, kind, i) <==> Start(h, n, kind) == Some(i)
  {
    if n > 0 && kind(h[n - 1]) {
      StartIsTrailing(h, n - 1, kind, i);
      assert Start(h, n - 1, kind).None? <==> n == 1 || !kind(h[n - 2]);
    }
  }

  /** The tracker in terms of the two trailing runs. */
  ghost function FromRuns(h: seq<Observation>, n: nat, threshold: real): Tracking
    requires n <= |h|
  {
    var f, a := Start(h, n, IsFailure), Start(h, n, IsAsserted);
    if f.Some? then Tracking(Unavailable(h[f.value].at, h[f.value].reason), None)
    else if a.Some? then
      Tracking(if HeldFor(h, n, a.value, threshold) then StuckAsserted(h[a.value].at) else Healthy, Some(h[a.value].at))
    else Tracking(Healthy, None)
  }

  lemma {:induction false} TrackerFromRuns(h: seq<Observation>, n: nat, threshold: real)
    requires n <= |h| && threshold > 0.0
    ensures After(h, threshold, n) == FromRuns(h, n, threshold)
  {
    if n > 0 {
      TrackerFromRuns(h, n - 1, threshold);
      var o := h[n - 1];
      var was := Start(h, n - 1, IsAsserted);
      if IsAsserted(o) {
        var start := Start(h, n, IsAsserted).value;
        assert HeldFor(h, n, start, threshold)
          <==> (was.Some? && HeldFor(h, n - 1, start, threshold)) || o.at - h[start].at >= threshold;
      }
    }
  }

  /** The tracker says exactly what the history says, for a positive threshold and any timestamps: unavailable since t
      when t starts the trailing error run; stuck since t when t starts the trailing asserted run and some probe of
      it comes a threshold or more after t; healthy otherwise. */
  lemma TrackerRefinesHistory(h: seq<Observation>, n: nat, threshold: real)
    requires n <= |h| && threshold > 0.0
    ensures Reflects(After(h, threshold, n), h, n, threshold)
  {
    TrackerFromRuns(h, n, threshold);
    forall i: nat ensures TrailingFrom(h, n, IsFailure, i) <==> Start(h, n, IsFailure) == Some(i) {
      StartIsTrailing(h, n, IsFailure, i);
    }
    forall i: nat ensures TrailingFrom(h, n, IsAsserted, i) <==> Start(h, n, IsAsserted) == Some(i) {
      StartIsTrailing(h, n, IsAsserted, i);
    }
    var f, a := Start(h, n, IsFailure), Start(h, n, IsAsserted);
    assert f.Some? ==> a.None?;
    assert f.Some? ==> TrailingFrom(h, n, IsFailure, f.value);
    assert a.Some? ==> TrailingFrom(h, n, IsAsserted, a.value);
  }

  const ERROR_THEN_ASSERTED: seq<Observation> := [Failure(0.0, ""), Probe(0.0, Asserted)]

  lemma WithoutThreshold(threshold: real)
    requires threshold <= 0.0
    ensures After(ERROR_THEN_ASSERTED, threshold, 2).health == Healthy
    ensures StuckSince(ERROR_THEN_ASSERTED, 2, threshold, 0.0)
  {
    var h := ERROR_THEN_ASSERTED;
    assert After(h, threshold, 0) == Tracking(Healthy, None);
    assert After(h, threshold, 1) == Tracking(Unavailable(0.0, ""), None);
    assert TrailingFrom(h, 2, IsAsserted, 1) && h[1].at - h[1].at >= threshold;
    assert HeldFor(h, 2, 1, threshold);
  }

  /** The tracker says what the history says, for every history. */
  ghost predicate AlwaysReflects(threshold: real) {
    forall h, n | 0 <= n <= |h| :: Reflects(After(h, threshold, n), h, n, threshold)
  }

  /** A positive threshold is exactly what this takes: with any other, the first asserted probe after an error is not
      reported although it has already lasted the threshold. Configuration validation demands one second or more. */
  lemma PositiveThresholdNeeded(threshold: real)
    ensures threshold > 0.0 <==> AlwaysReflects(threshold)
  {
    if threshold > 0.0 {
      forall h, n | 0 <= n <= |h| ensures Reflects(After(h, threshold, n), h, n, threshold) {
        TrackerRefinesHistory(h, n, threshold);
      }
    } else {
      var h := ERROR_THEN_ASSERTED;
      WithoutThreshold(threshold);
      assert !Reflects(After(h, threshold, 2), h, 2, threshold);
    }
  }

  // ---- The published projection ----

  datatype Snapshot = NeverObserved | ShownHealthy | ShownStuck | ShownUnavailable

  datatype Projection = Projection(liveness: Snapshot, degradedSince: Option<Instant>)

  function Published(p: Projection, t: Transition): Projection {
    match t
    case NoChange => p
    case Degraded(kind, since, _) => Projection(if kind.StuckKind? then ShownStuck else ShownUnavailable, Some(since))
    case Recovered(_) => Projection(ShownHealthy, None)
  }

  function ProjectionAfter(h: seq<Observation>, threshold: real, n: nat): Projection
    requires n <= |h|
  {
    if n == 0 then Projection(NeverObserved, None)
    else
      var before, after := After(h, threshold, n - 1).health, After(h, threshold, n).health;
      Published(ProjectionAfter(h, threshold, n - 1), Announced(before, after))
  }

  function Shown(health: Health): Projection {
    match health
    case Healthy => Projection(ShownHealthy, None)
    case StuckAsserted(since) => Projection(ShownStuck, Some(since))
    case Unavailable(since, _) => Projection(ShownUnavailable, Some(since))
  }

  ghost predicate EverDegraded(h: seq<Observation>, threshold: real, n: nat)
    requires n <= |h|
  {
    exists k | 0 <= k <= n :: !After(h, threshold, k).health.Healthy?
  }

  /** Status shows the tracker's health from the first degradation on, and NeverObserved until then. */
  lemma {:induction false} ProjectionAgrees(h: seq<Observation>, threshold: real, n: nat)
    requires n <= |h|
    ensures ProjectionAfter(h, threshold, n)
         == if EverDegraded(h, threshold, n) then Shown(After(h, threshold, n).health) else Projection(NeverObserved, None)
  {
    assert After(h, threshold, 0).health.Healthy?;
    if n > 0 {
      ProjectionAgrees(h, threshold, n - 1);
      assert EverDegraded(h, threshold, n)
        <==> EverDegraded(h, threshold, n - 1) || !After(h, threshold, n).health.Healthy?;
      assert After(h, threshold, n - 1).health.Healthy? || EverDegraded(h, threshold, n - 1);
    }
  }
}
