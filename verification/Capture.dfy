/** The capture supervisor (capture/runner.rs) with its cooldown gate (capture/cooldown.rs): when recordings start,
    over every run of triggers and liveness ticks. */
module Capture {
  import opened Queue
  import opened Liveness

  datatype Config = Config(cooldownSecs: nat, stuckSecs: nat, maxStagingBytes: nat)
  {
    predicate Validated() { cooldownSecs >= 1 && stuckSecs >= 1 }
    function Cooldown(): real { cooldownSecs as real }
    function Threshold(): real { stuckSecs as real }
  }

  /** How a started recording ends. */
  datatype Ending = Submitted(clipId: ClipId) | QueueFull | QueueIo | CameraFailed | EmptyClip | Hung | Overflow
  {
    function FailureKind(): string {
      match this
      case Submitted(_) => ""
      case QueueFull => "queue_full"
      case QueueIo => "queue_io"
      case CameraFailed => "recording_failed"
      case EmptyClip => "recording_failed"
      case Hung => "camera_hang"
      case Overflow => "config_overflow"
    }
  }

  /** What reaches the supervisor, with the clock readings it makes on the way. `gateAt` is read before the gates,
      `startAt` when a recording starts, `failAt` when a failure is noted and `endAt` when the cooldown starts;
      `staging` is None when the size of the staging directory cannot be read. */
  datatype Event =
    | Trigger(triggeredAt: Instant, gateAt: Instant, staging: Option<nat>, startAt: Instant, ending: Ending,
              failAt: Instant, endAt: Instant)
    | Seen(observation: Observation)

  datatype Handling = CooldownSkip | DegradedSkip | PressureSkip | Recorded

  /** The recording part of what status shows. */
  datatype Report = Report(lastRecordingAt: Option<Instant>, lastClip: Option<ClipId>, lastFailure: Option<(Instant, string)>)

  datatype Supervisor = Supervisor(until: Option<Instant>, tracking: Tracking, shown: Projection, report: Report)

  const INITIAL := Supervisor(None, Tracking(Healthy, None), Projection(NeverObserved, None), Report(None, None, None))

  predicate Active(until: Option<Instant>, now: Instant) { until.Some? && until.value > now }

  function Handled(c: Config, s: Supervisor, ev: Event): Handling
    requires ev.Trigger?
  {
    if Active(s.until, ev.gateAt) then CooldownSkip
    else if !s.tracking.health.Healthy? then DegradedSkip
    else if ev.staging.Some? && ev.staging.value >= c.maxStagingBytes then PressureSkip
    else Recorded
  }

  function Step(c: Config, s: Supervisor, ev: Event): Supervisor {
    match ev
    case Seen(o) =>
      var t := Observe(s.tracking, c.Threshold(), o);
      s.(tracking := t, shown := Published(s.shown, Announced(s.tracking.health, t.health)))
    case Trigger(_, _, _, _, _, _, endAt) =>
      var handling := Handled(c, s, ev);
      if handling.CooldownSkip? then s
      else s.(until := Some(endAt + c.Cooldown()), report := Reported(s.report, handling, ev))
  }

  function Reported(r: Report, handling: Handling, ev: Event): Report
    requires ev.Trigger?
  {
    if handling.PressureSkip? then r.(lastFailure := Some((ev.failAt, "disk_pressure")))
    else if !handling.Recorded? then r
    else if ev.ending.Submitted? then Report(Some(ev.triggeredAt), Some(ev.ending.clipId), None)
    else r.(lastFailure := Some((ev.failAt, ev.ending.FailureKind())))
  }

  class CaptureSupervisor {
    const config: Config
    const liveness: SensorLivenessTracker
    var until: Option<Instant>
    var shown: Projection
    var report: Report

    ghost predicate Valid() reads this, liveness { liveness.threshold == config.Threshold() }

    function Value(): Supervisor reads this, liveness { Supervisor(until, liveness.Value(), shown, report) }

    constructor (c: Config)
      ensures Valid() && config == c && Value() == INITIAL && fresh(liveness)
    {
      config, until, shown, report := c, None, Projection(NeverObserved, None), Report(None, None, None);
      liveness := new SensorLivenessTracker(c.stuckSecs);
    }

    /** Every trigger is turned away from now on until a cooldown after `now`, and none later. */
    method StartCooldown(now: Instant)
      modifies this`until
      ensures forall t: Instant :: Active(until, t) <==> t < now + config.Cooldown()
      ensures until == Some(now + config.Cooldown())
    {
      until := Some(now + config.Cooldown());
    }

    method ApplyTransition(t: Transition)
      modifies this`shown
      ensures shown == Published(old(shown), t)
    {
      match t
      case NoChange =>
      case Degraded(StuckKind, since, _) => shown := Projection(ShownStuck, Some(since));
      case Degraded(UnavailableKind, since, _) => shown := Projection(ShownUnavailable, Some(since));
      case Recovered(_) => shown := Projection(ShownHealthy, None);
    }

    /** A liveness tick, or a failed wait for a trigger. */
    method UpdateLiveness(o: Observation)
      requires Valid()
      modifies this, liveness
      ensures Valid() && Value() == Step(config, old(Value()), Seen(o))
    {
      var t: Transition;
      match o {
        case Failure(at, reason) => t := liveness.HandleError(at, reason);
        case Probe(at, Asserted) => t := liveness.HandleAsserted(at);
        case Probe(at, Quiescent) => t := liveness.HandleQuiescent(at);
      }
      ApplyTransition(t);
    }

    method RecordSuccess(clipId: ClipId, at: Instant)
      modifies this`report
      ensures report == Report(Some(at), Some(clipId), None)
    {
      report := Report(Some(at), Some(clipId), None);
    }

    method RecordFailure(at: Instant, kind: string)
      modifies this`report
      ensures report == old(report).(lastFailure := Some((at, kind)))
    {
      report := report.(lastFailure := Some((at, kind)));
    }

    /** A motion edge; `handling` tells which gate stopped it, or that a recording was made. */
    method HandleTrigger(ev: Event) returns (handling: Handling)
      requires Valid() && ev.Trigger?
      modifies this`until, this`report
      ensures Valid() && Value() == Step(config, old(Value()), ev)
      ensures handling == Handled(config, old(Value()), ev)
      ensures handling.CooldownSkip? <==> old(until).Some? && ev.gateAt < old(until).value
      ensures handling.DegradedSkip? ==> !liveness.health.Healthy?
      ensures handling.PressureSkip? ==> liveness.health.Healthy? && ev.staging.Some? && config.maxStagingBytes <= ev.staging.value
      ensures handling.Recorded? ==>
                liveness.health.Healthy? && (ev.staging.None? || ev.staging.value < config.maxStagingBytes)
      ensures handling.CooldownSkip? ==> until == old(until) && report == old(report)
      ensures !handling.CooldownSkip? ==> until == Some(ev.endAt + config.cooldownSecs as real)
      ensures handling.DegradedSkip? ==> report == old(report)
      ensures handling.PressureSkip? ==> report.lastFailure == Some((ev.failAt, "disk_pressure")) && report.lastClip == old(report).lastClip
      ensures handling.Recorded? && ev.ending.Submitted? ==>
                report.lastClip == Some(ev.ending.clipId) && report.lastRecordingAt == Some(ev.triggeredAt) && report.lastFailure.None?
      ensures handling.Recorded? && !ev.ending.Submitted? ==>
                && report.lastClip == old(report).lastClip && report.lastRecordingAt == old(report).lastRecordingAt
                && report.lastFailure.Some? && report.lastFailure.value.0 == ev.failAt
                && (report.lastFailure.value.1 == "queue_full" <==> ev.ending.QueueFull?)
                && (report.lastFailure.value.1 == "queue_io" <==> ev.ending.QueueIo?)
                && (report.lastFailure.value.1 == "camera_hang" <==> ev.ending.Hung?)
                && (report.lastFailure.value.1 == "config_overflow" <==> ev.ending.Overflow?)
                && (report.lastFailure.value.1 == "recording_failed" <==> ev.ending.CameraFailed? || ev.ending.EmptyClip?)
    {
      if until.Some? && until.value > ev.gateAt {
        return CooldownSkip;
      }
      if !liveness.health.Healthy? {
        StartCooldown(ev.endAt);
        return DegradedSkip;
      }
      if ev.staging.Some? && ev.staging.value >= config.maxStagingBytes {
        RecordFailure(ev.failAt, "disk_pressure");
        StartCooldown(ev.endAt);
        return PressureSkip;
      }
      RecordAndHandle(ev);
      handling := Recorded;
    }

    method RecordAndHandle(ev: Event)
      requires ev.Trigger?
      modifies this`until, this`report
      ensures until == Some(ev.endAt + config.Cooldown())
      ensures report == Reported(old(report), Recorded, ev)
    {
      match ev.ending {
        case Submitted(clipId) => RecordSuccess(clipId, ev.triggeredAt);
        case QueueFull => RecordFailure(ev.failAt, "queue_full");
        case QueueIo => RecordFailure(ev.failAt, "queue_io");
        case CameraFailed => RecordFailure(ev.failAt, "recording_failed");
        case EmptyClip => RecordFailure(ev.failAt, "recording_failed");
        case Hung => RecordFailure(ev.failAt, "camera_hang");
        case Overflow => RecordFailure(ev.failAt, "config_overflow");
      }
      StartCooldown(ev.endAt);
    }
  }

  // ---- Whole runs ----

  function After(c: Config, evs: seq<Event>, n: nat): Supervisor
    requires n <= |evs|
  {
    if n == 0 then INITIAL else Step(c, After(c, evs, n - 1), evs[n - 1])
  }

  /** A recording starts at the k-th event. */
  predicate Starts(c: Config, evs: seq<Event>, k: nat)
    requires k < |evs|
  {
    evs[k].Trigger? && Handled(c, After(c, evs, k), evs[k]).Recorded?
  }

  /** The clock does not run backwards over the triggers. */
  ghost predicate Clocked(evs: seq<Event>) {
    && (forall i | 0 <= i < |evs| && evs[i].Trigger? :: evs[i].gateAt <= evs[i].startAt <= evs[i].endAt)
    && (forall i, j | 0 <= i < j < |evs| && evs[i].Trigger? && evs[j].Trigger? :: evs[i].endAt <= evs[j].gateAt)
  }

  lemma {:induction false} CooldownHolds(c: Config, evs: seq<Event>, i: nat, n: nat)
    requires Clocked(evs) && i < n <= |evs| && Starts(c, evs, i)
    ensures var until := After(c, evs, n).until; until.Some? && until.value >= evs[i].endAt + c.Cooldown()
  {
    if n > i + 1 {
      CooldownHolds(c, evs, i, n - 1);
    }
  }

  /** Two recordings are at least a cooldown apart, from the end of the first one's handling to the start of the
      second, whatever triggers, failures and liveness changes come between. */
  lemma RecordingsSpaced(c: Config, evs: seq<Event>, i: nat, j: nat)
    requires Clocked(evs) && i < j < |evs| && Starts(c, evs, i) && Starts(c, evs, j)
    ensures evs[j].startAt >= evs[i].endAt + c.Cooldown()
  {
    CooldownHolds(c, evs, i, j);
  }

  predicate StartsWithin(c: Config, evs: seq<Event>, k: nat, from: Instant, width: real)
    requires k < |evs|
  {
    Starts(c, evs, k) && from <= evs[k].startAt <= from + width
  }

  /** How many recordings start in [from, from + width] during the first n events. */
  function StartCount(c: Config, evs: seq<Event>, n: nat, from: Instant, width: real): nat
    requires n <= |evs|
  {
    if n == 0 then 0
    else StartCount(c, evs, n - 1, from, width) + if StartsWithin(c, evs, n - 1, from, width) then 1 else 0
  }

  lemma {:induction false} LatestStart(c: Config, evs: seq<Event>, n: nat, from: Instant, width: real) returns (k: nat)
    requires Clocked(evs) && n <= |evs| && StartCount(c, evs, n, from, width) > 0
    ensures k < n && StartsWithin(c, evs, k, from, width)
    ensures evs[k].startAt >= from + Gaps(StartCount(c, evs, n, from, width) - 1, c.Cooldown())
  {
    var before := StartCount(c, evs, n - 1, from, width);
    if !StartsWithin(c, evs, n - 1, from, width) {
      k := LatestStart(c, evs, n - 1, from, width);
    } else {
      k := n - 1;
      if before > 0 {
        var l := LatestStart(c, evs, n - 1, from, width);
        RecordingsSpaced(c, evs, l, k);
      }
    }
  }

  function Gaps(count: nat, gap: real): real { if count == 0 then 0.0 else Gaps(count - 1, gap) + gap }

  lemma {:induction false} GapsProduct(count: nat, gap: real)
    ensures Gaps(count, gap) == count as real * gap
  {
    if count > 0 {
      GapsProduct(count - 1, gap);
      assert count as real * gap == (count - 1) as real * gap + gap;
    }
  }

  /** No window holds more than width / cooldown + 1 recording starts. */
  lemma WindowBound(c: Config, evs: seq<Event>, from: Instant, width: real)
    requires c.Validated() && Clocked(evs) && width >= 0.0
    ensures StartCount(c, evs, |evs|, from, width) as real <= width / c.Cooldown() + 1.0
  {
    var count := StartCount(c, evs, |evs|, from, width);
    if count > 0 {
      var k := LatestStart(c, evs, |evs|, from, width);
      FitsIn(count - 1, c.Cooldown(), width);
    }
  }

  lemma FitsIn(count: nat, gap: real, width: real)
    requires gap > 0.0 && Gaps(count, gap) <= width
    ensures count as real <= width / gap
  {
    GapsProduct(count, gap);
    AtMostQuotient(count as real, gap, width);
  }

  lemma AtMostQuotient(x: real, gap: real, width: real)
    requires gap > 0.0 && x * gap <= width
    ensures x <= width / gap
  {
  }

  // ---- The liveness gate ----

  /** The observations among the first n events. */
  function History(evs: seq<Event>, n: nat): seq<Observation>
    requires n <= |evs|
  {
    if n == 0 then []
    else History(evs, n - 1) + if evs[n - 1].Seen? then [evs[n - 1].observation] else []
  }

  lemma {:induction false} PrefixAgrees(h: seq<Observation>, o: Observation, threshold: real, n: nat)
    requires n <= |h|
    ensures Liveness.After(h + [o], threshold, n) == Liveness.After(h, threshold, n)
    ensures ProjectionAfter(h + [o], threshold, n) == ProjectionAfter(h, threshold, n)
  {
    if n > 0 {
      PrefixAgrees(h, o, threshold, n - 1);
    }
  }

  /** The supervisor's tracker and projection are those of the observations it was shown, triggers or not. */
  lemma {:induction false} TracksHistory(c: Config, evs: seq<Event>, n: nat)
    requires n <= |evs|
    ensures var h := History(evs, n);
            && After(c, evs, n).tracking == Liveness.After(h, c.Threshold(), |h|)
            && After(c, evs, n).shown == ProjectionAfter(h, c.Threshold(), |h|)
  {
    if n > 0 {
      TracksHistory(c, evs, n - 1);
      if evs[n - 1].Seen? {
        var h := History(evs, n - 1);
        PrefixAgrees(h, evs[n - 1].observation, c.Threshold(), |h|);
      } else {
        assert History(evs, n) == History(evs, n - 1);
      }
    }
  }

  /** A recording starts only while the observed history is healthy: its last observation is not an error, and no
      asserted run that is still going on has lasted the threshold. */
  lemma NoneStartsDegraded(c: Config, evs: seq<Event>, k: nat)
    requires c.Validated() && k < |evs| && Starts(c, evs, k)
    ensures var h := History(evs, k);
            && (h != [] ==> !h[|h| - 1].Failure?)
            && (forall at :: !StuckSince(h, |h|, c.Threshold(), at))
            && After(c, evs, k).shown.liveness in {NeverObserved, ShownHealthy}
  {
    var h := History(evs, k);
    TracksHistory(c, evs, k);
    TrackerFromRuns(h, |h|, c.Threshold());
    TrackerRefinesHistory(h, |h|, c.Threshold());
    ProjectionAgrees(h, c.Threshold(), |h|);
  }

  // ---- What status reports ----

  predicate Succeeds(c: Config, evs: seq<Event>, k: nat)
    requires k < |evs|
  {
    Starts(c, evs, k) && evs[k].ending.Submitted?
  }

  /** A recording fails, or disk pressure refuses it. */
  predicate Fails(c: Config, evs: seq<Event>, k: nat)
    requires k < |evs|
  {
    || (Starts(c, evs, k) && !evs[k].ending.Submitted?)
    || (evs[k].Trigger? && Handled(c, After(c, evs, k), evs[k]).PressureSkip?)
  }

  ghost predicate LatestSuccess(c: Config, evs: seq<Event>, n: nat, k: nat) {
    k < n <= |evs| && Succeeds(c, evs, k) && forall j | k < j < n :: !Succeeds(c, evs, j)
  }

  /** The latest failure, with no success after it. */
  ghost predicate StandingFailure(c: Config, evs: seq<Event>, n: nat, k: nat) {
    && k < n <= |evs| && Fails(c, evs, k)
    && forall j | k < j < n :: !Succeeds(c, evs, j) && !Fails(c, evs, j)
  }

  ghost function LastSuccess(c: Config, evs: seq<Event>, n: nat): (r: Option<nat>)
    requires n <= |evs|
    ensures r.Some? ==> LatestSuccess(c, evs, n, r.value)
    ensures r.None? ==> forall j | 0 <= j < n :: !Succeeds(c, evs, j)
  {
    if n == 0 then None else if Succeeds(c, evs, n - 1) then Some(n - 1) else LastSuccess(c, evs, n - 1)
  }

  ghost function Standing(c: Config, evs: seq<Event>, n: nat): (r: Option<nat>)
    requires n <= |evs|
    ensures r.Some? ==> StandingFailure(c, evs, n, r.value)
    ensures r.None? ==> forall k: nat :: !StandingFailure(c, evs, n, k)
  {
    if n == 0 then None
    else if Fails(c, evs, n - 1) then Some(n - 1)
    else if Succeeds(c, evs, n - 1) then None
    else
      assert forall k: nat :: StandingFailure(c, evs, n, k) ==> StandingFailure(c, evs, n - 1, k);
      Standing(c, evs, n - 1)
  }

  function FailureOf(ev: Event, handling: Handling): (Instant, string)
    requires ev.Trigger?
  {
    (ev.failAt, if handling.PressureSkip? then "disk_pressure" else ev.ending.FailureKind())
  }

  /** Status shows the latest submitted clip, and the latest failure exactly when no success has followed it. */
  lemma {:induction false} StatusTellsTheLatest(c: Config, evs: seq<Event>, n: nat)
    requires n <= |evs|
    ensures var r, k := After(c, evs, n).report, LastSuccess(c, evs, n);
            && r.lastClip == (if k.Some? then Some(evs[k.value].ending.clipId) else None)
            && r.lastRecordingAt == (if k.Some? then Some(evs[k.value].triggeredAt) else None)
    ensures var r, k := After(c, evs, n).report, Standing(c, evs, n);
            r.lastFailure == if k.Some? then Some(FailureOf(evs[k.value], Handled(c, After(c, evs, k.value), evs[k.value]))) else None
  {
    if n > 0 {
      StatusTellsTheLatest(c, evs, n - 1);
    }
  }
}
