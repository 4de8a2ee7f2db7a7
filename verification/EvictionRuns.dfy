/** When an eviction of a pending clip is safe against the delivery task (queue/policy.rs, queue/store.rs). */
module EvictionRuns {
  import opened Queue
  import opened Retry
  import opened Delivery
  import opened Protocol
  import opened Steps
  import opened Runs

  // ---- An eviction whose first unlink finds the media ----

  predicate Gone(v: View) { v.known && NoMedia(v.f) && !v.c.Placed? && !v.c.Cleanup? }

  lemma GoneStep(s: Sys, ev: Event, id: ClipId)
    requires Inv(s) && Enabled(s, ev) && Gone(ViewOf(s, id))
    ensures Gone(ViewOf(Apply(s, ev), id))
  {
    assert ViewOk(ViewOf(s, id));
    if Touched(s, ev).Some? && Touched(s, ev) != Some(id) {
      assert ViewOk(ViewOf(s, Touched(s, ev).value));
      assert ClipOk(s, Touched(s, ev).value);
      UntouchedView(s, ev, id);
    } else if ev.WorkerStep? {
      assert ClipOk(s, id);
      WorkerStepSeen(s, ev, id);
    }
  }

  lemma {:induction false} GoneForever(s: Sys, evs: seq<Event>, id: ClipId)
    requires Inv(s) && Valid(s, evs) && Gone(ViewOf(s, id))
    ensures NoMedia(At(Run(s, evs).disk, id))
    decreases evs
  {
    if evs != [] {
      GoneStep(s, evs[0], id);
      StepKeepsInv(s, evs[0]);
      GoneForever(Apply(s, evs[0]), evs[1..], id);
    }
  }

  /** If the first unlink finds the media, no later state of any run, whatever fails or crashes, holds media of the
      clip in pending/ or inflight/: the eviction is complete. */
  lemma FoundMediaIsGone(s: Sys, evs: seq<Event>, id: ClipId)
    requires Inv(s) && s.capturer == EvictMp4(id) && At(s.disk, id).pendingMp4.Some?
    requires Valid(s, [CaptureStep] + evs)
    ensures NoMedia(At(Run(s, [CaptureStep] + evs).disk, id))
  {
    assert ViewOk(ViewOf(s, id));
    assert ([CaptureStep] + evs)[1..] == evs;
    StepKeepsInv(s, CaptureStep);
    GoneForever(Apply(s, CaptureStep), evs, id);
  }

  // ---- An eviction whose first unlink finds nothing ----

  predicate FaultFree(ev: Event) { !ev.Crash? && !ev.WorkerFail? && !ev.CaptureFail? }

  /** The media is in pending/ without a sidecar, and no task is at work on it: no scan will ever see it. */
  ghost predicate Stranded(t: Sys, id: ClipId) {
    var v := ViewOf(t, id);
    v.w.Idle? && v.c.Quiet? && SweepablePending(v.f)
  }

  /** The media is in inflight/, and the delivery task will or may bring it back to pending/: a rollback or a requeue is
      under way, or the attempt can still end in a requeue. */
  predicate Returning(v: View) {
    && v.f.pendingMp4.None? && v.f.inflightMp4.Some?
    && match v.w
       case RollingBack(_) => true
       case Back(_) => true
       case BackMove(_) => true
       case Uploading(e) => e.attempts < v.limit
       case Moved(e) => e.attempts < v.limit && Preflight(v.f.inflightMp4).None?
       case Written(e) => e.attempts < v.limit && Preflight(v.f.inflightMp4).None?
       case Ready(e) => e.attempts < v.limit && Preflight(v.f.inflightMp4).None?
       case _ => false
  }

  /** Continued without crash and without failing call, the eviction strands the media. */
  ghost predicate Strands(s: Sys, evs: seq<Event>, id: ClipId) {
    && (forall ev :: ev in evs ==> FaultFree(ev))
    && Valid(s, [CaptureStep] + evs) && Stranded(Run(s, [CaptureStep] + evs), id)
  }

  // Not returning: nothing strands it.

  predicate Settled(v: View) {
    && v.mode.Running? && v.fault.None? && v.known && !v.c.Placed? && !v.c.Cleanup? && v.f.pendingMp4.None?
    && (v.f.inflightMp4.Some? ==> !Returning(v) && (v.w.Idle? ==> v.f.pendingJson.None?))
  }

  lemma SettledWorkerStep(v: View, now: Instant)
    requires ViewOk(v) && Settled(v) && !v.w.Idle? && !v.w.Uploading?
    ensures Settled(StepView(v, now))
  {
  }

  lemma SettledStep(s: Sys, ev: Event, id: ClipId)
    requires Inv(s) && Enabled(s, ev) && FaultFree(ev) && Settled(ViewOf(s, id))
    ensures Settled(ViewOf(Apply(s, ev), id))
  {
    assert ViewOk(ViewOf(s, id));
    if Touched(s, ev).Some? && Touched(s, ev) != Some(id) {
      assert ViewOk(ViewOf(s, Touched(s, ev).value));
      assert ClipOk(s, Touched(s, ev).value);
      UntouchedView(s, ev, id);
    } else if ev.WorkerStep? {
      assert ClipOk(s, id);
      WorkerStepSeen(s, ev, id);
      SettledWorkerStep(ViewOf(s, id), ev.now);
    } else if ev.Answered? {
      AfterUploadDecides(s.schedule, s.worker.e, ev.answer, ev.now);
    } else {
      SettledOtherwise(s, ev, id);
    }
  }

  lemma SettledOtherwise(s: Sys, ev: Event, id: ClipId)
    requires ViewOk(ViewOf(s, id)) && Enabled(s, ev) && FaultFree(ev) && Settled(ViewOf(s, id))
    requires !WorkerEvent(ev) && (Touched(s, ev).None? || Touched(s, ev) == Some(id))
    ensures Settled(ViewOf(Apply(s, ev), id))
  {
  }

  lemma {:induction false} SettledForever(s: Sys, evs: seq<Event>, id: ClipId)
    requires Inv(s) && Valid(s, evs) && (forall ev :: ev in evs ==> FaultFree(ev)) && Settled(ViewOf(s, id))
    ensures !Stranded(Run(s, evs), id)
    decreases evs
  {
    if evs != [] {
      SettledStep(s, evs[0], id);
      StepKeepsInv(s, evs[0]);
      SettledForever(Apply(s, evs[0]), evs[1..], id);
    }
  }

  // Returning: some run strands it.

  /** On the way back with the eviction's second unlink still to come. */
  ghost predicate Heading(s: Sys, id: ClipId) {
    && Inv(s) && s.schedule.Validated() && s.mode.Running? && s.capturer == EvictJson(id)
    && OnTheWay(ViewOf(s, id))
  }

  predicate OnTheWay(v: View) { Returning(v) || ((v.w.BackWrite? || v.w.BackClear?) && v.f.pendingMp4.Some?) }

  function StepsLeft(w: Worker): nat {
    match w
    case Moved(_) => 8
    case Written(_) => 7
    case Ready(_) => 6
    case Uploading(_) => 5
    case Back(_) => 4
    case BackMove(_) => 3
    case BackWrite(_) => 2
    case _ => 1
  }

  /** A transient failure re-queues a clip that has attempts left, at some reading of the clock. */
  lemma SomeRetry(sch: Schedule, e: Entry) returns (now: Instant)
    requires sch.Validated() && e.attempts < sch.maxAttempts
    ensures AfterUpload(sch, e, Refused(Network), now).Requeue?
  {
    now := if e.firstAttemptAt.Some? then Min(e.firstAttemptAt.value, 0.0) else 0.0;
    NoOverflowWithoutRetryAfter(sch, now, e.attempts, e.firstAttemptAt);
  }

  lemma HeadingAnswered(s: Sys, id: ClipId) returns (ev: Event)
    requires Heading(s, id) && s.worker.Uploading?
    ensures Enabled(s, ev) && FaultFree(ev) && Heading(Apply(s, ev), id)
    ensures StepsLeft(Apply(s, ev).worker) < StepsLeft(s.worker)
  {
    var e := s.worker.e;
    var now := SomeRetry(s.schedule, e);
    ev := Answered(Refused(Network), now);
    AfterUploadDecides(s.schedule, e, Refused(Network), now);
    StepKeepsInv(s, ev);
  }

  lemma StaysOnTheWay(v: View, now: Instant)
    requires ViewOk(v) && OnTheWay(v) && !v.w.Uploading? && !v.w.RollingBack? && !v.w.BackClear?
    ensures OnTheWay(StepView(v, now)) && StepsLeft(StepView(v, now).w) < StepsLeft(v.w)
  {
  }

  lemma HeadingStep(s: Sys, id: ClipId)
    requires Heading(s, id) && !s.worker.Uploading? && !s.worker.RollingBack? && !s.worker.BackClear?
    ensures var ev := WorkerStep(0.0);
            Enabled(s, ev) && Heading(Apply(s, ev), id) && StepsLeft(Apply(s, ev).worker) < StepsLeft(s.worker)
  {
    var ev := WorkerStep(0.0);
    assert ViewOk(ViewOf(s, id));
    assert ClipOk(s, id);
    WorkerStepSeen(s, ev, id);
    StaysOnTheWay(ViewOf(s, id), 0.0);
    StepKeepsInv(s, ev);
  }

  lemma AfterClear(s: Sys, id: ClipId) returns (evs: seq<Event>)
    requires Heading(s, id) && s.worker.BackClear?
    ensures (forall ev :: ev in evs ==> FaultFree(ev)) && Valid(s, evs) && Stranded(Run(s, evs), id)
  {
    var w := WorkerStep(0.0);
    RunOne(Apply(s, CaptureStep), w, []);
    RunOne(s, CaptureStep, [w]);
    evs := [CaptureStep] + [w];
  }

  lemma AfterRollback(s: Sys, id: ClipId) returns (evs: seq<Event>)
    requires Heading(s, id) && s.worker.RollingBack?
    ensures (forall ev :: ev in evs ==> FaultFree(ev)) && Valid(s, evs) && Stranded(Run(s, evs), id)
  {
    var w := WorkerStep(0.0);
    RunOne(Apply(s, w), CaptureStep, []);
    RunOne(s, w, [CaptureStep]);
    evs := [w] + [CaptureStep];
  }

  lemma {:induction false} StrandingRun(s: Sys, id: ClipId) returns (evs: seq<Event>)
    requires Heading(s, id)
    ensures (forall ev :: ev in evs ==> FaultFree(ev)) && Valid(s, evs) && Stranded(Run(s, evs), id)
    decreases StepsLeft(s.worker)
  {
    if s.worker.RollingBack? {
      evs := AfterRollback(s, id);
    } else if s.worker.BackClear? {
      evs := AfterClear(s, id);
    } else {
      var ev := WorkerStep(0.0);
      if s.worker.Uploading? {
        ev := HeadingAnswered(s, id);
      } else {
        HeadingStep(s, id);
      }
      var rest := StrandingRun(Apply(s, ev), id);
      RunOne(s, ev, rest);
      evs := [ev] + rest;
    }
  }

  /** Exactly when an eviction can strand media, with no crash and no failing call from its first unlink on: the unlink
      finds nothing in pending/ while the media is in inflight/ on its way back. */
  lemma EvictionStrandsExactly(s: Sys, id: ClipId)
    requires Inv(s) && s.mode.Running? && s.schedule.Validated() && s.capturer == EvictMp4(id) && id !in s.faults
    ensures Returning(ViewOf(s, id)) <==> exists evs :: Strands(s, evs, id)
  {
    var t := Apply(s, CaptureStep);
    assert ViewOk(ViewOf(s, id));
    StepKeepsInv(s, CaptureStep);
    if Returning(ViewOf(s, id)) {
      var evs := StrandingRun(t, id);
      RunOne(s, CaptureStep, evs);
      assert Strands(s, evs, id);
    } else {
      forall evs | Strands(s, evs, id) ensures false {
        assert ([CaptureStep] + evs)[1..] == evs;
        SettledForever(t, evs, id);
      }
    }
  }

  /** It happens: a pending pair is chosen for eviction, the delivery task moves its media into inflight/ before the
      first unlink, the attempt fails transiently, and the second unlink deletes the sidecar that the requeue wrote. */
  lemma EvictionOvertakesRequeue(s: Sys, e: Entry, m: nat, now: Instant) returns (evs: seq<Event>)
    requires Inv(s) && s.mode.Running? && s.worker.Idle? && s.capturer.Quiet? && s.schedule.Validated()
    requires At(s.disk, e.clipId) == NO_FILES.(pendingJson := Some(Good(e)), pendingMp4 := Some(m))
    requires !e.InBackoff(now) && e.attempts + 1 < s.schedule.maxAttempts && Preflight(Some(m)).None? && e.clipId !in s.faults
    ensures Valid(s, [Evict(e.clipId)] + evs) && (forall ev :: ev in evs ==> FaultFree(ev))
    ensures Stranded(Run(s, [Evict(e.clipId)] + evs), e.clipId)
  {
    var id, w := e.clipId, WorkerStep(now);
    assert ViewOk(ViewOf(s, id));
    var s1 := Apply(s, Evict(id));
    StepKeepsInv(s, Evict(id));
    var s2 := Apply(s1, Pick(id, now));
    StepKeepsInv(s1, Pick(id, now));
    var s3 := Apply(s2, w);
    StepKeepsInv(s2, w);
    EvictionStrandsExactly(s3, id);
    var rest :| Strands(s3, rest, id);
    RunOne(s2, w, [CaptureStep] + rest);
    RunOne(s1, Pick(id, now), [w] + ([CaptureStep] + rest));
    evs := [Pick(id, now)] + ([w] + ([CaptureStep] + rest));
    RunOne(s, Evict(id), evs);
  }

  // ---- When an eviction frees the clip's slot ----

  /** A sidecar in one of the three directories: the clip counts toward max_clips. */
  predicate HoldsSlot(f: Files) { f.pendingJson.Some? || f.inflightJson.Some? || f.deliveredJson.Some? }

  /** Nothing but pending/ holds anything of the clip that a task could bring a sidecar back from. */
  predicate Nowhere(v: View) {
    && v.known && v.f.inflightJson.None? && v.f.deliveredJson.None? && !v.c.Placed? && !v.c.Cleanup?
    && (v.w.Idle? || v.w.Picked? || v.w.RollingBack? || v.w.OrphanJson? || v.w.OrphanMp4? || v.w.QuarantineMp4?)
    && (v.w.Picked? ==> v.f.pendingMp4.None?)
  }

  /** The clip has no slot, and no task will write a sidecar for it. */
  predicate Freed(v: View) { Nowhere(v) && v.f.pendingJson.None? }

  lemma FreedWorkerStep(v: View, now: Instant)
    requires ViewOk(v) && Freed(v) && !v.w.Idle?
    ensures Freed(StepView(v, now))
  {
  }

  lemma FreedOtherwise(s: Sys, ev: Event, id: ClipId)
    requires ViewOk(ViewOf(s, id)) && Enabled(s, ev) && Freed(ViewOf(s, id))
    requires !ev.WorkerStep? && (Touched(s, ev).None? || Touched(s, ev) == Some(id))
    ensures Freed(ViewOf(Apply(s, ev), id))
  {
  }

  lemma FreedStep(s: Sys, ev: Event, id: ClipId)
    requires Inv(s) && Enabled(s, ev) && Freed(ViewOf(s, id))
    ensures Freed(ViewOf(Apply(s, ev), id))
  {
    assert ViewOk(ViewOf(s, id));
    if Touched(s, ev).Some? && Touched(s, ev) != Some(id) {
      assert ViewOk(ViewOf(s, Touched(s, ev).value));
      assert ClipOk(s, Touched(s, ev).value);
      UntouchedView(s, ev, id);
    } else if ev.WorkerStep? {
      assert ClipOk(s, id);
      WorkerStepSeen(s, ev, id);
      FreedWorkerStep(ViewOf(s, id), ev.now);
    } else {
      FreedOtherwise(s, ev, id);
    }
  }

  /** A slot once freed stays free, whatever fails or crashes. */
  lemma {:induction false} FreedForever(s: Sys, evs: seq<Event>, id: ClipId)
    requires Inv(s) && Valid(s, evs) && Freed(ViewOf(s, id))
    ensures !HoldsSlot(At(Run(s, evs).disk, id))
    decreases evs
  {
    if evs != [] {
      FreedStep(s, evs[0], id);
      StepKeepsInv(s, evs[0]);
      FreedForever(Apply(s, evs[0]), evs[1..], id);
    }
  }

  /** At the first unlink: the clip has a sidecar elsewhere, is about to get one, or is coming back beside its sidecar. */
  predicate Elsewhere(v: View) {
    || v.f.inflightJson.Some? || v.f.deliveredJson.Some? || v.w.Moved?
    || (v.w.RollingBack? && v.f.pendingJson.Some?)
  }

  /** Continued without crash and without failing call, the eviction ends and the clip has a slot afterwards. */
  ghost predicate KeepsSlot(s: Sys, evs: seq<Event>, id: ClipId) {
    && (forall ev :: ev in evs ==> FaultFree(ev)) && Valid(s, [CaptureStep] + evs)
    && var t := Run(s, [CaptureStep] + evs); CapturerClip(t.capturer) != Some(id) && HoldsSlot(At(t.disk, id))
  }

  /** The first unlink is done; either the second one is to come and nothing can be taken up, or the slot is free. */
  predicate Freeing(v: View) {
    || Freed(v)
    || (v.mode.Running? && v.c == EvictJson(v.id) && Nowhere(v) && v.f.pendingMp4.None? && !v.w.RollingBack?)
  }

  lemma FreeingStep(s: Sys, ev: Event, id: ClipId)
    requires Inv(s) && Enabled(s, ev) && FaultFree(ev) && Freeing(ViewOf(s, id))
    ensures Freeing(ViewOf(Apply(s, ev), id))
  {
    assert ViewOk(ViewOf(s, id));
    if Freed(ViewOf(s, id)) {
      FreedStep(s, ev, id);
    } else if Touched(s, ev).Some? && Touched(s, ev) != Some(id) {
      assert ViewOk(ViewOf(s, Touched(s, ev).value));
      assert ClipOk(s, Touched(s, ev).value);
      UntouchedView(s, ev, id);
    } else if ev.WorkerStep? {
      assert ClipOk(s, id);
      WorkerStepSeen(s, ev, id);
    }
  }

  lemma {:induction false} FreeingRun(s: Sys, evs: seq<Event>, id: ClipId)
    requires Inv(s) && Valid(s, evs) && (forall ev :: ev in evs ==> FaultFree(ev)) && Freeing(ViewOf(s, id))
    ensures CapturerClip(Run(s, evs).capturer) != Some(id) ==> !HoldsSlot(At(Run(s, evs).disk, id))
    decreases evs
  {
    if evs != [] {
      FreeingStep(s, evs[0], id);
      StepKeepsInv(s, evs[0]);
      FreeingRun(Apply(s, evs[0]), evs[1..], id);
    }
  }

  /** The second unlink follows at once, and then perhaps a step of the delivery task. */
  lemma SlotElsewhere(s: Sys, id: ClipId) returns (evs: seq<Event>)
    requires Inv(s) && s.mode.Running? && s.capturer == EvictMp4(id)
    requires var v := ViewOf(s, id); v.f.inflightJson.Some? || v.f.deliveredJson.Some? || v.w.Moved?
    ensures KeepsSlot(s, evs, id)
  {
    assert ViewOk(ViewOf(s, id));
    var s1 := Apply(s, CaptureStep);
    var s2 := Apply(s1, CaptureStep);
    if ViewOf(s, id).w.Moved? {
      var w := WorkerStep(0.0);
      RunOne(s2, w, []);
      RunOne(s1, CaptureStep, [w] + []);
      evs := [CaptureStep] + ([w] + []);
    } else {
      RunOne(s1, CaptureStep, []);
      evs := [CaptureStep] + [];
    }
    RunOne(s, CaptureStep, evs);
  }

  /** The rollback brings the media back beside its sidecar, and delivery picks it again before the second unlink. */
  lemma SlotAfterRollback(s: Sys, id: ClipId) returns (evs: seq<Event>)
    requires Inv(s) && s.mode.Running? && s.capturer == EvictMp4(id)
    requires s.worker == RollingBack(id) && At(s.disk, id).pendingJson.Some?
    ensures KeepsSlot(s, evs, id)
  {
    assert ViewOk(ViewOf(s, id));
    var w := WorkerStep(0.0);
    var s1 := Apply(s, CaptureStep);
    var s2 := Apply(s1, w);
    var rest := PickedAgain(s2, id);
    RunOne(s1, w, rest);
    evs := [w] + rest;
    RunOne(s, CaptureStep, evs);
  }

  lemma PickedAgain(s: Sys, id: ClipId) returns (evs: seq<Event>)
    requires s.mode.Running? && s.worker.Idle? && s.capturer == EvictJson(id)
    requires IsGood(At(s.disk, id).pendingJson) && At(s.disk, id).pendingMp4.Some?
    requires At(s.disk, id).pendingJson.value.entry.clipId == id
    ensures (forall ev :: ev in evs ==> FaultFree(ev)) && Valid(s, evs)
    ensures var t := Run(s, evs); t.capturer.Quiet? && HoldsSlot(At(t.disk, id))
  {
    var e := At(s.disk, id).pendingJson.value.entry;
    var now := if e.nextAttemptAfter.Some? then e.nextAttemptAfter.value else 0.0;
    var pick := Pick(id, now);
    var s1 := Apply(s, pick);
    var rest := MovedAgain(s1, id, now);
    RunOne(s, pick, rest);
    evs := [pick] + rest;
  }

  lemma MovedAgain(s: Sys, id: ClipId, now: Instant) returns (evs: seq<Event>)
    requires s.mode.Running? && s.worker.Picked? && s.worker.e.clipId == id && s.capturer == EvictJson(id)
    requires At(s.disk, id).pendingMp4.Some?
    ensures (forall ev :: ev in evs ==> FaultFree(ev)) && Valid(s, evs)
    ensures var t := Run(s, evs); t.capturer.Quiet? && HoldsSlot(At(t.disk, id))
  {
    var w := WorkerStep(now);
    var s1 := Apply(s, w);
    assert s1.worker.Moved? && WorkerClip(s1.worker) == Some(id);
    var s2 := Apply(s1, w);
    assert At(s2.disk, id).inflightJson.Some?;
    RunOne(s2, CaptureStep, []);
    RunOne(s1, w, [CaptureStep] + []);
    RunOne(s, w, [w] + ([CaptureStep] + []));
    evs := [w] + ([w] + ([CaptureStep] + []));
  }

  /** Exactly when an eviction leaves the clip its slot, although the planner counts it as freed: at the first unlink the
      clip has a sidecar in inflight/ or delivered/, is about to get one, or is being rolled back beside the one in
      pending/. Otherwise the slot is free as soon as the eviction ends, and by FreedForever for good. */
  lemma EvictionKeepsSlotExactly(s: Sys, id: ClipId)
    requires Inv(s) && s.mode.Running? && s.capturer == EvictMp4(id)
    ensures Elsewhere(ViewOf(s, id)) <==> exists evs :: KeepsSlot(s, evs, id)
  {
    assert ViewOk(ViewOf(s, id));
    if Elsewhere(ViewOf(s, id)) {
      var evs;
      if ViewOf(s, id).w.RollingBack? && ViewOf(s, id).f.inflightJson.None? && ViewOf(s, id).f.deliveredJson.None? {
        evs := SlotAfterRollback(s, id);
      } else {
        evs := SlotElsewhere(s, id);
      }
      assert KeepsSlot(s, evs, id);
    } else {
      StepKeepsInv(s, CaptureStep);
      forall evs | KeepsSlot(s, evs, id) ensures false {
        assert ([CaptureStep] + evs)[1..] == evs;
        FreeingRun(Apply(s, CaptureStep), evs, id);
      }
    }
  }
}
