/** The instant of a clip's first attempt, over whole runs of the queue protocol: once a sidecar has it, every later one
    has the same, so the wall-clock budget is never restarted. */
module Attempts {
  import opened Queue
  import opened Retry
  import opened Delivery
  import opened Protocol
  import opened Steps
  import opened Runs

  predicate FirstAt(s: Option<Sidecar>, t: Option<Instant>) { IsGood(s) ==> s.value.entry.firstAttemptAt == t }

  /** The pending sidecar of an attempt whose inflight sidecar has been written: it will be removed or overwritten. */
  predicate Stale(v: View) {
    && FirstAt(v.f.pendingJson, None) && IsGood(v.f.inflightJson)
    && (v.mode.Running? ==> v.f.inflightMp4.Some?)
  }

  /** The clip's first attempt was at t, as far as any sidecar or the worker knows. */
  predicate Since(v: View, t: Instant) {
    && v.known && !v.c.Placed?
    && (FirstAt(v.f.pendingJson, Some(t)) || Stale(v)) && FirstAt(v.f.inflightJson, Some(t)) && FirstAt(v.f.deliveredJson, Some(t))
    && (v.w.Picked? ==> v.w.e.firstAttemptAt == Some(t) || v.f.pendingMp4.None?)
    && (HasEntry(v.w) && !v.w.Picked? ==> v.w.e.firstAttemptAt == Some(t))
    && (v.w.BackClear? || v.w.Moved? || v.w.RollingBack? ==> FirstAt(v.f.pendingJson, Some(t)))
  }

  /** No attempt has been recorded yet. */
  predicate Untried(v: View) {
    && FirstAt(v.f.pendingJson, None) && FirstAt(v.f.inflightJson, None) && FirstAt(v.f.deliveredJson, None)
    && (HasEntry(v.w) && !v.w.Moved? ==> v.w.e.firstAttemptAt == None)
    && (v.w.Moved? ==> v.w.e.firstAttemptAt.Some?)
    && (v.c.Placed? ==> v.c.e.firstAttemptAt == None)
  }

  lemma SinceAttempting(v: View, now: Instant, t: Instant)
    requires ViewOk(v) && Since(v, t) && Attempting(v.w)
    ensures Since(StepView(v, now), t)
  {
  }

  lemma SinceRequeueing(v: View, now: Instant, t: Instant)
    requires ViewOk(v) && Since(v, t) && Requeueing(v.w)
    ensures Since(StepView(v, now), t)
  {
  }

  lemma SinceFinishing(v: View, now: Instant, t: Instant)
    requires ViewOk(v) && Since(v, t) && (v.w.Ready? || v.w.Record? || v.w.Unlink? || v.w.Publish?)
    ensures Since(StepView(v, now), t)
  {
  }

  lemma SinceWorkerStep(v: View, now: Instant, t: Instant)
    requires ViewOk(v) == true && Since(v, t) && !v.w.Idle? && !v.w.Uploading?
    ensures Since(StepView(v, now), t)
  {
    if Attempting(v.w) {
      SinceAttempting(v, now, t);
    } else if Requeueing(v.w) {
      SinceRequeueing(v, now, t);
    } else {
      SinceFinishing(v, now, t);
    }
  }

  lemma SinceCapture(s: Sys, ev: Event, id: ClipId, t: Instant)
    requires ViewOk(ViewOf(s, id)) && Enabled(s, ev) && Since(ViewOf(s, id), t) && CaptureEvent(ev) && Touched(s, ev) == Some(id)
    ensures Since(ViewOf(Apply(s, ev), id), t)
  {
  }

  lemma SinceOtherwise(s: Sys, ev: Event, id: ClipId, t: Instant)
    requires ViewOk(ViewOf(s, id)) && Enabled(s, ev) && Since(ViewOf(s, id), t) && !CaptureEvent(ev)
    requires !ev.WorkerStep? && !ev.Answered? && (Touched(s, ev).None? || Touched(s, ev) == Some(id))
    ensures Since(ViewOf(Apply(s, ev), id), t)
  {
  }

  lemma SinceStep(s: Sys, ev: Event, id: ClipId, t: Instant)
    requires Inv(s) && Enabled(s, ev) && Since(ViewOf(s, id), t)
    ensures Since(ViewOf(Apply(s, ev), id), t)
  {
    assert ViewOk(ViewOf(s, id));
    if Touched(s, ev).Some? && Touched(s, ev) != Some(id) {
      assert ViewOk(ViewOf(s, Touched(s, ev).value));
      assert ClipOk(s, Touched(s, ev).value);
      UntouchedView(s, ev, id);
    } else if ev.WorkerStep? {
      assert ClipOk(s, id);
      WorkerStepSeen(s, ev, id);
      SinceWorkerStep(ViewOf(s, id), ev.now, t);
    } else if ev.Answered? {
      RecordAfterAnswer(s.schedule, s.worker.e, ev.answer, ev.now);
    } else if CaptureEvent(ev) {
      SinceCapture(s, ev, id, t);
    } else {
      SinceOtherwise(s, ev, id, t);
    }
  }

  lemma {:induction false} SinceForever(s: Sys, evs: seq<Event>, id: ClipId, t: Instant)
    requires Inv(s) && Valid(s, evs) && Since(ViewOf(s, id), t)
    ensures Since(ViewOf(Run(s, evs), id), t) && Inv(Run(s, evs))
    decreases evs
  {
    if evs != [] {
      SinceStep(s, evs[0], id, t);
      StepKeepsInv(s, evs[0]);
      SinceForever(Apply(s, evs[0]), evs[1..], id, t);
    }
  }

  // ---- From the enqueue on ----

  /** What is known of the first attempt: nothing, or the one instant. */
  ghost predicate Known(v: View) { Untried(v) || exists t :: Since(v, t) }

  lemma UntriedWorkerStep(v: View, now: Instant)
    requires ViewOk(v) && Untried(v) && !v.w.Idle? && !v.w.Uploading? && !v.w.Moved?
    ensures Untried(StepView(v, now))
  {
  }

  lemma FirstRecorded(v: View, now: Instant)
    requires ViewOk(v) && Untried(v) && v.w.Moved?
    ensures Since(StepView(v, now), v.w.e.firstAttemptAt.value)
  {
  }

  lemma UntriedCapture(s: Sys, ev: Event, id: ClipId)
    requires ViewOk(ViewOf(s, id)) && Enabled(s, ev) && Untried(ViewOf(s, id)) && CaptureEvent(ev) && Touched(s, ev) == Some(id)
    ensures Untried(ViewOf(Apply(s, ev), id))
  {
  }

  lemma UntriedOtherwise(s: Sys, ev: Event, id: ClipId)
    requires ViewOk(ViewOf(s, id)) && Enabled(s, ev) && Untried(ViewOf(s, id)) && !CaptureEvent(ev)
    requires !ev.WorkerStep? && !ev.Answered? && (Touched(s, ev).None? || Touched(s, ev) == Some(id))
    ensures Untried(ViewOf(Apply(s, ev), id))
  {
  }

  lemma UntriedStep(s: Sys, ev: Event, id: ClipId)
    requires ClipOk(s, id) == true && Enabled(s, ev) && Untried(ViewOf(s, id)) && Touched(s, ev) == Some(id)
    requires !(ev.WorkerStep? && ViewOf(s, id).w.Moved?)
    ensures Untried(ViewOf(Apply(s, ev), id))
  {
    if ev.WorkerStep? {
      WorkerStepSeen(s, ev, id);
      UntriedWorkerStep(ViewOf(s, id), ev.now);
    } else if ev.Answered? {
      RecordAfterAnswer(s.schedule, s.worker.e, ev.answer, ev.now);
    } else if CaptureEvent(ev) {
      UntriedCapture(s, ev, id);
    } else {
      UntriedOtherwise(s, ev, id);
    }
  }

  lemma KnownStep(s: Sys, ev: Event, id: ClipId)
    requires Inv(s) && Enabled(s, ev) && Known(ViewOf(s, id))
    ensures Known(ViewOf(Apply(s, ev), id))
  {
    assert ViewOk(ViewOf(s, id));
    assert ClipOk(s, id);
    var v := ViewOf(s, id);
    if !Untried(v) {
      var t :| Since(v, t);
      SinceStep(s, ev, id, t);
    } else if Touched(s, ev).None? {
      UntriedOtherwise(s, ev, id);
    } else if Touched(s, ev) != Some(id) {
      assert ViewOk(ViewOf(s, Touched(s, ev).value));
      assert ClipOk(s, Touched(s, ev).value);
      UntouchedView(s, ev, id);
    } else if ev.WorkerStep? && v.w.Moved? {
      WorkerStepSeen(s, ev, id);
      FirstRecorded(v, ev.now);
    } else {
      UntriedStep(s, ev, id);
    }
  }

  lemma {:induction false} KnownForever(s: Sys, evs: seq<Event>, id: ClipId)
    requires Inv(s) && Valid(s, evs) && Known(ViewOf(s, id))
    ensures Known(ViewOf(Run(s, evs), id)) && Inv(Run(s, evs))
    decreases evs
  {
    if evs != [] {
      KnownStep(s, evs[0], id);
      StepKeepsInv(s, evs[0]);
      KnownForever(Apply(s, evs[0]), evs[1..], id);
    }
  }

  // ---- The theorems ----

  predicate Tells(s: Option<Sidecar>, t: Instant) { IsGood(s) && s.value.entry.firstAttemptAt == Some(t) }

  predicate AnyTells(f: Files, t: Instant) { Tells(f.pendingJson, t) || Tells(f.inflightJson, t) || Tells(f.deliveredJson, t) }

  lemma SinceThen(s: Sys, before: seq<Event>, after: seq<Event>, id: ClipId, t: Instant)
    requires Start(s) && Known(ViewOf(s, id)) && Valid(s, before) && Valid(Run(s, before), after)
    requires AnyTells(At(Run(s, before).disk, id), t)
    ensures Since(ViewOf(Run(Run(s, before), after), id), t)
  {
    StartInv(s);
    KnownForever(s, before, id);
    ToldIsSince(ViewOf(Run(s, before), id), t);
    SinceForever(Run(s, before), after, id, t);
  }

  lemma ToldIsSince(v: View, t: Instant)
    requires Known(v) && AnyTells(v.f, t)
    ensures Since(v, t)
  {
    var u :| Since(v, u);
    assert u == t;
  }

  /** Once a sidecar of the clip records its first attempt, the inflight sidecar and the record of every later state of
      every run, through requeues, crashes and boots, tell the same instant, and so does the pending sidecar unless an
      inflight one beside it is about to replace it. */
  lemma FirstAttemptIsFixed(s: Sys, before: seq<Event>, after: seq<Event>, id: ClipId, t: Instant)
    requires Start(s) && Known(ViewOf(s, id)) && Valid(s, before) && Valid(Run(s, before), after)
    requires AnyTells(At(Run(s, before).disk, id), t)
    ensures var g := At(Run(Run(s, before), after).disk, id);
            && (IsGood(g.inflightJson) ==> Tells(g.inflightJson, t)) && (IsGood(g.deliveredJson) ==> Tells(g.deliveredJson, t))
            && (IsGood(g.pendingJson) ==> Tells(g.pendingJson, t) || Tells(g.inflightJson, t))
  {
    SinceThen(s, before, after, id, t);
  }

  /** So no answer that comes at or after the first attempt plus the wall-clock budget ever re-queues the clip. */
  lemma BudgetIsNeverRestarted(s: Sys, before: seq<Event>, after: seq<Event>, id: ClipId, t: Instant, answer: Answer, now: Instant)
    requires Start(s) && Known(ViewOf(s, id)) && Valid(s, before) && Valid(Run(s, before), after) && 0.0 < s.schedule.maxWallclock
    requires AnyTells(At(Run(s, before).disk, id), t)
    requires var w := Run(Run(s, before), after).worker;
             w.Uploading? && w.e.clipId == id && AfterUpload(s.schedule, w.e, answer, now).Requeue?
    ensures now < t + s.schedule.maxWallclock
  {
    SinceThen(s, before, after, id, t);
    RequeuedInTime(s.schedule, Run(Run(s, before), after).worker.e, t, answer, now);
  }

  lemma RequeuedInTime(sch: Schedule, e: Entry, t: Instant, answer: Answer, now: Instant)
    requires e.firstAttemptAt == Some(t) && 0.0 < sch.maxWallclock && AfterUpload(sch, e, answer, now).Requeue?
    ensures now < t + sch.maxWallclock
  {
  }
}
