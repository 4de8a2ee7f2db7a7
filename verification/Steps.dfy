/** Every event of the queue protocol keeps its invariant. */
module Steps {
  import opened Queue
  import opened Delivery
  import opened Protocol

  lemma WorkerKeepsClip(s: Sys, ev: Event)
    requires Enabled(s, ev) && WorkerEvent(ev)
    requires ClipOk(s, WorkerClip(s.worker).value) == true
    ensures Apply(s, ev).worker.Idle? || WorkerClip(Apply(s, ev).worker) == WorkerClip(s.worker)
  {
    if ev.Answered? {
      AfterUploadDecides(s.schedule, s.worker.e, ev.answer, ev.now);
    }
  }

  predicate WorkerEvent(ev: Event) { ev.WorkerStep? || ev.WorkerFail? || ev.Answered? }

  predicate CaptureEvent(ev: Event) {
    ev.Place? || ev.CaptureStep? || ev.CaptureFail? || ev.Evict? || ev.EvictUndeliverable?
  }

  lemma UntouchedByWorker(s: Sys, ev: Event, id: ClipId)
    requires Enabled(s, ev) && WorkerEvent(ev) && Touched(s, ev) != Some(id)
    requires ClipOk(s, Touched(s, ev).value) == true
    ensures ViewOf(Apply(s, ev), id) == ViewOf(s, id)
  {
    WorkerKeepsClip(s, ev);
  }

  lemma UntouchedByCapture(s: Sys, ev: Event, id: ClipId)
    requires Enabled(s, ev) && CaptureEvent(ev) && Touched(s, ev) != Some(id)
    ensures ViewOf(Apply(s, ev), id) == ViewOf(s, id)
  {
  }

  lemma UntouchedView(s: Sys, ev: Event, id: ClipId)
    requires Enabled(s, ev) && Touched(s, ev).Some? && Touched(s, ev) != Some(id)
    requires ClipOk(s, Touched(s, ev).value) == true
    ensures ViewOf(Apply(s, ev), id) == ViewOf(s, id)
  {
    if WorkerEvent(ev) {
      UntouchedByWorker(s, ev, id);
    } else if CaptureEvent(ev) {
      UntouchedByCapture(s, ev, id);
    }
  }

  /** The worker holds a record of the clip. */
  predicate HasEntry(w: Worker) {
    !w.Idle? && !w.RollingBack? && !w.OrphanJson? && !w.OrphanMp4? && !w.QuarantineMp4?
  }

  // Each event, seen from the one clip it touches.

  function StepView(v: View, now: Instant): View {
    var next := WorkerNext(v.w, v.f, now);
    v.(f := WorkerFiles(v.w, v.f), w := next, uploads := if next.Uploading? then v.uploads + 1 else v.uploads,
       fault := if v.w.RollingBack? && v.f.pendingJson.None? then Some(Unpaired) else v.fault)
  }

  function FailView(v: View): View {
    v.(w := WorkerFailed(v.w), fault := if FaultOf(v.w).Some? then FaultOf(v.w) else v.fault)
  }

  function CaptureView(v: View): View {
    v.(f := CapturerFiles(v.c, v.f), c := CapturerNext(v.c),
       fault := if v.c.EvictJson? && v.f.pendingMp4.Some? then Some(Unpaired) else v.fault)
  }

  function CaptureFailView(v: View): View {
    v.(c := CapturerFailed(v.c), fault := if v.c.Cleanup? then Some(CleanupFailed) else v.fault)
  }

  predicate Attempting(w: Worker) {
    w.Picked? || w.Moved? || w.RollingBack? || w.Written? || w.OrphanJson? || w.OrphanMp4? || w.QuarantineMp4?
  }

  lemma AttemptStepOk(v: View, now: Instant)
    requires ViewOk(v) && Attempting(v.w)
    ensures ViewOk(StepView(v, now))
  {
  }

  predicate Requeueing(w: Worker) { w.Back? || w.BackMove? || w.BackWrite? || w.BackClear? }

  lemma FinishStepOk(v: View, now: Instant)
    requires ViewOk(v) && (v.w.Ready? || v.w.Record? || v.w.Unlink? || v.w.Publish?)
    ensures ViewOk(StepView(v, now))
  {
  }

  lemma RequeueStepOk(v: View, now: Instant)
    requires ViewOk(v) && Requeueing(v.w)
    ensures ViewOk(StepView(v, now))
  {
  }

  lemma FailOk(v: View)
    requires ViewOk(v) && v.mode.Running? && !v.w.Idle? && !v.w.Ready? && !v.w.Uploading? && !v.w.Back?
    ensures ViewOk(FailView(v))
  {
  }

  lemma AnsweredOk(v: View, w: Worker)
    requires ViewOk(v) && v.w.Uploading?
    requires || (w.Record? && w.e.clipId == v.id && w.e.IsTerminal())
             || (w.Back? && w.e.clipId == v.id && !w.e.IsTerminal() && w.e.attempts == v.w.e.attempts
                 && w.e.attempts < v.limit)
    ensures ViewOk(v.(w := w))
  {
  }

  lemma CaptureOk(v: View)
    requires ViewOk(v) && v.mode.Running? && !v.c.Quiet?
    ensures ViewOk(CaptureView(v))
  {
  }

  lemma CaptureFailOk(v: View)
    requires ViewOk(v) && v.mode.Running? && !v.c.Quiet?
    ensures ViewOk(CaptureFailView(v))
  {
  }

  lemma WorkerStepSeen(s: Sys, ev: Event, id: ClipId)
    requires ClipOk(s, id) == true && Enabled(s, ev) && ev.WorkerStep? && Touched(s, ev) == Some(id)
    ensures ViewOf(Apply(s, ev), id) == StepView(ViewOf(s, id), ev.now)
  {
    WorkerKeepsClip(s, ev);
  }

  /** The event keeps the clip's view sound. */
  ghost predicate Kept(s: Sys, ev: Event, id: ClipId)
    requires Enabled(s, ev)
  {
    ViewOk(ViewOf(Apply(s, ev), id))
  }

  lemma WorkerStepKeeps(s: Sys, ev: Event, id: ClipId)
    requires ClipOk(s, id) == true && Enabled(s, ev) && ev.WorkerStep? && Touched(s, ev) == Some(id)
    ensures Kept(s, ev, id) == true
  {
    var v := ViewOf(s, id);
    WorkerStepSeen(s, ev, id);
    if Attempting(v.w) {
      AttemptStepOk(v, ev.now);
    } else if Requeueing(v.w) {
      RequeueStepOk(v, ev.now);
    } else {
      FinishStepOk(v, ev.now);
    }
  }

  lemma WorkerEventKeeps(s: Sys, ev: Event, id: ClipId)
    requires ClipOk(s, id) == true && Enabled(s, ev) && WorkerEvent(ev) && Touched(s, ev) == Some(id)
    ensures Kept(s, ev, id) == true
  {
    var v, u := ViewOf(s, id), ViewOf(Apply(s, ev), id);
    if ev.WorkerStep? {
      WorkerStepKeeps(s, ev, id);
    } else if ev.WorkerFail? {
      assert u == FailView(v);
      FailOk(v);
    } else {
      AfterUploadDecides(s.schedule, s.worker.e, ev.answer, ev.now);
      AnsweredOk(v, u.w);
    }
  }

  lemma PlaceOk(v: View, e: Entry, media: nat)
    requires ViewOk(v) && v.mode.Running? && !v.known
    requires e.clipId == v.id && e.attempts == 0 && !e.IsTerminal()
    ensures ViewOk(v.(f := v.f.(pendingMp4 := Some(media)), c := Placed(e), known := true, boots := 0))
  {
  }

  lemma CaptureStepKeeps(s: Sys, ev: Event, id: ClipId)
    requires ClipOk(s, id) == true && Enabled(s, ev) && (ev.CaptureStep? || ev.CaptureFail?) && Touched(s, ev) == Some(id)
    ensures Kept(s, ev, id) == true
  {
    var v, u := ViewOf(s, id), ViewOf(Apply(s, ev), id);
    if ev.CaptureStep? {
      assert u == CaptureView(v);
      CaptureOk(v);
    } else {
      assert u == CaptureFailView(v);
      CaptureFailOk(v);
    }
  }

  lemma PlaceKeeps(s: Sys, ev: Event, id: ClipId)
    requires ClipOk(s, id) == true && Enabled(s, ev) && ev.Place? && Touched(s, ev) == Some(id)
    ensures Kept(s, ev, id) == true
  {
    var v := ViewOf(s, id);
    PlaceOk(v, ev.entry, ev.media);
    assert ViewOf(Apply(s, ev), id)
        == v.(f := v.f.(pendingMp4 := Some(ev.media)), c := Placed(ev.entry), known := true, boots := 0);
  }

  lemma EvictOk(v: View, c: Capturer)
    requires ViewOk(v) && v.mode.Running? && v.c.Quiet? && v.known
    requires c.EvictMp4? || (c.EvictRecord? && IsRecord(v.f, Undeliverable))
    ensures ViewOk(v.(c := c))
  {
  }

  lemma EvictKeeps(s: Sys, ev: Event, id: ClipId)
    requires ClipOk(s, id) == true && Enabled(s, ev) && (ev.Evict? || ev.EvictUndeliverable?) && Touched(s, ev) == Some(id)
    ensures Kept(s, ev, id) == true
  {
    var v := ViewOf(s, id);
    EvictOk(v, Apply(s, ev).capturer);
    assert ViewOf(Apply(s, ev), id) == v.(c := Apply(s, ev).capturer);
  }

  lemma PickQuarantineOk(v: View, w: Worker, f: Files)
    requires ViewOk(v) && v.mode.Running? && v.w.Idle?
    requires || (IsGood(v.f.pendingJson) && f == v.f && w.Picked? && w.e == v.f.pendingJson.value.entry)
             || (v.f.pendingJson == Some(Corrupt) && w == QuarantineMp4(v.id)
                 && f == v.f.(corruptJson := v.f.pendingJson, pendingJson := None))
    ensures ViewOk(v.(w := w, f := f))
  {
  }

  lemma RecordAndBootOk(v: View, w: Worker, f: Files)
    requires ViewOk(v)
    requires || (v.mode.Running? && IsRecord(v.f, Delivered) && w == v.w && f == v.f.(deliveredJson := f.deliveredJson)
                 && (f.deliveredJson.None? || IsRecord(f, Delivered)))
             || (v.mode.SweepPending? && w == v.w && f == SweptPending(v.f))
             || (v.mode.SweepInflight? && w == v.w && f == SweptInflight(v.f))
             || (v.mode.Recover? && v.w.Idle? && f == v.f && IsGood(f.inflightJson) &&
                 var e := f.inflightJson.value.entry; w == if e.IsTerminal() then Record(e) else Back(Recovered(e)))
    ensures ViewOk(v.(w := w, f := f))
  {
  }

  lemma ScanEventKeeps(s: Sys, ev: Event, id: ClipId)
    requires ClipOk(s, id) == true && Enabled(s, ev) && (ev.Pick? || ev.Quarantine?) && Touched(s, ev) == Some(id)
    ensures Kept(s, ev, id) == true
  {
    var v, u := ViewOf(s, id), ViewOf(Apply(s, ev), id);
    assert u == v.(w := u.w, f := u.f);
    PickQuarantineOk(v, u.w, u.f);
  }

  lemma RecordEventKeeps(s: Sys, ev: Event, id: ClipId)
    requires ClipOk(s, id) == true && Enabled(s, ev) && Touched(s, ev) == Some(id)
    requires ev.PollWrite? || ev.Prune? || ev.SweepOne? || ev.RecoverOne?
    ensures Kept(s, ev, id) == true
  {
    var v, u := ViewOf(s, id), ViewOf(Apply(s, ev), id);
    assert u == v.(w := u.w, f := u.f);
    RecordAndBootOk(v, u.w, u.f);
  }

  lemma ModeEventKeeps(s: Sys, ev: Event, id: ClipId)
    requires ClipOk(s, id) == true && Enabled(s, ev) && Touched(s, ev).None?
    ensures Kept(s, ev, id) == true
  {
  }

  lemma ClipStepKeeps(s: Sys, ev: Event, id: ClipId)
    requires ClipOk(s, id) == true && Enabled(s, ev)
    requires Touched(s, ev).Some? ==> ClipOk(s, Touched(s, ev).value) == true
    ensures Kept(s, ev, id) == true
  {
    if Touched(s, ev).None? {
      ModeEventKeeps(s, ev, id);
    } else if Touched(s, ev) != Some(id) {
      UntouchedView(s, ev, id);
    } else {
      match ev
      case Place(_, _) => PlaceKeeps(s, ev, id);
      case CaptureStep => CaptureStepKeeps(s, ev, id);
      case CaptureFail => CaptureStepKeeps(s, ev, id);
      case Evict(_) => EvictKeeps(s, ev, id);
      case EvictUndeliverable(_) => EvictKeeps(s, ev, id);
      case Pick(_, _) => ScanEventKeeps(s, ev, id);
      case Quarantine(_) => ScanEventKeeps(s, ev, id);
      case WorkerStep(_) => WorkerEventKeeps(s, ev, id);
      case WorkerFail => WorkerEventKeeps(s, ev, id);
      case Answered(_, _) => WorkerEventKeeps(s, ev, id);
      case _ => RecordEventKeeps(s, ev, id);
    }
  }

  /** The invariant survives every event, whoever takes it. */
  lemma StepKeepsInv(s: Sys, ev: Event)
    requires Inv(s) && Enabled(s, ev)
    ensures Inv(Apply(s, ev))
  {
    if Touched(s, ev).Some? {
      assert ViewOk(ViewOf(s, Touched(s, ev).value));
    }
    forall id ensures Kept(s, ev, id) {
      assert ViewOk(ViewOf(s, id));
      assert ClipOk(s, id);
      ClipStepKeeps(s, ev, id);
    }
    assert forall id :: Kept(s, ev, id) ==> ViewOk(ViewOf(Apply(s, ev), id));
  }
}
