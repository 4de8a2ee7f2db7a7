/** What the queue protocol guarantees of the records it publishes in delivered/: the two facts that the poller's runs
    assume of arriving records. */
module Records {
  import opened Queue
  import opened Delivery
  import opened Protocol
  import opened Steps
  import opened Runs
  import Classify

  // ---- A record with a classify task is a Delivered one ----

  predicate TaskOk(e: Entry) { e.classifyTaskId.Some? ==> e.outcome == Some(Outcome.Delivered) }

  predicate Named(id: ClipId, s: Option<Sidecar>) { IsGood(s) ==> s.value.entry.clipId == id && TaskOk(s.value.entry) }

  predicate FilesWritten(id: ClipId, f: Files) {
    && Named(id, f.pendingJson) && Named(id, f.inflightJson) && Named(id, f.deliveredJson)
    && (IsGood(f.deliveredJson) ==> f.deliveredJson.value.entry.outcome.Some?)
  }

  predicate ViewWritten(v: View) {
    FilesWritten(v.id, v.f) && (HasEntry(v.w) ==> TaskOk(v.w.e)) && (v.c.Placed? ==> TaskOk(v.c.e))
  }

  lemma StepWritten(v: View, now: Instant)
    requires ViewWritten(v) && !v.w.Idle? && !v.w.Uploading? && (HasEntry(v.w) ==> v.w.e.clipId == v.id)
    requires v.w.Publish? ==> v.f.inflightJson == Some(Good(v.w.e)) && v.w.e.IsTerminal()
    requires v.w.Ready? ==> !v.w.e.IsTerminal()
    ensures ViewWritten(StepView(v, now))
  {
  }

  lemma EventKeepsWritten(s: Sys, ev: Event, id: ClipId)
    requires Inv(s) && Enabled(s, ev) && ViewWritten(ViewOf(s, id))
    ensures ViewWritten(ViewOf(Apply(s, ev), id))
  {
    assert ViewOk(ViewOf(s, id));
    if Touched(s, ev).Some? && Touched(s, ev) != Some(id) {
      assert ViewOk(ViewOf(s, Touched(s, ev).value));
      assert ClipOk(s, Touched(s, ev).value);
      UntouchedView(s, ev, id);
    } else if ev.WorkerStep? {
      assert ClipOk(s, id);
      WorkerStepSeen(s, ev, id);
      StepWritten(ViewOf(s, id), ev.now);
    } else if ev.Answered? {
      AfterUploadDecides(s.schedule, s.worker.e, ev.answer, ev.now);
    } else if CaptureEvent(ev) {
      CaptureKeepsWritten(s, ev, id);
    } else {
      OtherKeepsWritten(s, ev, id);
    }
  }

  lemma CaptureKeepsWritten(s: Sys, ev: Event, id: ClipId)
    requires ViewOk(ViewOf(s, id)) && Enabled(s, ev) && ViewWritten(ViewOf(s, id))
    requires CaptureEvent(ev) && Touched(s, ev) == Some(id)
    ensures ViewWritten(ViewOf(Apply(s, ev), id))
  {
  }

  lemma OtherKeepsWritten(s: Sys, ev: Event, id: ClipId)
    requires ViewOk(ViewOf(s, id)) && Enabled(s, ev) && ViewWritten(ViewOf(s, id)) && !CaptureEvent(ev)
    requires !ev.WorkerStep? && !ev.Answered? && (Touched(s, ev).None? || Touched(s, ev) == Some(id))
    ensures ViewWritten(ViewOf(Apply(s, ev), id))
  {
  }

  lemma {:induction false} RunKeepsWritten(s: Sys, evs: seq<Event>, id: ClipId)
    requires Inv(s) && Valid(s, evs) && ViewWritten(ViewOf(s, id))
    ensures ViewWritten(ViewOf(Run(s, evs), id))
    decreases evs
  {
    if evs != [] {
      EventKeepsWritten(s, evs[0], id);
      StepKeepsInv(s, evs[0]);
      RunKeepsWritten(Apply(s, evs[0]), evs[1..], id);
    }
  }

  /** In every run, each parsed record in delivered/ is as the poller expects it: named after its clip, with an outcome,
      and without a classify task if it is Undeliverable. */
  lemma PublishedAsWritten(s: Sys, evs: seq<Event>, id: ClipId)
    requires Start(s) && FilesWritten(id, At(s.disk, id)) && Valid(s, evs)
    ensures var r := At(Run(s, evs).disk, id).deliveredJson; IsGood(r) ==> Classify.WrittenByStation(id, r.value.entry)
  {
    StartInv(s);
    RunKeepsWritten(s, evs, id);
  }

  // ---- A clip is published once ----

  predicate Finished(v: View) {
    && v.known && v.f.pendingJson.None? && v.f.pendingMp4.None? && v.f.inflightJson.None? && v.f.inflightMp4.None?
    && v.w.Idle? && !v.c.Placed? && !v.c.Cleanup?
  }

  lemma FinishedStep(s: Sys, ev: Event, id: ClipId)
    requires Inv(s) && Enabled(s, ev) && Finished(ViewOf(s, id))
    ensures Finished(ViewOf(Apply(s, ev), id))
    ensures At(Apply(s, ev).disk, id).deliveredJson.Some? ==> At(s.disk, id).deliveredJson.Some?
  {
    assert ViewOk(ViewOf(s, id));
    if Touched(s, ev).Some? && Touched(s, ev) != Some(id) {
      assert ViewOk(ViewOf(s, Touched(s, ev).value));
      assert ClipOk(s, Touched(s, ev).value);
      UntouchedView(s, ev, id);
      assert ViewOf(Apply(s, ev), id).f == ViewOf(s, id).f;
    }
  }

  lemma {:induction false} FinishedForever(s: Sys, evs: seq<Event>, id: ClipId)
    requires Inv(s) && Valid(s, evs) && Finished(ViewOf(s, id)) && At(s.disk, id).deliveredJson.None?
    ensures At(Run(s, evs).disk, id).deliveredJson.None?
    decreases evs
  {
    if evs != [] {
      FinishedStep(s, evs[0], id);
      StepKeepsInv(s, evs[0]);
      FinishedForever(Apply(s, evs[0]), evs[1..], id);
    }
  }

  /** A record that was in delivered/ and was removed is never published again, over any run with crashes and reboots:
      each clip arrives there once. */
  lemma PublishedOnce(s: Sys, ev: Event, evs: seq<Event>, id: ClipId)
    requires Inv(s) && Enabled(s, ev) && Valid(Apply(s, ev), evs)
    requires At(s.disk, id).deliveredJson.Some? && At(Apply(s, ev).disk, id).deliveredJson.None?
    ensures At(Run(Apply(s, ev), evs).disk, id).deliveredJson.None?
  {
    assert ViewOk(ViewOf(s, id));
    FinishedStep(s, ev, id);
    StepKeepsInv(s, ev);
    FinishedForever(Apply(s, ev), evs, id);
  }
}
