/** What holds over whole runs of the queue protocol: every interleaving of the tasks, every crash point, any number
    of reboots. */
module Runs {
  import opened Queue
  import opened Protocol
  import opened Steps

  ghost predicate Valid(s: Sys, evs: seq<Event>)
    decreases evs
  {
    evs == [] || (Enabled(s, evs[0]) && Valid(Apply(s, evs[0]), evs[1..]))
  }

  ghost function Run(s: Sys, evs: seq<Event>): Sys
    requires Valid(s, evs)
    decreases evs
  {
    if evs == [] then s else Run(Apply(s, evs[0]), evs[1..])
  }

  /** A station before its first boot, with any files earlier runs may have left. */
  ghost predicate Start(s: Sys) {
    && s.mode.Down? && s.worker.Idle? && s.capturer.Quiet? && 1 <= s.schedule.maxAttempts
    && s.faults == map[] && s.uploads == map[]
    && (forall id :: FilesOk(id, At(s.disk, id)))
    && (forall id :: id in s.disk ==> id in s.born)
    && (forall id :: id in s.born ==> s.born[id] <= s.reboots)
  }

  lemma StartInv(s: Sys)
    requires Start(s)
    ensures Inv(s)
  {
    forall id ensures ViewOk(ViewOf(s, id)) {
      assert FilesOk(id, At(s.disk, id));
    }
  }

  lemma {:induction false} RunKeepsInv(s: Sys, evs: seq<Event>)
    requires Inv(s) == true && Valid(s, evs)
    ensures Inv(Run(s, evs))
    decreases evs
  {
    if evs != [] {
      StepKeepsInv(s, evs[0]);
      RunKeepsInv(Apply(s, evs[0]), evs[1..]);
    }
  }

  // ---- Putting runs together ----

  lemma RunOne(s: Sys, ev: Event, rest: seq<Event>)
    requires Enabled(s, ev) && Valid(Apply(s, ev), rest)
    ensures Valid(s, [ev] + rest) && Run(s, [ev] + rest) == Run(Apply(s, ev), rest)
  {
    assert ([ev] + rest)[1..] == rest;
  }

  lemma {:induction false} RunConcat(s: Sys, a: seq<Event>, b: seq<Event>)
    requires Valid(s, a) && Valid(Run(s, a), b)
    ensures Valid(s, a + b) && Run(s, a + b) == Run(Run(s, a), b)
    decreases a
  {
    if a == [] {
      assert a + b == b;
    } else {
      RunConcat(Apply(s, a[0]), a[1..], b);
      assert a + b == [a[0]] + (a[1..] + b);
    }
  }

  ghost predicate Leads(s: Sys, evs: seq<Event>, t: Sys) { Valid(s, evs) && Run(s, evs) == t }

  lemma LeadsOn(s: Sys, evs: seq<Event>, t: Sys, ev: Event)
    requires Leads(s, evs, t) && Enabled(t, ev)
    ensures Leads(s, evs + [ev], Apply(t, ev))
  {
    RunOne(t, ev, []);
    assert [ev] + [] == [ev];
    RunConcat(s, evs, [ev]);
  }

  // ---- Boot, whatever order it visits the clips in, computes ReconciledFiles ----

  predicate BootEvent(ev: Event) { ev.SweepOne? || ev.NextPhase? || ev.RecoverOne? || ev.WorkerStep? }

  /** What the rest of boot will make of the clip's files. */
  function Rest(v: View): Files {
    if v.mode.Running? then v.f
    else
      match v.w
      case Record(e) => DeliveredFiles(v.f, e)
      case Unlink(e) => DeliveredFiles(v.f, e)
      case Publish(e) => DeliveredFiles(v.f, e)
      case Back(e) => RequeuedFiles(v.f, e)
      case BackMove(e) => RequeuedFiles(v.f, e)
      case BackWrite(e) => RequeuedFiles(v.f, e)
      case BackClear(_) => v.f.(inflightJson := None)
      case _ => ReconciledFiles(v.f)
  }

  lemma WorkerStepKeepsRest(v: View, now: Instant)
    requires ViewOk(v) && v.mode.Recover? && !v.w.Idle? && !Attempting(v.w) && !v.w.Ready? && !v.w.Uploading?
    ensures Rest(StepView(v, now)) == Rest(v)
  {
  }

  lemma BootStepKeepsRest(s: Sys, ev: Event, id: ClipId)
    requires Inv(s) && s.mode.Booting() && Enabled(s, ev) && BootEvent(ev)
    ensures Rest(ViewOf(Apply(s, ev), id)) == Rest(ViewOf(s, id))
  {
    assert ViewOk(ViewOf(s, id));
    if Touched(s, ev).None? {
    } else if Touched(s, ev) != Some(id) {
      assert ViewOk(ViewOf(s, Touched(s, ev).value));
      assert ClipOk(s, Touched(s, ev).value);
      UntouchedView(s, ev, id);
    } else if ev.WorkerStep? {
      assert ClipOk(s, id);
      WorkerStepSeen(s, ev, id);
      WorkerStepKeepsRest(ViewOf(s, id), ev.now);
    }
  }

  lemma {:induction false} BootRunKeepsRest(s: Sys, evs: seq<Event>, id: ClipId)
    requires Inv(s) && (s.mode.Booting() || (s.mode.Running? && s.worker.Idle?))
    requires Valid(s, evs) && (forall ev :: ev in evs ==> BootEvent(ev)) && Run(s, evs).mode.Running?
    ensures At(Run(s, evs).disk, id) == Rest(ViewOf(s, id))
    decreases evs
  {
    if evs != [] {
      assert BootEvent(evs[0]) && s.mode.Booting();
      StepKeepsInv(s, evs[0]);
      BootStepKeepsRest(s, evs[0], id);
      BootRunKeepsRest(Apply(s, evs[0]), evs[1..], id);
    }
  }

  /** A boot that runs to completion leaves every clip exactly as the one-shot reconciliation would. */
  lemma BootRefinesReconcile(s: Sys, evs: seq<Event>, id: ClipId)
    requires Inv(s) && s.mode.Down? && Valid(s, [Boot] + evs)
    requires (forall ev :: ev in evs ==> BootEvent(ev)) && Run(s, [Boot] + evs).mode.Running?
    ensures At(Run(s, [Boot] + evs).disk, id) == ReconciledFiles(At(s.disk, id))
  {
    assert ([Boot] + evs)[1..] == evs;
    StepKeepsInv(s, Boot);
    BootRunKeepsRest(Apply(s, Boot), evs, id);
  }

  // ---- What a crash can cost ----

  function MediaOf(f: Files): Option<nat> { if f.pendingMp4.Some? then f.pendingMp4 else f.inflightMp4 }

  /** The pair that reconciliation makes of a clip: its media, with the interrupted attempt's record, backoff cleared,
      or else with the very sidecar that was there. */
  predicate PendingPair(f: Files, g: Files) {
    && g.pendingMp4 == MediaOf(f) && g.inflightMp4.None? && g.inflightJson.None? && g.pendingJson.Some?
    && g.pendingJson == if IsGood(f.inflightJson) then Some(Good(Recovered(f.inflightJson.value.entry))) else f.pendingJson
  }

  predicate NoMedia(f: Files) { f.pendingMp4.None? && f.inflightMp4.None? }

  lemma ReconcileOutcome(id: ClipId, f: Files)
    requires FilesOk(id, f)
    ensures var g := ReconciledFiles(f);
            && (HasTerminalRecord(f) ==> NoMedia(g) && g.deliveredJson == f.inflightJson && g.pendingJson.None?)
            && (!HasTerminalRecord(f) && MediaOf(f).Some? ==>
                  if MediaUnpaired(f) then NoMedia(g) else PendingPair(f, g))
  {
  }

  /** The clip's media is lost if the process stops here. While a boot is still sweeping, that was decided by the crash
      before it, and what stands alone is what the sweep has yet to remove. */
  predicate Losing(v: View) {
    if v.mode.Recover? || v.mode.Running? then LossPoint(v) else MediaUnpaired(v.f)
  }

  /** Crash anywhere, in any phase of a boot too, and reboot to completion: the media of a clip that has no recorded
      outcome is destroyed if the clip was at a loss point, and otherwise comes back as a pending pair with the same
      bytes; a recorded outcome ends in delivered/. */
  lemma CrashLossExact(s: Sys, evs: seq<Event>, id: ClipId)
    requires Inv(s) && !s.mode.Down?
    requires Valid(s, [Crash, Boot] + evs) && (forall ev :: ev in evs ==> BootEvent(ev))
    requires Run(s, [Crash, Boot] + evs).mode.Running?
    ensures var f, g := At(s.disk, id), At(Run(s, [Crash, Boot] + evs).disk, id);
            && (HasTerminalRecord(f) ==> NoMedia(g) && g.deliveredJson == f.inflightJson && g.pendingJson.None?)
            && (!HasTerminalRecord(f) && MediaOf(f).Some? ==>
                  && (Losing(ViewOf(s, id)) ==> NoMedia(g))
                  && (!Losing(ViewOf(s, id)) ==> PendingPair(f, g)))
  {
    assert ([Crash, Boot] + evs)[1..] == [Boot] + evs;
    StepKeepsInv(s, Crash);
    BootRefinesReconcile(Apply(s, Crash), evs, id);
    assert ViewOk(ViewOf(s, id));
    ReconcileOutcome(id, At(s.disk, id));
  }

  /** A crash inside a boot, between two clips, costs nothing: the next boot ends where the interrupted one would have. */
  lemma CrashInBootCostsNothing(s: Sys, evs: seq<Event>, id: ClipId)
    requires Inv(s) && s.mode.Booting() && s.worker.Idle?
    requires Valid(s, [Crash, Boot] + evs) && (forall ev :: ev in evs ==> BootEvent(ev))
    requires Run(s, [Crash, Boot] + evs).mode.Running?
    ensures At(Run(s, [Crash, Boot] + evs).disk, id) == Rest(ViewOf(s, id))
  {
    assert ([Crash, Boot] + evs)[1..] == [Boot] + evs;
    StepKeepsInv(s, Crash);
    BootRefinesReconcile(Apply(s, Crash), evs, id);
  }

  /** The loss points by program counter, when no call has failed and no eviction has overtaken a requeue: the
      capture task between placing media and writing its sidecar, the delivery task between moving media into
      inflight/ and writing (or rolling back) its sidecar, a requeue between moving media and writing a pending
      sidecar that is not there yet, or the quarantine of a corrupt sidecar before its media follows. */
  lemma LossPointsWithoutFaults(s: Sys, id: ClipId)
    requires Inv(s) && (s.mode.Running? || s.mode.Recover?) && s.faults == map[]
    requires MediaOf(At(s.disk, id)).Some?
    ensures var f, w := At(s.disk, id), s.worker;
            MediaUnpaired(f) <==>
              || s.capturer == Cleanup(id) || (s.capturer.Placed? && s.capturer.e.clipId == id)
              || (w.Moved? && w.e.clipId == id && f.inflightJson.None?)
              || (w == RollingBack(id) && f.inflightJson.None?)
              || (w.BackWrite? && w.e.clipId == id && f.pendingJson.None?)
              || w == QuarantineMp4(id)
  {
    assert ViewOk(ViewOf(s, id));
  }

  // ---- A terminal record is final ----

  ghost predicate Closed(v: View) {
    && v.known && v.f.pendingJson.None? && v.f.pendingMp4.None?
    && (v.f.inflightJson.None? || HasTerminalRecord(v.f))
    && (v.w.Idle? || v.w.Record? || v.w.Unlink? || v.w.Publish?)
    && !v.c.Placed? && !v.c.Cleanup?
  }

  lemma ClosedWorkerStep(v: View, now: Instant)
    requires ViewOk(v) && Closed(v) && !v.w.Idle?
    ensures Closed(StepView(v, now)) && StepView(v, now).uploads == v.uploads
  {
  }

  lemma ClosedOtherwise(s: Sys, ev: Event, id: ClipId)
    requires ViewOk(ViewOf(s, id)) && Enabled(s, ev) && Closed(ViewOf(s, id))
    requires !ev.WorkerStep? && (Touched(s, ev).None? || Touched(s, ev) == Some(id))
    ensures Closed(ViewOf(Apply(s, ev), id)) && ViewOf(Apply(s, ev), id).uploads == ViewOf(s, id).uploads
  {
  }

  lemma ClosedStep(s: Sys, ev: Event, id: ClipId)
    requires Inv(s) && Enabled(s, ev) && Closed(ViewOf(s, id))
    ensures Closed(ViewOf(Apply(s, ev), id)) && Uploads(Apply(s, ev), id) == Uploads(s, id)
  {
    assert ViewOk(ViewOf(s, id));
    if Touched(s, ev).Some? && Touched(s, ev) != Some(id) {
      assert ViewOk(ViewOf(s, Touched(s, ev).value));
      assert ClipOk(s, Touched(s, ev).value);
      UntouchedView(s, ev, id);
    } else if ev.WorkerStep? {
      assert ClipOk(s, id);
      WorkerStepSeen(s, ev, id);
      ClosedWorkerStep(ViewOf(s, id), ev.now);
    } else {
      ClosedOtherwise(s, ev, id);
    }
    assert ViewOf(Apply(s, ev), id).uploads == Uploads(Apply(s, ev), id);
  }

  lemma {:induction false} ClosedForever(s: Sys, evs: seq<Event>, id: ClipId)
    requires Inv(s) && Valid(s, evs) && Closed(ViewOf(s, id))
    ensures Closed(ViewOf(Run(s, evs), id)) && Uploads(Run(s, evs), id) == Uploads(s, id)
    decreases evs
  {
    if evs != [] {
      ClosedStep(s, evs[0], id);
      StepKeepsInv(s, evs[0]);
      ClosedForever(Apply(s, evs[0]), evs[1..], id);
    }
  }

  // ---- Counting over a run ----

  /** The event sends the clip's bytes: the worker was ready with it, and awaits the answer afterwards. */
  ghost predicate Sends(s: Sys, ev: Event, id: ClipId)
    requires Enabled(s, ev)
  {
    s.worker.Ready? && s.worker.e.clipId == id && Apply(s, ev).worker.Uploading?
  }

  ghost function UploadCount(s: Sys, evs: seq<Event>, id: ClipId): nat
    requires Valid(s, evs)
    decreases evs
  {
    if evs == [] then 0
    else (if Sends(s, evs[0], id) then 1 else 0) + UploadCount(Apply(s, evs[0]), evs[1..], id)
  }

  function BootCount(evs: seq<Event>): nat {
    if evs == [] then 0 else (if evs[0].Boot? then 1 else 0) + BootCount(evs[1..])
  }

  lemma StepCounts(s: Sys, ev: Event, id: ClipId)
    requires Enabled(s, ev)
    ensures Uploads(Apply(s, ev), id) == Uploads(s, id) + if Sends(s, ev, id) then 1 else 0
    ensures Apply(s, ev).reboots == s.reboots + if ev.Boot? then 1 else 0
    ensures id in s.born ==> id in Apply(s, ev).born && Apply(s, ev).born[id] == s.born[id]
    ensures id !in s.born && id in Apply(s, ev).born ==> Apply(s, ev).born[id] == s.reboots
  {
  }

  lemma {:induction false} RunCounts(s: Sys, evs: seq<Event>, id: ClipId)
    requires Valid(s, evs)
    ensures Uploads(Run(s, evs), id) == Uploads(s, id) + UploadCount(s, evs, id)
    ensures Run(s, evs).reboots == s.reboots + BootCount(evs)
    ensures id in s.born ==> id in Run(s, evs).born && Run(s, evs).born[id] == s.born[id]
    ensures id !in s.born && id in Run(s, evs).born ==> Run(s, evs).born[id] >= s.reboots
    decreases evs
  {
    if evs != [] {
      StepCounts(s, evs[0], id);
      RunCounts(Apply(s, evs[0]), evs[1..], id);
    }
  }

  /** Once a record with an outcome is in inflight/, no later state of any run, whatever crashes and reboots it
      holds, has a pending sidecar or pending media for that clip, and the clip is never uploaded again. */
  lemma TerminalRecordIsFinal(s: Sys, evs: seq<Event>, id: ClipId)
    requires Inv(s) && HasTerminalRecord(At(s.disk, id)) && Valid(s, evs)
    ensures var t := Run(s, evs);
            && At(t.disk, id).pendingJson.None? && At(t.disk, id).pendingMp4.None?
            && UploadCount(s, evs, id) == 0
  {
    assert ViewOk(ViewOf(s, id));
    ClosedForever(s, evs, id);
    RunCounts(s, evs, id);
  }

  // ---- Uploads are bounded across crashes ----

  /** In every run, a clip is sent at most as often as the attempt limit says, and once more for every boot: the boots of
      the run, and those that a clip from before it has already seen. */
  lemma UploadBound(s: Sys, evs: seq<Event>, id: ClipId)
    requires Start(s) && Valid(s, evs)
    ensures UploadCount(s, evs, id) <= s.schedule.maxAttempts + BootCount(evs)
                                       + (if id in s.born then s.reboots - s.born[id] else 0)
    ensures var t := Run(s, evs);
            UploadCount(s, evs, id) <= s.schedule.maxAttempts + (if id in t.born then t.reboots - t.born[id] else 0)
  {
    RunCounts(s, evs, id);
    StartInv(s);
    RunKeepsInv(s, evs);
    ScheduleConstant(s, evs);
    assert ViewOk(ViewOf(Run(s, evs), id));
  }

  lemma {:induction false} ScheduleConstant(s: Sys, evs: seq<Event>)
    requires Valid(s, evs)
    ensures Run(s, evs).schedule == s.schedule
    decreases evs
  {
    if evs != [] {
      ScheduleConstant(Apply(s, evs[0]), evs[1..]);
    }
  }

  // ---- The race between eviction and delivery ----

  /** In every reachable state: a clip's media is in at most one directory and never beside a delivered record;
      `transition_inflight` returning Ok means a complete inflight pair and nothing in pending/; MissingMedia means
      no media in inflight/ unless an earlier failed call left it there; and the two renames whose NotFound would
      surface as a raw I/O error always find their source. */
  lemma RaceSafety(s: Sys, evs: seq<Event>, id: ClipId)
    requires Start(s) && Valid(s, evs)
    ensures var t := Run(s, evs);
            var f, w := At(t.disk, id), t.worker;
            && !(f.pendingMp4.Some? && f.inflightMp4.Some?)
            && (f.deliveredJson.Some? ==> NoMedia(f))
            && (w.Ready? && w.e.clipId == id ==>
                  && f.inflightMp4.Some? && f.inflightJson == Some(Good(w.e))
                  && f.pendingMp4.None? && f.pendingJson.None?)
            && (w == OrphanJson(id) ==>
                  && f.pendingMp4.None?
                  && (f.inflightMp4.Some? <==>
                        id in t.faults && (t.faults[id].RollbackFailed? || t.faults[id].PendingRemovalFailed?)))
            && (w.Publish? && w.e.clipId == id ==> f.inflightJson == Some(Good(w.e)))
            && (w.BackMove? && w.e.clipId == id ==> f.inflightMp4.Some?)
  {
    StartInv(s);
    RunKeepsInv(s, evs);
    assert ViewOk(ViewOf(Run(s, evs), id));
  }

  /** The second exception in RaceSafety: the pending sidecar cannot be removed, so the clip is picked again while its
      media and a sidecar are in inflight/. */
  lemma MissingMediaAfterFailedRemoval(s: Sys, e: Entry, m: nat)
    requires s.mode.Running? && s.worker.Idle? && !e.InBackoff(0.0)
    requires At(s.disk, e.clipId) == NO_FILES.(pendingJson := Some(Good(e)), pendingMp4 := Some(m))
    ensures var pick, w := Pick(e.clipId, 0.0), WorkerStep(0.0);
            var evs := [pick, w, w, WorkerFail, pick, w];
            Valid(s, evs) && Run(s, evs).worker == OrphanJson(e.clipId)
            && At(Run(s, evs).disk, e.clipId).inflightMp4 == Some(m)
            && e.clipId in Run(s, evs).faults && Run(s, evs).faults[e.clipId] == PendingRemovalFailed
  {
    var pick, w := Pick(e.clipId, 0.0), WorkerStep(0.0);
    var s1 := Apply(s, pick);
    WritesThenFails(s1, e, m);
    RunOne(s, pick, [w, w, WorkerFail, pick, w]);
    assert [pick] + [w, w, WorkerFail, pick, w] == [pick, w, w, WorkerFail, pick, w];
  }

  lemma WritesThenFails(s: Sys, e: Entry, m: nat)
    requires s.mode.Running? && s.worker == Picked(e, 0.0) && !e.InBackoff(0.0)
    requires At(s.disk, e.clipId) == NO_FILES.(pendingJson := Some(Good(e)), pendingMp4 := Some(m))
    ensures var w := WorkerStep(0.0);
            var evs := [w, w, WorkerFail, Pick(e.clipId, 0.0), w];
            Valid(s, evs) && Run(s, evs).worker == OrphanJson(e.clipId)
            && At(Run(s, evs).disk, e.clipId).inflightMp4 == Some(m)
            && e.clipId in Run(s, evs).faults && Run(s, evs).faults[e.clipId] == PendingRemovalFailed
  {
    var pick, w := Pick(e.clipId, 0.0), WorkerStep(0.0);
    var s1 := Apply(s, w);
    assert s1.worker == Moved(Bumped(e, 0.0));
    var s2 := Apply(s1, w);
    RemovalFails(s2, e, m);
    RunOne(s1, w, [WorkerFail, pick, w]);
    RunOne(s, w, [w] + [WorkerFail, pick, w]);
    assert [w] + ([w] + [WorkerFail, pick, w]) == [w, w, WorkerFail, pick, w];
  }

  lemma RemovalFails(s: Sys, e: Entry, m: nat)
    requires s.mode.Running? && s.worker == Written(Bumped(e, 0.0)) && !e.InBackoff(0.0)
    requires var f := At(s.disk, e.clipId); f.pendingJson == Some(Good(e)) && f.pendingMp4.None? && f.inflightMp4 == Some(m)
    ensures var evs := [WorkerFail, Pick(e.clipId, 0.0), WorkerStep(0.0)];
            Valid(s, evs) && Run(s, evs).worker == OrphanJson(e.clipId)
            && At(Run(s, evs).disk, e.clipId).inflightMp4 == Some(m)
            && e.clipId in Run(s, evs).faults && Run(s, evs).faults[e.clipId] == PendingRemovalFailed
  {
    var pick, w := Pick(e.clipId, 0.0), WorkerStep(0.0);
    var s1 := Apply(s, WorkerFail);
    var s2 := Apply(s1, pick);
    RunOne(s2, w, []);
    RunOne(s1, pick, [w]);
    RunOne(s, WorkerFail, [pick, w]);
    assert [WorkerFail] + [pick, w] == [WorkerFail, pick, w] && [pick] + [w] == [pick, w];
  }

  /** The exception in RaceSafety is real: after a failed rollback the next attempt reports MissingMedia while the
      media sits in inflight/. */
  lemma MissingMediaWithMediaHeld(s: Sys, e: Entry, m: nat)
    requires s.mode.Running? && s.worker.Idle? && !e.InBackoff(0.0)
    requires At(s.disk, e.clipId) == NO_FILES.(pendingJson := Some(Good(e)), pendingMp4 := Some(m))
    ensures var evs := [Pick(e.clipId, 0.0), WorkerStep(0.0), WorkerFail, WorkerFail, Pick(e.clipId, 0.0), WorkerStep(0.0)];
            Valid(s, evs) && Run(s, evs).worker == OrphanJson(e.clipId)
            && At(Run(s, evs).disk, e.clipId).inflightMp4 == Some(m)
  {
    var pick, w := Pick(e.clipId, 0.0), WorkerStep(0.0);
    RunOne(s, pick, []);
    var s1 := Apply(s, pick);
    assert [pick] + [] == [pick];
    LeadsOn(s, [pick], s1, w);
    var s2 := Apply(s1, w);
    LeadsOn(s, [pick] + [w], s2, WorkerFail);
    var s3 := Apply(s2, WorkerFail);
    LeadsOn(s, [pick] + [w] + [WorkerFail], s3, WorkerFail);
    var s4 := Apply(s3, WorkerFail);
    assert At(s4.disk, e.clipId) == NO_FILES.(pendingJson := Some(Good(e)), inflightMp4 := Some(m));
    LeadsOn(s, [pick] + [w] + [WorkerFail] + [WorkerFail], s4, pick);
    LeadsOn(s, [pick] + [w] + [WorkerFail] + [WorkerFail] + [pick], Apply(s4, pick), w);
    assert [pick] + [w] + [WorkerFail] + [WorkerFail] + [pick] + [w] == [pick, w, WorkerFail, WorkerFail, pick, w];
  }

  lemma RequeueWrites(s: Sys, e: Entry, now: Instant)
    requires s.mode.Running? && s.worker == Back(e) && At(s.disk, e.clipId).inflightMp4.Some?
    ensures var evs := [WorkerStep(now), WorkerStep(now), WorkerStep(now)];
            && Valid(s, evs)
            && var t := Run(s, evs);
               && t.worker == BackClear(e) && t.capturer == s.capturer && t.mode == s.mode
               && At(t.disk, e.clipId) == RequeuedFiles(At(s.disk, e.clipId), e).(inflightJson := At(s.disk, e.clipId).inflightJson)
  {
    var w := WorkerStep(now);
    var s1 := Apply(s, w);
    var s2 := Apply(s1, w);
    RunOne(s2, w, []);
    RunOne(s1, w, [w]);
    RunOne(s, w, [w, w]);
    assert [w] + [w, w] == [w, w, w] && [w] + [w] == [w, w];
  }

  // ---- Who may destroy media ----

  predicate HasMedia(f: Files) { f.pendingMp4.Some? || f.inflightMp4.Some? || f.corruptMp4.Some? }

  /** The media of a clip leaves the disk in exactly four ways: unlinked after its outcome was recorded, evicted,
      removed because its own enqueue failed, or swept at boot. Deleting an orphan sidecar's stray media never
      deletes anything. */
  lemma MediaDestroyedOnlyBy(s: Sys, ev: Event, id: ClipId)
    requires Inv(s) && Enabled(s, ev) && HasMedia(At(s.disk, id)) && At(s.disk, id).corruptMp4.None?
    ensures !HasMedia(At(Apply(s, ev).disk, id)) <==>
              var f := At(s.disk, id);
              || (ev.WorkerStep? && s.worker.Unlink? && s.worker.e.clipId == id && HasTerminalRecord(f))
              || (ev.CaptureStep? && s.capturer == EvictMp4(id) && f.pendingMp4.Some?)
              || (ev.CaptureStep? && s.capturer == Cleanup(id))
              || (ev.SweepOne? && ev.clip == id)
  {
    assert ViewOk(ViewOf(s, id));
  }

  /** Eviction leaves the un-evictable floor alone: no event of the capture task changes anything in inflight/ nor a
      Delivered record. */
  lemma CaptureSparesTheFloor(s: Sys, ev: Event, id: ClipId)
    requires Inv(s) && Enabled(s, ev) && CaptureEvent(ev)
    ensures var f, g := At(s.disk, id), At(Apply(s, ev).disk, id);
            && g.inflightJson == f.inflightJson && g.inflightMp4 == f.inflightMp4
            && (IsRecord(f, Outcome.Delivered) ==> g.deliveredJson == f.deliveredJson)
  {
    assert ViewOk(ViewOf(s, id));
  }

  // ---- A transition that is left alone does what its specification function says ----

  lemma InflightAlone(s: Sys, e: Entry, now: Instant)
    requires s.mode.Running? && s.worker == Picked(e, now) && At(s.disk, e.clipId).pendingMp4.Some?
    ensures var evs := [WorkerStep(now), WorkerStep(now), WorkerStep(now)];
            && Valid(s, evs) && Run(s, evs).worker == Ready(Bumped(e, now))
            && At(Run(s, evs).disk, e.clipId) == InflightFiles(At(s.disk, e.clipId), e, now)
  {
    var w := WorkerStep(now);
    var s1 := Apply(s, w);
    var s2 := Apply(s1, w);
    RunOne(s2, w, []);
    RunOne(s1, w, [w]);
    RunOne(s, w, [w, w]);
    assert [w] + [w, w] == [w, w, w] && [w] + [w] == [w, w];
  }

  lemma DeliverAlone(s: Sys, e: Entry, now: Instant)
    requires s.mode.Running? && s.worker == Record(e)
    ensures var evs := [WorkerStep(now), WorkerStep(now), WorkerStep(now)];
            && Valid(s, evs) && Run(s, evs).worker == Idle
            && At(Run(s, evs).disk, e.clipId) == DeliveredFiles(At(s.disk, e.clipId), e)
  {
    var w := WorkerStep(now);
    var s1 := Apply(s, w);
    var s2 := Apply(s1, w);
    RunOne(s2, w, []);
    RunOne(s1, w, [w]);
    RunOne(s, w, [w, w]);
    assert [w] + [w, w] == [w, w, w] && [w] + [w] == [w, w];
  }

  lemma RequeueAlone(s: Sys, e: Entry, now: Instant)
    requires s.mode.Running? && s.worker == Back(e) && At(s.disk, e.clipId).inflightMp4.Some?
    ensures var evs := [WorkerStep(now), WorkerStep(now), WorkerStep(now), WorkerStep(now)];
            && Valid(s, evs) && Run(s, evs).worker == Idle
            && At(Run(s, evs).disk, e.clipId) == RequeuedFiles(At(s.disk, e.clipId), e)
  {
    var w := WorkerStep(now);
    RequeueWrites(s, e, now);
    RunOne(Run(s, [w, w, w]), w, []);
    RunConcat(s, [w, w, w], [w]);
    assert [w, w, w] + [w] == [w, w, w, w];
  }
}
