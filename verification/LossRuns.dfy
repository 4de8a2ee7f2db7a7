/** Every window in which a crash costs media is reached by some run from a station's first boot. */
module LossRuns {
  import opened Queue
  import opened Retry
  import opened Delivery
  import opened Protocol
  import opened Steps
  import opened Runs
  import opened BootRuns

  /** Whatever the station holds, a crash here costs the media. */
  lemma CrashHere(s: Sys, evs: seq<Event>, t: Sys, id: ClipId) returns (boot: seq<Event>)
    requires Start(s) && Leads(s, evs, t) && t.mode.Running?
    requires LossPoint(ViewOf(t, id)) && MediaOf(At(t.disk, id)).Some? && !HasTerminalRecord(At(t.disk, id))
    ensures Costs(s, evs, boot, id)
  {
    StartInv(s);
    RunKeepsInv(s, evs);
    StepKeepsInv(t, Crash);
    boot := BootCanComplete(Apply(t, Crash));
    RunOne(t, Crash, [Boot] + boot);
    assert [Crash] + ([Boot] + boot) == [Crash, Boot] + boot;
    CrashLossExact(t, boot, id);
    RunConcat(s, evs, [Crash, Boot] + boot);
  }

  /** The run, followed by a crash and a completed boot, ends with the clip's media destroyed. */
  ghost predicate Costs(s: Sys, evs: seq<Event>, boot: seq<Event>, id: ClipId) {
    && Valid(s, evs) && MediaOf(At(Run(s, evs).disk, id)).Some?
    && Valid(s, evs + ([Crash, Boot] + boot)) && (forall ev :: ev in boot ==> BootEvent(ev))
    && var t := Run(s, evs + ([Crash, Boot] + boot)); t.mode.Running? && NoMedia(At(t.disk, id))
  }

  // ---- The way to each window ----

  /** Before the first boot, with nothing to sweep or recover. */
  ghost predicate Tidy(s: Sys) {
    Start(s) && forall id :: At(s.disk, id).inflightJson.None? && At(s.disk, id).inflightMp4.None? && !SweepablePending(At(s.disk, id))
  }

  lemma FirstBoot(s: Sys) returns (evs: seq<Event>, t: Sys)
    requires Tidy(s)
    ensures Leads(s, evs, t) && t == s.(mode := Running, reboots := s.reboots + 1)
  {
    var s1 := Apply(s, Boot);
    RunOne(s, Boot, []);
    assert [Boot] + [] == [Boot];
    var s2 := Apply(s1, NextPhase);
    LeadsOn(s, [Boot], s1, NextPhase);
    var s3 := Apply(s2, NextPhase);
    LeadsOn(s, [Boot] + [NextPhase], s2, NextPhase);
    evs, t := [Boot] + [NextPhase] + [NextPhase] + [NextPhase], Apply(s3, NextPhase);
    LeadsOn(s, [Boot] + [NextPhase] + [NextPhase], s3, NextPhase);
  }

  function Empty(sch: Schedule, disk: Disk): Sys {
    Sys(disk, Down, Idle, Quiet, sch, map[], map[], map id | id in disk :: 0, 0)
  }

  /** Running, both tasks at rest but for the given program counters, and the clip's files as given. */
  ghost predicate Stands(t: Sys, sch: Schedule, id: ClipId, w: Worker, c: Capturer, f: Files) {
    t.mode.Running? && t.schedule == sch && t.worker == w && t.capturer == c && At(t.disk, id) == f && t.faults == map[]
  }

  lemma ToPlaced(sch: Schedule, e: Entry, m: nat) returns (evs: seq<Event>, t: Sys)
    requires 1 <= sch.maxAttempts && e == NewEntry(e.clipId, 0.0, 0.0, m)
    ensures Tidy(Empty(sch, map[])) && Leads(Empty(sch, map[]), evs, t)
    ensures Stands(t, sch, e.clipId, Idle, Placed(e), NO_FILES.(pendingMp4 := Some(m)))
  {
    var s := Empty(sch, map[]);
    var boot, s1 := FirstBoot(s);
    LeadsOn(s, boot, s1, Place(e, m));
    evs, t := boot + [Place(e, m)], Apply(s1, Place(e, m));
  }

  lemma ToMoved(sch: Schedule, e: Entry, m: nat) returns (evs: seq<Event>, t: Sys)
    requires 1 <= sch.maxAttempts && e == NewEntry(e.clipId, 0.0, 0.0, m)
    ensures Leads(Empty(sch, map[]), evs, t)
    ensures Stands(t, sch, e.clipId, Moved(Bumped(e, 0.0)), Quiet, NO_FILES.(pendingJson := Some(Good(e)), inflightMp4 := Some(m)))
  {
    var s := Empty(sch, map[]);
    var a, s1 := ToPlaced(sch, e, m);
    LeadsOn(s, a, s1, CaptureStep);
    var s2 := Apply(s1, CaptureStep);
    LeadsOn(s, a + [CaptureStep], s2, Pick(e.clipId, 0.0));
    var s3 := Apply(s2, Pick(e.clipId, 0.0));
    LeadsOn(s, a + [CaptureStep] + [Pick(e.clipId, 0.0)], s3, WorkerStep(0.0));
    evs, t := a + [CaptureStep] + [Pick(e.clipId, 0.0)] + [WorkerStep(0.0)], Apply(s3, WorkerStep(0.0));
  }

  lemma ToUploading(sch: Schedule, e: Entry, m: nat) returns (evs: seq<Event>, t: Sys)
    requires 1 <= sch.maxAttempts && e == NewEntry(e.clipId, 0.0, 0.0, m) && 0 < m <= MAX_UPLOAD_BYTES
    ensures Leads(Empty(sch, map[]), evs, t)
    ensures Stands(t, sch, e.clipId, Uploading(Bumped(e, 0.0)), Quiet,
                   NO_FILES.(inflightJson := Some(Good(Bumped(e, 0.0))), inflightMp4 := Some(m)))
  {
    var s, w := Empty(sch, map[]), WorkerStep(0.0);
    var a, s1 := ToMoved(sch, e, m);
    LeadsOn(s, a, s1, w);
    var s2 := Apply(s1, w);
    LeadsOn(s, a + [w], s2, w);
    var s3 := Apply(s2, w);
    LeadsOn(s, a + [w] + [w], s3, w);
    evs, t := a + [w] + [w] + [w], Apply(s3, w);
  }

  /** A transient failure of the first attempt is re-queued. */
  lemma FirstRetry(sch: Schedule, e: Entry)
    requires sch.Validated() && sch.maxAttempts >= 2 && e.attempts == 1 && e.firstAttemptAt == Some(0.0)
    ensures AfterUpload(sch, e, Refused(Network), 0.0).Requeue?
  {
    NoOverflowWithoutRetryAfter(sch, 0.0, 1, Some(0.0));
  }

  lemma ToBack(sch: Schedule, e: Entry, m: nat) returns (evs: seq<Event>, t: Sys, q: Entry)
    requires sch.Validated() && sch.maxAttempts >= 2 && e == NewEntry(e.clipId, 0.0, 0.0, m) && 0 < m <= MAX_UPLOAD_BYTES
    ensures Leads(Empty(sch, map[]), evs, t) && q.clipId == e.clipId
    ensures Stands(t, sch, e.clipId, Back(q), Quiet,
                   NO_FILES.(inflightJson := Some(Good(Bumped(e, 0.0))), inflightMp4 := Some(m)))
  {
    var answer := Answered(Refused(Network), 0.0);
    var a, s1 := ToUploading(sch, e, m);
    FirstRetry(sch, Bumped(e, 0.0));
    AfterUploadDecides(sch, Bumped(e, 0.0), Refused(Network), 0.0);
    q := AfterUpload(sch, Bumped(e, 0.0), Refused(Network), 0.0).entry;
    LeadsOn(Empty(sch, map[]), a, s1, answer);
    evs, t := a + [answer], Apply(s1, answer);
  }

  lemma ToBackWrite(sch: Schedule, e: Entry, m: nat) returns (evs: seq<Event>, t: Sys, q: Entry)
    requires sch.Validated() && sch.maxAttempts >= 2 && e == NewEntry(e.clipId, 0.0, 0.0, m) && 0 < m <= MAX_UPLOAD_BYTES
    ensures Leads(Empty(sch, map[]), evs, t) && q.clipId == e.clipId
    ensures Stands(t, sch, e.clipId, BackWrite(q), Quiet,
                   NO_FILES.(inflightJson := Some(Good(Bumped(e, 0.0))), pendingMp4 := Some(m)))
  {
    var s, w := Empty(sch, map[]), WorkerStep(0.0);
    var a, s1;
    a, s1, q := ToBack(sch, e, m);
    LeadsOn(s, a, s1, w);
    var s2 := Apply(s1, w);
    LeadsOn(s, a + [w], s2, w);
    evs, t := a + [w] + [w], Apply(s2, w);
  }

  lemma ToFailedRequeue(sch: Schedule, e: Entry, m: nat) returns (evs: seq<Event>, t: Sys)
    requires sch.Validated() && sch.maxAttempts >= 2 && e == NewEntry(e.clipId, 0.0, 0.0, m) && 0 < m <= MAX_UPLOAD_BYTES
    ensures Leads(Empty(sch, map[]), evs, t) && Reached(t, e.clipId, RequeueFailed, m)
  {
    var a, s1, q := ToBackWrite(sch, e, m);
    LeadsOn(Empty(sch, map[]), a, s1, WorkerFail);
    evs, t := a + [WorkerFail], Apply(s1, WorkerFail);
  }

  // ---- The windows ----

  datatype Window = Enqueueing | EnteringInflight | Requeueing | Quarantining | RequeueFailed

  ghost predicate InWindow(t: Sys, id: ClipId, w: Window) {
    var f := At(t.disk, id);
    match w
    case Enqueueing => t.capturer.Placed? && t.capturer.e.clipId == id
    case EnteringInflight => t.worker.Moved? && t.worker.e.clipId == id && f.inflightJson.None?
    case Requeueing => t.worker.BackWrite? && t.worker.e.clipId == id && f.pendingJson.None?
    case Quarantining => t.worker == QuarantineMp4(id)
    case RequeueFailed => t.worker.Idle? && t.capturer.Quiet? && id in t.faults && t.faults[id].RequeueWriteFailed?
  }

  /** Running, in the window, with the media on disk and no outcome recorded. */
  ghost predicate Reached(t: Sys, id: ClipId, w: Window, m: nat) {
    && t.mode.Running? && InWindow(t, id, w) && LossPoint(ViewOf(t, id))
    && MediaOf(At(t.disk, id)) == Some(m) && !HasTerminalRecord(At(t.disk, id))
  }

  /** Each window, for every clip id and media length: some run from before the first boot stands in it, and a crash
      there followed by a completed boot destroys the media. In the last one nothing but the boot is needed: the clip was
      already out of sight of both tasks. */
  lemma EveryWindowCostsMedia(w: Window, sch: Schedule, id: ClipId, m: nat)
    returns (s: Sys, evs: seq<Event>, boot: seq<Event>)
    requires sch.Validated() && sch.maxAttempts >= 2 && 0 < m <= MAX_UPLOAD_BYTES
    ensures Start(s) && s.schedule == sch && Costs(s, evs, boot, id)
    ensures InWindow(Run(s, evs), id, w) && MediaOf(At(Run(s, evs).disk, id)) == Some(m)
  {
    var e := NewEntry(id, 0.0, 0.0, m);
    var t: Sys;
    s := Empty(sch, map[]);
    evs, t := ToPlaced(sch, e, m);
    match w {
      case Enqueueing =>
        assert Reached(t, id, w, m);
      case EnteringInflight =>
        evs, t := ToMoved(sch, e, m);
        assert Reached(t, id, w, m);
      case Requeueing =>
        var q;
        evs, t, q := ToBackWrite(sch, e, m);
        assert Reached(t, id, w, m);
      case RequeueFailed =>
        evs, t := ToFailedRequeue(sch, e, m);
      case Quarantining =>
        s, evs, t := ToQuarantine(sch, id, m);
    }
    boot := CrashHere(s, evs, t, id);
  }

  lemma ToQuarantine(sch: Schedule, id: ClipId, m: nat) returns (s: Sys, evs: seq<Event>, t: Sys)
    requires 1 <= sch.maxAttempts
    ensures Start(s) && s.schedule == sch && Leads(s, evs, t)
    ensures Reached(t, id, Quarantining, m)
  {
    s := Empty(sch, map[id := NO_FILES.(pendingJson := Some(Corrupt), pendingMp4 := Some(m))]);
    var boot, s1 := FirstBoot(s);
    LeadsOn(s, boot, s1, Quarantine(id));
    evs, t := boot + [Quarantine(id)], Apply(s1, Quarantine(id));
  }
}
