/** The crash-safe queue as a machine of single filesystem calls.

    Each `Event` is one atomic call (or one decision between calls) of the delivery task, of the capture task, of
    the classify poller or of boot reconciliation. Tasks hold no lock, so any event that is enabled may come next;
    `Crash` may come at any time and forgets every program counter. Every call that can fail has a failing event
    beside its succeeding one, and a record of the failures that leave media without its sidecar is kept in
    `faults`, which only the theorems read. An answer that makes the delivery task panic has no event of its own: a
    release build aborts, which is `Crash`, and otherwise the task ends, which is a worker that takes no further step. */
module Protocol {
  import opened Queue
  import opened Retry
  import opened Delivery

  datatype Mode = Down | SweepPending | SweepInflight | Recover | Running
  {
    predicate Booting() { SweepPending? || SweepInflight? || Recover? }
  }

  /** What the delivery task, or boot reconciliation in its place, does next. */
  datatype Worker =
    | Idle
    | Picked(e: Entry, now: Instant)   // rename pending mp4 into inflight/
    | Moved(e: Entry)                  // write the inflight sidecar
    | RollingBack(id: ClipId)          // rename the mp4 back after a failed write
    | Written(e: Entry)                // remove the pending sidecar
    | OrphanJson(id: ClipId)           // MissingMedia returned: remove the pending sidecar
    | OrphanMp4(id: ClipId)            //   ... and any stray pending media
    | Ready(e: Entry)                  // transition_inflight returned Ok: pre-flight, then upload
    | Uploading(e: Entry)              // await the answer
    | Record(e: Entry)                 // write the terminal record into inflight/
    | Unlink(e: Entry)                 // unlink the inflight mp4
    | Publish(e: Entry)                // rename the record into delivered/
    | Back(e: Entry)                   // test whether the inflight mp4 exists
    | BackMove(e: Entry)               // rename it into pending/
    | BackWrite(e: Entry)              // write the pending sidecar
    | BackClear(e: Entry)              // remove the inflight sidecar
    | QuarantineMp4(id: ClipId)        // corrupt sidecar moved away: move its media

  /** What the capture task does next. */
  datatype Capturer =
    | Quiet
    | Placed(e: Entry)                 // media is in pending/: write the sidecar
    | Cleanup(id: ClipId)              // sidecar write failed: remove the media
    | EvictMp4(id: ClipId)             // evict a pending clip: remove the media
    | EvictJson(id: ClipId)            //   ... then the sidecar
    | EvictRecord(id: ClipId)          // evict an Undeliverable record

  /** A failed or overtaken call that can leave media and sidecar apart. */
  datatype Fault =
    | RollbackFailed | PendingRemovalFailed | RequeueWriteFailed
    | CleanupFailed | QuarantineFailed | Unpaired

  datatype Sys = Sys(
    disk: Disk, mode: Mode, worker: Worker, capturer: Capturer, schedule: Schedule,
    faults: map<ClipId, Fault>, uploads: map<ClipId, nat>, born: map<ClipId, nat>, reboots: nat)

  datatype Event =
    | Place(entry: Entry, media: nat) | CaptureStep | CaptureFail
    | Evict(clip: ClipId) | EvictUndeliverable(clip: ClipId)
    | Pick(clip: ClipId, now: Instant) | Quarantine(clip: ClipId)
    | WorkerStep(now: Instant) | WorkerFail | Answered(answer: Answer, now: Instant)
    | PollWrite(clip: ClipId, entry: Entry) | Prune(clip: ClipId)
    | Crash | Boot | SweepOne(clip: ClipId) | NextPhase | RecoverOne(clip: ClipId)

  function WorkerClip(w: Worker): Option<ClipId> {
    match w
    case Idle => None
    case RollingBack(id) => Some(id)
    case OrphanJson(id) => Some(id)
    case OrphanMp4(id) => Some(id)
    case QuarantineMp4(id) => Some(id)
    case _ => Some(w.e.clipId)
  }

  function CapturerClip(c: Capturer): Option<ClipId> {
    match c
    case Quiet => None
    case Placed(e) => Some(e.clipId)
    case _ => Some(c.id)
  }

  function Uploads(s: Sys, id: ClipId): nat { if id in s.uploads then s.uploads[id] else 0 }

  predicate SweepablePending(f: Files) { f.pendingMp4.Some? && f.pendingJson.None? }
  predicate SweepableInflight(f: Files) { f.inflightMp4.Some? && f.inflightJson.None? }

  // ---- One call of the worker ----

  function WorkerFiles(w: Worker, f: Files): Files {
    match w
    case Picked(_, _) => if f.pendingMp4.Some? then f.(inflightMp4 := f.pendingMp4, pendingMp4 := None) else f
    case Moved(e) => f.(inflightJson := Some(Good(e)))
    case RollingBack(_) => if f.inflightMp4.Some? then f.(pendingMp4 := f.inflightMp4, inflightMp4 := None) else f
    case Written(_) => f.(pendingJson := None)
    case OrphanJson(_) => f.(pendingJson := None)
    case OrphanMp4(_) => f.(pendingMp4 := None)
    case Record(e) => f.(inflightJson := Some(Good(e)))
    case Unlink(_) => f.(inflightMp4 := None)
    case Publish(_) => if f.inflightJson.Some? then f.(deliveredJson := f.inflightJson, inflightJson := None) else f
    case BackMove(_) => if f.inflightMp4.Some? then f.(pendingMp4 := f.inflightMp4, inflightMp4 := None) else f
    case BackWrite(e) => f.(pendingJson := Some(Good(e)))
    case BackClear(_) => f.(inflightJson := None)
    case QuarantineMp4(_) => if f.pendingMp4.Some? then f.(corruptMp4 := f.pendingMp4, pendingMp4 := None) else f
    case _ => f
  }

  function WorkerNext(w: Worker, f: Files, now: Instant): Worker {
    match w
    case Picked(e, at) => if f.pendingMp4.Some? then Moved(Bumped(e, at)) else OrphanJson(e.clipId)
    case Moved(e) => Written(e)
    case Written(e) => Ready(e)
    case OrphanJson(id) => OrphanMp4(id)
    case Ready(e) =>
      var refusal := Preflight(f.inflightMp4);
      if refusal.Some? then Record(MarkUndeliverable(e, LastError(refusal.value, None), now)) else Uploading(e)
    case Record(e) => Unlink(e)
    case Unlink(e) => Publish(e)
    case Back(e) => if f.inflightMp4.Some? then BackMove(e) else BackWrite(e)
    case BackMove(e) => BackWrite(e)
    case BackWrite(e) => BackClear(e)
    case _ => Idle
  }

  /** The worker's program counter after its pending call failed. */
  function WorkerFailed(w: Worker): Worker {
    if w.Moved? then RollingBack(w.e.clipId) else Idle
  }

  function FaultOf(w: Worker): Option<Fault> {
    match w
    case RollingBack(_) => Some(RollbackFailed)
    case Written(_) => Some(PendingRemovalFailed)
    case BackWrite(_) => Some(RequeueWriteFailed)
    case QuarantineMp4(_) => Some(QuarantineFailed)
    case _ => None
  }

  // ---- One call of the capture task ----

  function CapturerFiles(c: Capturer, f: Files): Files {
    match c
    case Placed(e) => f.(pendingJson := Some(Good(e)))
    case Cleanup(_) => f.(pendingMp4 := None)
    case EvictMp4(_) => f.(pendingMp4 := None)
    case EvictJson(_) => f.(pendingJson := None)
    case EvictRecord(_) => f.(deliveredJson := None)
    case Quiet => f
  }

  function CapturerNext(c: Capturer): Capturer { if c.EvictMp4? then EvictJson(c.id) else Quiet }

  function CapturerFailed(c: Capturer): Capturer { if c.Placed? then Cleanup(c.e.clipId) else Quiet }

  function WithFault(faults: map<ClipId, Fault>, id: ClipId, fault: Option<Fault>): map<ClipId, Fault> {
    if fault.Some? then faults[id := fault.value] else faults
  }

  // ---- Events ----

  predicate IsRecord(f: Files, o: Outcome) { IsGood(f.deliveredJson) && f.deliveredJson.value.entry.outcome == Some(o) }

  ghost predicate Enabled(s: Sys, ev: Event) {
    match ev
    case Place(e, _) =>
      && s.mode.Running? && s.capturer.Quiet? && e.clipId !in s.born
      && e == NewEntry(e.clipId, e.capturedAt, e.enqueuedAt, e.byteSize)
    case CaptureStep => s.mode.Running? && !s.capturer.Quiet?
    case CaptureFail => s.mode.Running? && !s.capturer.Quiet?
    case Evict(id) => s.mode.Running? && s.capturer.Quiet? && id in s.born
    case EvictUndeliverable(id) => s.mode.Running? && s.capturer.Quiet? && IsRecord(At(s.disk, id), Undeliverable)
    case Pick(id, now) =>
      var p := At(s.disk, id).pendingJson;
      s.mode.Running? && s.worker.Idle? && IsGood(p) && !p.value.entry.InBackoff(now)
    case Quarantine(id) => s.mode.Running? && s.worker.Idle? && At(s.disk, id).pendingJson == Some(Corrupt)
    case WorkerStep(_) => (s.mode.Running? || s.mode.Recover?) && !s.worker.Idle? && !s.worker.Uploading?
    case WorkerFail => s.mode.Running? && !s.worker.Idle? && !s.worker.Ready? && !s.worker.Uploading? && !s.worker.Back?
    case Answered(answer, now) =>
      s.mode.Running? && s.worker.Uploading? && !AfterUpload(s.schedule, s.worker.e, answer, now).Panics?
    case PollWrite(id, e) =>
      && s.mode.Running? && IsRecord(At(s.disk, id), Delivered) && e.clipId == id
      && var r := At(s.disk, id).deliveredJson.value.entry;
         e == r.(lastClassifyStatus := e.lastClassifyStatus, classifyLostAt := e.classifyLostAt)
    case Prune(id) => s.mode.Running? && IsRecord(At(s.disk, id), Delivered)
    case Crash => !s.mode.Down?
    case Boot => s.mode.Down?
    case SweepOne(id) =>
      || (s.mode.SweepPending? && SweepablePending(At(s.disk, id)))
      || (s.mode.SweepInflight? && SweepableInflight(At(s.disk, id)))
    case NextPhase =>
      || (s.mode.SweepPending? && forall id :: !SweepablePending(At(s.disk, id)))
      || (s.mode.SweepInflight? && forall id :: !SweepableInflight(At(s.disk, id)))
      || (s.mode.Recover? && s.worker.Idle? && forall id :: At(s.disk, id).inflightJson.None?)
    case RecoverOne(id) => s.mode.Recover? && s.worker.Idle? && IsGood(At(s.disk, id).inflightJson)
  }

  ghost function Apply(s: Sys, ev: Event): Sys
    requires Enabled(s, ev)
  {
    match ev
    case Place(e, media) =>
      s.(disk := Put(s.disk, e.clipId, At(s.disk, e.clipId).(pendingMp4 := Some(media))),
         capturer := Placed(e), born := s.born[e.clipId := s.reboots])
    case CaptureStep =>
      var id := CapturerClip(s.capturer).value;
      var f := At(s.disk, id);
      s.(disk := Put(s.disk, id, CapturerFiles(s.capturer, f)), capturer := CapturerNext(s.capturer),
         faults := if s.capturer.EvictJson? && f.pendingMp4.Some? then s.faults[id := Unpaired] else s.faults)
    case CaptureFail =>
      s.(capturer := CapturerFailed(s.capturer),
         faults := if s.capturer.Cleanup? then s.faults[s.capturer.id := CleanupFailed] else s.faults)
    case Evict(id) => s.(capturer := EvictMp4(id))
    case EvictUndeliverable(id) => s.(capturer := EvictRecord(id))
    case Pick(id, now) => s.(worker := Picked(At(s.disk, id).pendingJson.value.entry, now))
    case Quarantine(id) =>
      var f := At(s.disk, id);
      s.(disk := Put(s.disk, id, f.(corruptJson := f.pendingJson, pendingJson := None)), worker := QuarantineMp4(id))
    case WorkerStep(now) =>
      var id := WorkerClip(s.worker).value;
      var f := At(s.disk, id);
      var next := WorkerNext(s.worker, f, now);
      s.(disk := Put(s.disk, id, WorkerFiles(s.worker, f)), worker := next,
         uploads := if next.Uploading? then s.uploads[id := Uploads(s, id) + 1] else s.uploads,
         faults := if s.worker.RollingBack? && f.pendingJson.None? then s.faults[id := Unpaired] else s.faults)
    case WorkerFail =>
      s.(worker := WorkerFailed(s.worker),
         faults := WithFault(s.faults, WorkerClip(s.worker).value, FaultOf(s.worker)))
    case Answered(answer, now) =>
      var d := AfterUpload(s.schedule, s.worker.e, answer, now);
      s.(worker := if d.Finish? then Record(d.entry) else Back(d.entry))
    case PollWrite(id, e) => s.(disk := Put(s.disk, id, At(s.disk, id).(deliveredJson := Some(Good(e)))))
    case Prune(id) => s.(disk := Put(s.disk, id, At(s.disk, id).(deliveredJson := None)))
    case Crash => s.(mode := Down, worker := Idle, capturer := Quiet)
    case Boot => s.(mode := SweepPending, faults := map[], reboots := s.reboots + 1)
    case SweepOne(id) =>
      var f := At(s.disk, id);
      s.(disk := Put(s.disk, id, if s.mode.SweepPending? then SweptPending(f) else SweptInflight(f)))
    case NextPhase =>
      s.(mode := if s.mode.SweepPending? then SweepInflight else if s.mode.SweepInflight? then Recover else Running)
    case RecoverOne(id) =>
      var e := At(s.disk, id).inflightJson.value.entry;
      s.(worker := if e.IsTerminal() then Record(e) else Back(Recovered(e)))
  }

  // ---- The view of one clip, and what holds of it ----

  datatype View = View(
    id: ClipId, f: Files, mode: Mode, w: Worker, c: Capturer, fault: Option<Fault>,
    known: bool, uploads: nat, boots: nat, limit: u32)

  ghost function ViewOf(s: Sys, id: ClipId): View {
    View(id, At(s.disk, id), s.mode,
         if WorkerClip(s.worker) == Some(id) then s.worker else Idle,
         if CapturerClip(s.capturer) == Some(id) then s.capturer else Quiet,
         if id in s.faults then Some(s.faults[id]) else None,
         id in s.born, Uploads(s, id),
         if id in s.born && s.born[id] <= s.reboots then s.reboots - s.born[id] else 0,
         s.schedule.maxAttempts)
  }

  function Spare(limit: nat, e: Entry): nat { if e.attempts < limit then limit - e.attempts else 0 }
  function SpareOrOne(limit: nat, e: Entry): nat { if e.attempts < limit then limit - e.attempts else 1 }

  ghost predicate FilesOk(id: ClipId, f: Files) {
    && !(f.pendingMp4.Some? && f.inflightMp4.Some?)
    && (f.inflightJson.Some? ==> f.inflightJson.value.Good? && f.inflightJson.value.entry.clipId == id)
    && (IsGood(f.pendingJson) ==> f.pendingJson.value.entry.clipId == id && !f.pendingJson.value.entry.IsTerminal())
    && (HasTerminalRecord(f) ==> f.pendingJson.None? && f.pendingMp4.None?)
    && (f.deliveredJson.Some? ==>
          f.pendingJson.None? && f.pendingMp4.None? && f.inflightJson.None? && f.inflightMp4.None?)
  }

  /** Uploads made so far, plus those the records still allow, stay within the limit plus the reboots. */
  ghost predicate CreditOk(v: View) {
    var cap := v.limit + v.boots;
    && v.uploads <= cap
    && (IsGood(v.f.pendingJson) ==> v.uploads + SpareOrOne(v.limit, v.f.pendingJson.value.entry) <= cap)
    && (IsGood(v.f.inflightJson) && !HasTerminalRecord(v.f) ==>
          v.uploads + Spare(v.limit, v.f.inflightJson.value.entry) + (if v.mode.Booting() then 1 else 0) <= cap)
  }

  ghost predicate AttemptOk(v: View, e: Entry) {
    && e.clipId == v.id && !e.IsTerminal() && !HasTerminalRecord(v.f) && v.f.deliveredJson.None?
    && (v.mode.Running? ==> v.f.pendingJson != Some(Corrupt))
  }

  ghost predicate WorkerOk(v: View) {
    var f, w, cap := v.f, v.w, v.limit + v.boots;
    match w
    case Idle => true
    case Picked(e, _) => v.mode.Running? && AttemptOk(v, e) && v.uploads + SpareOrOne(v.limit, e) <= cap
    case Moved(e) =>
      && v.mode.Running? && AttemptOk(v, e) && f.inflightMp4.Some? && f.pendingMp4.None?
      && v.uploads + 1 + Spare(v.limit, e) <= cap
    case RollingBack(_) =>
      && v.mode.Running? && f.inflightMp4.Some? && f.pendingMp4.None? && !HasTerminalRecord(f) && f.deliveredJson.None?
      && f.pendingJson != Some(Corrupt)
    case Written(e) =>
      && v.mode.Running? && AttemptOk(v, e) && f.inflightMp4.Some? && f.pendingMp4.None?
      && f.inflightJson == Some(Good(e)) && v.uploads + 1 + Spare(v.limit, e) <= cap
    case OrphanJson(_) => v.mode.Running? && f.pendingMp4.None? && !HasTerminalRecord(f) && f.deliveredJson.None?
    case OrphanMp4(_) => v.mode.Running? && f.pendingMp4.None? && !HasTerminalRecord(f) && f.deliveredJson.None?
    case Ready(e) =>
      && v.mode.Running? && AttemptOk(v, e) && f.inflightMp4.Some? && f.inflightJson == Some(Good(e))
      && f.pendingMp4.None? && f.pendingJson.None? && v.uploads + 1 + Spare(v.limit, e) <= cap
    case Uploading(e) =>
      && v.mode.Running? && AttemptOk(v, e) && f.inflightMp4.Some? && f.inflightJson == Some(Good(e))
      && f.pendingMp4.None? && f.pendingJson.None? && v.uploads + Spare(v.limit, e) <= cap
    case Record(e) =>
      && e.clipId == v.id && e.IsTerminal() && f.inflightJson.Some? && f.pendingJson.None? && f.pendingMp4.None?
      && (v.mode.Recover? ==> f.inflightJson == Some(Good(e)))
    case Unlink(e) => e.clipId == v.id && e.IsTerminal() && f.inflightJson == Some(Good(e))
    case Publish(e) =>
      e.clipId == v.id && e.IsTerminal() && f.inflightJson == Some(Good(e)) && f.inflightMp4.None?
    case Back(e) =>
      && AttemptOk(v, e) && f.inflightJson.Some? && v.uploads + SpareOrOne(v.limit, e) <= cap
      && (v.mode.Running? ==> f.pendingJson.None? && f.pendingMp4.None?)
    case BackMove(e) =>
      && AttemptOk(v, e) && f.inflightJson.Some? && f.inflightMp4.Some? && v.uploads + SpareOrOne(v.limit, e) <= cap
      && (v.mode.Running? ==> f.pendingJson.None?)
    case BackWrite(e) =>
      && AttemptOk(v, e) && f.inflightJson.Some? && f.inflightMp4.None? && v.uploads + SpareOrOne(v.limit, e) <= cap
      && (v.mode.Running? ==> f.pendingJson.None?)
    case BackClear(e) => AttemptOk(v, e) && f.inflightJson.Some? && f.inflightMp4.None?
    case QuarantineMp4(_) =>
      v.mode.Running? && f.pendingJson.None? && f.inflightMp4.None? && !HasTerminalRecord(f) && f.deliveredJson.None?
  }

  ghost predicate CapturerOk(v: View) {
    match v.c
    case Placed(e) =>
      && v.w.Idle? && v.uploads == 0 && v.f == NO_FILES.(pendingMp4 := v.f.pendingMp4) && v.f.pendingMp4.Some?
      && e.clipId == v.id && e.attempts == 0 && !e.IsTerminal()
    case Cleanup(_) => v.w.Idle? && v.f == NO_FILES.(pendingMp4 := v.f.pendingMp4) && v.f.pendingMp4.Some?
    case EvictRecord(_) =>
      && v.w.Idle? && v.f.pendingJson.None? && v.f.pendingMp4.None? && v.f.inflightJson.None? && v.f.inflightMp4.None?
      && (v.f.deliveredJson.None? || IsRecord(v.f, Undeliverable))
    case _ => true
  }

  /** Media that boot's sweep would destroy: it has no sidecar beside it. */
  predicate MediaUnpaired(f: Files) { SweepablePending(f) || SweepableInflight(f) }

  /** Where the tasks stand, or which call failed earlier, when media has no sidecar beside it. */
  predicate LossPoint(v: View) {
    || v.c.Placed? || v.c.Cleanup?
    || ((v.w.Moved? || v.w.RollingBack?) && v.f.inflightJson.None?)
    || (v.w.BackWrite? && v.f.pendingMp4.Some? && v.f.pendingJson.None?)
    || (v.w.QuarantineMp4? && v.f.pendingMp4.Some?)
    || (v.fault == Some(RollbackFailed) && v.f.inflightJson.None?)
    || (v.fault.Some? && !v.fault.value.RollbackFailed? && !v.fault.value.PendingRemovalFailed?
        && v.f.pendingMp4.Some? && v.f.pendingJson.None?)
  }

  predicate HeldInInflight(v: View) { v.fault == Some(RollbackFailed) || v.fault == Some(PendingRemovalFailed) }

  ghost predicate PairingOk(v: View) {
    && (v.mode.SweepInflight? ==> !SweepablePending(v.f))
    && (v.mode.Recover? || v.mode.Running? ==> (MediaUnpaired(v.f) <==> LossPoint(v)))
    && (v.mode.Running? ==>
          && (HeldInInflight(v) ==> v.f.inflightMp4.Some? && v.f.pendingJson != Some(Corrupt))
          && (v.f.inflightMp4.Some? && ((v.w.Idle? && v.f.pendingJson.Some?) || v.w.Picked? || v.w.OrphanJson? || v.w.OrphanMp4?)
              ==> HeldInInflight(v))
          && (HeldInInflight(v) ==> v.w.Idle? || v.w.Picked? || v.w.OrphanJson? || v.w.OrphanMp4?))
  }

  ghost predicate ViewOk(v: View) {
    && 1 <= v.limit
    && (!v.w.Idle? ==> v.mode.Running? || v.mode.Recover?)
    && (!v.c.Quiet? ==> v.mode.Running?)
    && (v.mode.Booting() ==> v.fault.None?)
    && FilesOk(v.id, v.f) && CreditOk(v) && WorkerOk(v) && CapturerOk(v) && PairingOk(v)
    && (!v.known ==> v.f == NO_FILES && v.w.Idle? && v.c.Quiet? && v.uploads == 0 && v.fault.None?)
  }

  ghost predicate Shape(s: Sys) {
    && 1 <= s.schedule.maxAttempts
    && (!s.mode.Running? ==> s.capturer.Quiet?)
    && (!s.mode.Running? && !s.mode.Recover? ==> s.worker.Idle?)
    && (s.mode.Booting() ==> s.faults == map[])
    && (forall id :: id in s.born ==> s.born[id] <= s.reboots)
  }

  ghost predicate Inv(s: Sys) { Shape(s) && forall id :: ViewOk(ViewOf(s, id)) }

  // ---- Every event keeps the invariant ----

  /** The clip an event may change; None for events that change the mode alone. */
  ghost function Touched(s: Sys, ev: Event): Option<ClipId> {
    match ev
    case Place(e, _) => Some(e.clipId)
    case CaptureStep => CapturerClip(s.capturer)
    case CaptureFail => CapturerClip(s.capturer)
    case WorkerStep(_) => WorkerClip(s.worker)
    case WorkerFail => WorkerClip(s.worker)
    case Answered(_, _) => WorkerClip(s.worker)
    case Crash => None
    case Boot => None
    case NextPhase => None
    case _ => Some(ev.clip)
  }

  /** The invariant as far as one clip is concerned. Used as `ClipOk(...) == true` below, so that the verifier passes
      it around whole instead of proving each conjunct again at every call. */
  ghost predicate ClipOk(s: Sys, id: ClipId) { Shape(s) && ViewOk(ViewOf(s, id)) }
}
