/** The queue's records and the files it keeps for one clip.

    Time is a `real` number of seconds. Sidecar JSON is a parsed value or `Corrupt`; a
    media file is its length in bytes. A disk maps each clip id to the files that the
    four queue directories hold under that id, so "no files" and "unknown id" coincide. */
module Queue {

  datatype Option<+T> = None | Some(value: T)

  datatype Result<+T> = Ok(value: T) | Err(error: QueueError)

  datatype QueueError = Io | Deserialise | MissingMedia(clipId: ClipId)

  type ClipId = string
  type Instant = real

  const U32_MAX: nat := 0xFFFF_FFFF
  const U64_MAX: nat := 0xFFFF_FFFF_FFFF_FFFF

  type u32 = n: nat | n <= U32_MAX

  function SatAdd32(a: nat, b: nat): (r: nat) { if a + b <= U32_MAX then a + b else U32_MAX }
  function SatAdd64(a: nat, b: nat): (r: nat) { if a + b <= U64_MAX then a + b else U64_MAX }
  function SatSub(a: nat, b: nat): (r: nat) { if a >= b then a - b else 0 }

  datatype Outcome = Delivered | Undeliverable

  datatype ClassifyStatus = Prepared | Queued | Processing | Success | Failed | Unknown
  {
    predicate IsTerminal() { Success? || Failed? }
  }

  datatype LastError = LastError(kind: string, status: Option<nat>)

  /** The sidecar record. */
  datatype Entry = Entry(
    clipId: ClipId,
    capturedAt: Instant,
    enqueuedAt: Instant,
    byteSize: nat,
    attempts: u32,
    firstAttemptAt: Option<Instant>,
    lastAttemptAt: Option<Instant>,
    lastError: Option<LastError>,
    nextAttemptAfter: Option<Instant>,
    outcome: Option<Outcome>,
    classifyTaskId: Option<nat>,
    deliveredAt: Option<Instant>,
    lastClassifyStatus: Option<ClassifyStatus>,
    classifyLostAt: Option<Instant>)
  {
    predicate IsTerminal() { outcome.Some? }

    predicate InBackoff(now: Instant) { nextAttemptAfter.Some? && nextAttemptAfter.value > now }
  }

  /** The groups of fields that the transitions keep or change together. */
  predicate SameClip(e: Entry, e': Entry) {
    e'.clipId == e.clipId && e'.capturedAt == e.capturedAt && e'.enqueuedAt == e.enqueuedAt && e'.byteSize == e.byteSize
  }

  predicate SameAttempts(e: Entry, e': Entry) {
    e'.attempts == e.attempts && e'.firstAttemptAt == e.firstAttemptAt && e'.lastAttemptAt == e.lastAttemptAt
  }

  predicate SameResult(e: Entry, e': Entry) {
    && e'.outcome == e.outcome && e'.classifyTaskId == e.classifyTaskId && e'.deliveredAt == e.deliveredAt
    && e'.lastClassifyStatus == e.lastClassifyStatus && e'.classifyLostAt == e.classifyLostAt
  }

  function NewEntry(id: ClipId, capturedAt: Instant, enqueuedAt: Instant, byteSize: nat): Entry {
    Entry(id, capturedAt, enqueuedAt, byteSize, 0, None, None, None, None, None, None, None, None, None)
  }

  /** The record written to inflight/ at the start of an attempt. */
  function Bumped(e: Entry, now: Instant): Entry {
    e.(attempts := SatAdd32(e.attempts, 1),
       firstAttemptAt := if e.firstAttemptAt.None? then Some(now) else e.firstAttemptAt,
       lastAttemptAt := Some(now),
       nextAttemptAfter := None,
       lastError := None)
  }

  /** The record boot reconciliation writes back to pending/. */
  function Recovered(e: Entry): Entry {
    e.(nextAttemptAfter := None, lastError := None)
  }

  datatype Sidecar = Good(entry: Entry) | Corrupt

  datatype Files = Files(
    pendingJson: Option<Sidecar>, pendingMp4: Option<nat>,
    inflightJson: Option<Sidecar>, inflightMp4: Option<nat>,
    deliveredJson: Option<Sidecar>,
    corruptJson: Option<Sidecar>, corruptMp4: Option<nat>)

  const NO_FILES := Files(None, None, None, None, None, None, None)

  type Disk = map<ClipId, Files>

  function At(d: Disk, id: ClipId): Files { if id in d then d[id] else NO_FILES }

  function Put(d: Disk, id: ClipId, f: Files): Disk { d[id := f] }

  predicate IsGood(s: Option<Sidecar>) { s.Some? && s.value.Good? }

  /** A parsed inflight/ sidecar with an outcome: the clip's fate is decided. */
  predicate HasTerminalRecord(f: Files) { IsGood(f.inflightJson) && f.inflightJson.value.entry.IsTerminal() }

  /** The effect of each whole transition on the files of the clip it names, when it runs
      alone and every call succeeds. */
  function InflightFiles(f: Files, e: Entry, now: Instant): Files {
    f.(inflightMp4 := f.pendingMp4, pendingMp4 := None, inflightJson := Some(Good(Bumped(e, now))), pendingJson := None)
  }

  function RequeuedFiles(f: Files, e: Entry): Files {
    f.(pendingMp4 := if f.inflightMp4.Some? then f.inflightMp4 else f.pendingMp4,
       inflightMp4 := None, pendingJson := Some(Good(e)), inflightJson := None)
  }

  function DeliveredFiles(f: Files, e: Entry): Files {
    f.(inflightMp4 := None, inflightJson := None, deliveredJson := Some(Good(e)))
  }

  function SweptPending(f: Files): Files {
    if f.pendingJson.None? then f.(pendingMp4 := None) else f
  }

  function SweptInflight(f: Files): Files {
    if f.inflightJson.None? then f.(inflightMp4 := None) else f
  }

  /** Boot reconciliation of one clip whose inflight/ sidecar, if any, parses. */
  function ReconciledFiles(f: Files): Files {
    var g := SweptInflight(SweptPending(f));
    if !IsGood(g.inflightJson) then g
    else
      var e := g.inflightJson.value.entry;
      if e.IsTerminal() then DeliveredFiles(g, e) else RequeuedFiles(g, Recovered(e))
  }

  function QuarantinedFiles(f: Files): Files {
    f.(corruptJson := f.pendingJson, pendingJson := None,
       corruptMp4 := if f.pendingMp4.Some? then f.pendingMp4 else f.corruptMp4, pendingMp4 := None)
  }

  function OrphanRemovedFiles(f: Files): Files { f.(pendingJson := None, pendingMp4 := None) }

  // ---- Transitions in which calls fail ----

  /** The filesystem calls of the store's methods that can fail. A removal of a file that is not there does not. */
  datatype Call =
    | PlaceMedia | WriteNew | RemovePlaced
    | ReadPending
    | MoveIn | WriteInflight | MoveBack | RemovePending
    | ReturnMedia | WritePending | RemoveInflight
    | WriteRecord | UnlinkMedia | PublishRecord
    | DropSidecar | DropMedia
    | SetAsideSidecar | SetAsideMedia
    | SweepMedia | ReadInflight
    | EvictMedia | EvictSidecar
    | ReadDelivered | WriteDelivered | RemoveRecord

  /** Which calls fail, clip by clip. */
  type Faults = (ClipId, Call) -> bool

  function NoFaults(id: ClipId, c: Call): bool { false }

  predicate InflightOk(id: ClipId, fails: Faults) {
    !fails(id, MoveIn) && !fails(id, WriteInflight) && !fails(id, RemovePending)
  }

  /** A failed write of the inflight sidecar is rolled back, if the rename back does not fail as well. */
  function InflightFilesIf(f: Files, e: Entry, now: Instant, fails: Faults): Files {
    var id := e.clipId;
    if fails(id, MoveIn) then f
    else if fails(id, WriteInflight) then
      if fails(id, MoveBack) then f.(inflightMp4 := f.pendingMp4, pendingMp4 := None) else f.(inflightMp4 := None)
    else if fails(id, RemovePending) then InflightFiles(f, e, now).(pendingJson := f.pendingJson)
    else InflightFiles(f, e, now)
  }

  predicate RequeueOk(f: Files, id: ClipId, fails: Faults) {
    !(f.inflightMp4.Some? && fails(id, ReturnMedia)) && !fails(id, WritePending)
    && !(f.inflightJson.Some? && fails(id, RemoveInflight))
  }

  function RequeuedFilesIf(f: Files, e: Entry, fails: Faults): Files {
    var id, g := e.clipId, RequeuedFiles(f, e);
    if f.inflightMp4.Some? && fails(id, ReturnMedia) then f
    else if fails(id, WritePending) then f.(pendingMp4 := g.pendingMp4, inflightMp4 := None)
    else if f.inflightJson.Some? && fails(id, RemoveInflight) then g.(inflightJson := f.inflightJson)
    else g
  }

  predicate DeliverOk(f: Files, id: ClipId, fails: Faults) {
    !fails(id, WriteRecord) && !(f.inflightMp4.Some? && fails(id, UnlinkMedia)) && !fails(id, PublishRecord)
  }

  function DeliveredFilesIf(f: Files, e: Entry, fails: Faults): Files {
    var id := e.clipId;
    if fails(id, WriteRecord) then f
    else if f.inflightMp4.Some? && fails(id, UnlinkMedia) then f.(inflightJson := Some(Good(e)))
    else if fails(id, PublishRecord) then f.(inflightJson := Some(Good(e)), inflightMp4 := None)
    else DeliveredFiles(f, e)
  }

  predicate RemoveOrphanOk(f: Files, id: ClipId, fails: Faults) {
    !(f.pendingJson.Some? && fails(id, DropSidecar)) && !(f.pendingMp4.Some? && fails(id, DropMedia))
  }

  function OrphanRemovedFilesIf(f: Files, id: ClipId, fails: Faults): Files {
    if f.pendingJson.Some? && fails(id, DropSidecar) then f
    else if f.pendingMp4.Some? && fails(id, DropMedia) then f.(pendingJson := None)
    else OrphanRemovedFiles(f)
  }

  /** A failed rename of the media is ignored. */
  function QuarantinedFilesIf(f: Files, id: ClipId, fails: Faults): Files {
    if fails(id, SetAsideSidecar) then f
    else if fails(id, SetAsideMedia) then f.(corruptJson := f.pendingJson, pendingJson := None)
    else QuarantinedFiles(f)
  }

  predicate SweepPendingOk(f: Files, id: ClipId, fails: Faults) {
    f.pendingMp4.Some? && f.pendingJson.None? ==> !fails(id, SweepMedia)
  }

  predicate SweepInflightOk(f: Files, id: ClipId, fails: Faults) {
    f.inflightMp4.Some? && f.inflightJson.None? ==> !fails(id, SweepMedia)
  }

  /** Boot recovers the clip of a parsed, readable inflight sidecar, if no call of the transition fails. */
  predicate RecoverOk(f: Files, id: ClipId, fails: Faults) {
    f.inflightJson.Some? ==>
      && !fails(id, ReadInflight) && f.inflightJson.value.Good?
      && if f.inflightJson.value.entry.IsTerminal() then DeliverOk(f, id, fails) else RequeueOk(f, id, fails)
  }

  function RecoveredFilesIf(f: Files, id: ClipId, fails: Faults): Files {
    if fails(id, ReadInflight) || !IsGood(f.inflightJson) then f
    else
      var e := f.inflightJson.value.entry;
      if e.IsTerminal() then DeliveredFilesIf(f, e, fails) else RequeuedFilesIf(f, Recovered(e), fails)
  }
}
