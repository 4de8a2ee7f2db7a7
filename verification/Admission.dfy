/** Submissions among the operations of the other tasks (queue/policy.rs, queue/store.rs).

    The policy check is not one step: it reads the three directories one file at a time, deletes each candidate with
    two unlinks, and the operations of delivery, of the poller and of pruning may come between any two of these. A whole
    operation of another task is one step here, and no call fails. */
module Admission {
  import opened Queue
  import opened Order
  import opened Totals
  import opened Policy
  import opened Bounded

  datatype Directory = InflightDir | DeliveredDir | PendingDir

  /** What the submission in progress does next. `seen` holds the sidecars that the census has read and not yet evicted,
      so its totals are the running counters. */
  datatype Task =
    | Resting
    | Reading(incoming: nat, dir: Directory, todo: set<ClipId>, seen: Disk)
    | Sweeping(incoming: nat, seen: Disk)
    | Unlinking(incoming: nat, seen: Disk, victim: Evictable)   // the media's unlink is done, the sidecar's is not
    | Admitted(incoming: nat)

  /** `current` is the clip that delivery is at work on and `limit` its attempt limit. `slipped` is history that no step
      reads: the clips that delivery has taken up since the policy check in progress began. */
  datatype Station = Station(disk: Disk, current: Option<ClipId>, limit: nat, task: Task, slipped: set<ClipId>)

  datatype Event =
    | TakeUp(id: ClipId, now: Instant)      // transition_inflight
    | Return(entry: Entry)                  // transition_back_to_pending
    | Conclude(entry: Entry)                // transition_delivered
    | DropOrphan(id: ClipId)
    | SetAside(id: ClipId)                  // a corrupt pending sidecar
    | Reclassify(entry: Entry)
    | PruneRecord(id: ClipId)
    | SetAsideRecord(id: ClipId)            // a corrupt delivered sidecar
    | Boot(after: Disk)
    | Ask(incoming: nat)
    | ReadOne(id: ClipId)
    | NextDirectory
    | FirstUnlink(victim: Evictable)
    | SecondUnlink
    | Accept
    | Refuse
    | Enqueue(entry: Entry)
    | EnqueueFails

  function JsonIn(f: Files, dir: Directory): Option<Sidecar> {
    match dir
    case InflightDir => f.inflightJson
    case DeliveredDir => f.deliveredJson
    case PendingDir => f.pendingJson
  }

  function WithJson(f: Files, dir: Directory, json: Option<Sidecar>): Files {
    match dir
    case InflightDir => f.(inflightJson := json)
    case DeliveredDir => f.(deliveredJson := json)
    case PendingDir => f.(pendingJson := json)
  }

  function Listing(d: Disk, dir: Directory): set<ClipId> { set id | id in d && JsonIn(d[id], dir).Some? }

  predicate Checking(t: Task) { t.Reading? || t.Sweeping? || t.Unlinking? }

  predicate Startable(f: Files) { IsGood(f.pendingJson) && f.pendingMp4.Some? }

  /** The record is the clip's inflight one, of the same size. */
  predicate FromInflight(f: Files, e: Entry) { IsGood(f.inflightJson) && f.inflightJson.value.entry.byteSize == e.byteSize }

  /** The candidate that comes first in the eviction order. */
  ghost predicate IsHead(d: Disk, c: Evictable) {
    OnDisk(d, c) && forall x :: OnDisk(d, x) ==> x == c || EvictedBefore(c, x)
  }

  /** The counters breach a ceiling, though the floor does not. */
  ghost predicate MustEvict(p: QueuePolicy, incoming: nat, seen: Disk) {
    && Breaches(p, incoming, TotalClips(seen), TotalBytes(seen))
    && p.eviction.DropOldestUndelivered? && !Breaches(p, incoming, TotalFloorClips(seen), TotalFloorBytes(seen))
  }

  ghost predicate Enabled(s: Station, p: QueuePolicy, ev: Event) {
    match ev
    case TakeUp(id, _) => s.current.None? && Startable(At(s.disk, id))
    case Return(e) =>
      var f := At(s.disk, e.clipId);
      s.current == Some(e.clipId) && FromInflight(f, e) && f.inflightJson.value.entry.attempts < s.limit
    case Conclude(e) => s.current == Some(e.clipId) && FromInflight(At(s.disk, e.clipId), e)
    case DropOrphan(id) => s.current.None? && IsGood(At(s.disk, id).pendingJson) && At(s.disk, id).pendingMp4.None?
    case SetAside(id) => s.current.None? && At(s.disk, id).pendingJson == Some(Corrupt)
    case Reclassify(e) => IsGood(At(s.disk, e.clipId).deliveredJson)
    case PruneRecord(id) => IsGood(At(s.disk, id).deliveredJson)
    case SetAsideRecord(id) => At(s.disk, id).deliveredJson == Some(Corrupt)
    case Boot(after) =>
      s.task.Resting? && s.current.None? && forall id :: At(after, id) == ReconciledFiles(At(s.disk, id))
    case Ask(_) => s.task.Resting?
    case ReadOne(id) => s.task.Reading? && (id in s.task.todo || JsonIn(At(s.disk, id), s.task.dir).Some?)
    case NextDirectory => s.task.Reading? && s.task.todo == {}
    case FirstUnlink(c) => s.task.Sweeping? && MustEvict(p, s.task.incoming, s.task.seen) && IsHead(s.task.seen, c)
    case SecondUnlink => s.task.Unlinking?
    case Accept =>
      && s.task.Sweeping? && Fits(s.task.seen, s.task.incoming)
      && !Breaches(p, s.task.incoming, TotalClips(s.task.seen), TotalBytes(s.task.seen))
    case Refuse =>
      && s.task.Sweeping? && Breaches(p, s.task.incoming, TotalClips(s.task.seen), TotalBytes(s.task.seen))
      && !MustEvict(p, s.task.incoming, s.task.seen)
    case Enqueue(e) => s.task == Admitted(e.byteSize) && At(s.disk, e.clipId) == NO_FILES
    case EnqueueFails => s.task.Admitted?
  }

  ghost function Apply(s: Station, p: QueuePolicy, ev: Event): Station
    requires Enabled(s, p, ev)
  {
    var d := s.disk;
    match ev
    case TakeUp(id, now) =>
      s.(disk := Put(d, id, InflightFiles(At(d, id), At(d, id).pendingJson.value.entry, now)), current := Some(id),
         slipped := if Checking(s.task) then s.slipped + {id} else s.slipped)
    case Return(e) => s.(disk := Put(d, e.clipId, RequeuedFiles(At(d, e.clipId), e)), current := None)
    case Conclude(e) => s.(disk := Put(d, e.clipId, DeliveredFiles(At(d, e.clipId), e)), current := None)
    case DropOrphan(id) => s.(disk := Put(d, id, OrphanRemovedFiles(At(d, id))))
    case SetAside(id) => s.(disk := Put(d, id, QuarantinedFiles(At(d, id))))
    case Reclassify(e) => s.(disk := Put(d, e.clipId, At(d, e.clipId).(deliveredJson := Some(Good(e)))))
    case PruneRecord(id) => s.(disk := Put(d, id, At(d, id).(deliveredJson := None)))
    case SetAsideRecord(id) => s.(disk := Put(d, id, At(d, id).(deliveredJson := None)))
    case Boot(after) => s.(disk := after)
    case Ask(incoming) => s.(task := Reading(incoming, InflightDir, Listing(d, InflightDir), map[]), slipped := {})
    case ReadOne(id) => s.(task := ReadStep(d, s.task, id))
    case NextDirectory => s.(task := NextStep(d, s.task))
    case FirstUnlink(c) =>
      s.(disk := if c.location.PendingClip? then Put(d, c.entry.clipId, At(d, c.entry.clipId).(pendingMp4 := None)) else d,
         task := Unlinking(s.task.incoming, s.task.seen, c))
    case SecondUnlink =>
      var c := s.task.victim;
      s.(disk := Put(d, c.entry.clipId, WithJson(At(d, c.entry.clipId), DirectoryOf(c), None)),
         task := Sweeping(s.task.incoming, EvictOne(s.task.seen, c)))
    case Accept => s.(task := Admitted(s.task.incoming))
    case Refuse => s.(task := Resting)
    case Enqueue(e) => s.(disk := Put(d, e.clipId, NewFiles(e)), task := Resting)
    case EnqueueFails => s.(task := Resting)
  }

  function DirectoryOf(c: Evictable): Directory { if c.location.PendingClip? then PendingDir else DeliveredDir }

  /** Read one sidecar: one that has vanished is passed over, a corrupt one ends the census with an error. */
  function ReadStep(d: Disk, t: Task, id: ClipId): Task
    requires t.Reading?
  {
    var json := JsonIn(At(d, id), t.dir);
    if json == Some(Corrupt) then Resting
    else if json.None? then t.(todo := t.todo - {id})
    else t.(todo := t.todo - {id}, seen := Put(t.seen, id, WithJson(At(t.seen, id), t.dir, json)))
  }

  function NextStep(d: Disk, t: Task): Task
    requires t.Reading?
  {
    match t.dir
    case InflightDir => Reading(t.incoming, DeliveredDir, Listing(d, DeliveredDir), t.seen)
    case DeliveredDir => Reading(t.incoming, PendingDir, Listing(d, PendingDir), t.seen)
    case PendingDir => Sweeping(t.incoming, t.seen)
  }

  ghost predicate Valid(s: Station, p: QueuePolicy, evs: seq<Event>)
    decreases |evs|
  {
    evs == [] || (Enabled(s, p, evs[0]) && Valid(Apply(s, p, evs[0]), p, evs[1..]))
  }

  ghost function Run(s: Station, p: QueuePolicy, evs: seq<Event>): Station
    requires Valid(s, p, evs)
    decreases |evs|
  {
    if evs == [] then s else Run(Apply(s, p, evs[0]), p, evs[1..])
  }

  // ---- What the census knows ----

  /** Between operations a clip's sidecar is in one directory. */
  predicate OnePlace(f: Files) {
    && (f.pendingJson.Some? ==> f.inflightJson.None? && f.deliveredJson.None?)
    && (f.inflightJson.Some? ==> f.deliveredJson.None?)
  }

  predicate Sees(g: Option<Sidecar>, f: Option<Sidecar>) { IsGood(g) && BytesOf(g) == BytesOf(f) }

  /** A clip that delivery has not taken up during the check, with files f of which the census has seen g: its sidecar
      has been read in the directory where it is, or in an earlier one on its way there, or is still to be read. */
  predicate Counted(t: Task, id: ClipId, f: Files, g: Files) {
    var inflight := IsGood(f.inflightJson) ==> Sees(g.inflightJson, f.inflightJson);
    var delivered := IsGood(f.deliveredJson) ==> IsGood(g.deliveredJson) || IsGood(g.inflightJson);
    var pending := IsGood(f.pendingJson) ==> Sees(g.pendingJson, f.pendingJson) || Sees(g.inflightJson, f.pendingJson);
    var settled := g.pendingJson.Some? ==> f.inflightJson.None?;
    match t
    case Reading(_, InflightDir, todo, _) => (id in todo || inflight) && g.pendingJson.None?
    case Reading(_, DeliveredDir, todo, _) => inflight && (id in todo || delivered) && g.pendingJson.None?
    case Reading(_, PendingDir, todo, _) => inflight && delivered && (id in todo || pending) && settled
    case Sweeping(_, _) => inflight && delivered && pending && settled
    case Unlinking(_, _, c) =>
      && inflight && delivered && pending && settled
      && (c.location.PendingClip? && c.entry.clipId == id ==> f.pendingMp4.None? && f.inflightJson.None?)
    case _ => true
  }

  function SeenBy(t: Task): Disk { if Checking(t) then t.seen else map[] }

  ghost predicate ClipOk(s: Station, id: ClipId) {
    var f := At(s.disk, id);
    && OnePlace(f) && (s.current == Some(id) ==> IsGood(f.inflightJson) && f.inflightMp4.Some?)
    && (id !in s.slipped ==> Counted(s.task, id, f, At(SeenBy(s.task), id)))
  }

  ghost predicate Inv(s: Station) { forall id :: ClipOk(s, id) }

  /** What delivery and the poller do, as against the submission's own steps. */
  predicate OfOthers(ev: Event) {
    || ev.TakeUp? || ev.Return? || ev.Conclude? || ev.DropOrphan? || ev.SetAside?
    || ev.Reclassify? || ev.PruneRecord? || ev.SetAsideRecord?
  }

  lemma OtherStepKeepsClip(s: Station, p: QueuePolicy, ev: Event, id: ClipId)
    requires ClipOk(s, id) && Enabled(s, p, ev) && OfOthers(ev)
    ensures ClipOk(Apply(s, p, ev), id)
  {
  }

  lemma OwnStepKeepsClip(s: Station, p: QueuePolicy, ev: Event, id: ClipId)
    requires ClipOk(s, id) && Enabled(s, p, ev) && !OfOthers(ev)
    ensures ClipOk(Apply(s, p, ev), id)
  {
  }

  lemma StepKeepsInv(s: Station, p: QueuePolicy, ev: Event)
    requires Inv(s) && Enabled(s, p, ev)
    ensures Inv(Apply(s, p, ev))
  {
    forall id ensures ClipOk(Apply(s, p, ev), id) {
      assert ClipOk(s, id);
      if OfOthers(ev) {
        OtherStepKeepsClip(s, p, ev, id);
      } else {
        OwnStepKeepsClip(s, p, ev, id);
      }
    }
  }

  lemma {:induction false} RunKeepsInv(s: Station, p: QueuePolicy, evs: seq<Event>)
    requires Inv(s) && Valid(s, p, evs)
    ensures Inv(Run(s, p, evs))
    decreases |evs|
  {
    if evs != [] {
      StepKeepsInv(s, p, evs[0]);
      RunKeepsInv(Apply(s, p, evs[0]), p, evs[1..]);
    }
  }

  /** In every reachable state of a sweep, the queue holds no more than the running counters say and what the clips hold
      that delivery has taken up since the check began. No other interference can mislead the planner. */
  lemma Accounting(s: Station)
    requires Inv(s) && s.task.Sweeping?
    ensures TotalClips(s.disk) <= TotalClips(s.task.seen) + Sum(s.slipped, s.disk, Clips)
    ensures TotalBytes(s.disk) <= TotalBytes(s.task.seen) + Sum(s.slipped, s.disk, Bytes)
  {
    var d, seen := s.disk, s.task.seen;
    forall id | id !in s.slipped
      ensures Clips(At(d, id)) <= Clips(At(seen, id)) && Bytes(At(d, id)) <= Bytes(At(seen, id))
    {
      assert ClipOk(s, id);
    }
    TotalUpTo(seen, d, s.slipped, Clips);
    TotalUpTo(seen, d, s.slipped, Bytes);
  }

  /** In every state, the clip that a sweep unlinks next comes, of all that the census has read and that is not yet
      evicted, first in age: an Undeliverable record before any pending clip, the earlier captured before the later. */
  lemma VictimIsOldest(s: Station, p: QueuePolicy, c: Evictable, other: Evictable)
    requires Enabled(s, p, FirstUnlink(c)) && OnDisk(s.task.seen, other) && other != c
    ensures || (c.location.UndeliverableRecord? && other.location.PendingClip?)
            || (c.location == other.location && c.entry.capturedAt < other.entry.capturedAt)
            || (c.location == other.location && c.entry.capturedAt == other.entry.capturedAt
                && LexLess(c.entry.clipId, other.entry.clipId))
  {
    assert EvictedBefore(c, other);
  }
}
