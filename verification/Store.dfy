/** The directory queue as the object its callers use (queue/store.rs): each method makes the same filesystem calls in
    the same order, here without interference and without I/O errors other than those given as arguments. */
module Store {
  import opened Queue
  import opened Order

  function SidecarName(id: ClipId): string { id + ".json" }

  /** The order in which a directory's sidecars are scanned: by file name. */
  predicate Before(a: ClipId, b: ClipId) { LexLess(SidecarName(a), SidecarName(b)) }

  lemma BeforeStrictTotal(s: set<ClipId>)
    ensures StrictTotal(Before, s)
  {
    forall a, b ensures !Before(a, a) && (a == b || Before(a, b) || Before(b, a)) {
      LexIrreflexive(SidecarName(a));
      LexTrichotomy(SidecarName(a), SidecarName(b));
      if SidecarName(a) == SidecarName(b) {
        assert a == SidecarName(a)[..|SidecarName(a)| - 5] == b;
      }
    }
    forall a, b, c | Before(a, b) && Before(b, c) ensures Before(a, c) {
      LexTransitive(SidecarName(a), SidecarName(b), SidecarName(c));
    }
  }

  /** Every sidecar's clip_id is the stem of its file name. */
  ghost predicate WellNamed(d: Disk) { forall id :: FilesNamed(id, At(d, id)) }

  predicate FilesNamed(id: ClipId, f: Files) {
    && (IsGood(f.pendingJson) ==> f.pendingJson.value.entry.clipId == id)
    && (IsGood(f.inflightJson) ==> f.inflightJson.value.entry.clipId == id)
    && (IsGood(f.deliveredJson) ==> f.deliveredJson.value.entry.clipId == id)
  }

  predicate Eligible(f: Files, now: Instant) {
    IsGood(f.pendingJson) && !f.pendingJson.value.entry.InBackoff(now)
  }

  /** A parsed pending sidecar with no retry instant, or one that has come. */
  predicate IsDue(f: Files, now: Instant) {
    && IsGood(f.pendingJson)
    && (f.pendingJson.value.entry.nextAttemptAfter.None? || f.pendingJson.value.entry.nextAttemptAfter.value <= now)
  }

  /** A parsed pending sidecar whose retry instant is still to come. */
  predicate Waits(f: Files, now: Instant) {
    && IsGood(f.pendingJson)
    && f.pendingJson.value.entry.nextAttemptAfter.Some? && now < f.pendingJson.value.entry.nextAttemptAfter.value
  }

  /** Every parsed pending sidecar that can be read waits for its retry instant. */
  ghost predicate AllWait(d: Disk, now: Instant, fails: Faults) {
    forall id :: IsGood(At(d, id).pendingJson) && !fails(id, ReadPending) ==> Waits(At(d, id), now)
  }

  /** No due sidecar that can be read comes before this one in file-name order. */
  ghost predicate FirstOfDue(d: Disk, id: ClipId, now: Instant, fails: Faults) {
    forall j :: IsDue(At(d, j), now) && !fails(j, ReadPending) ==> j == id || LexLess(SidecarName(id), SidecarName(j))
  }

  lemma DueInOrder(d: Disk, id: ClipId, now: Instant, fails: Faults)
    requires forall j :: Pickable(d, j, now, fails) ==> j == id || Before(id, j)
    ensures FirstOfDue(d, id, now, fails)
  {
    forall j | IsDue(At(d, j), now) && !fails(j, ReadPending) ensures j == id || LexLess(SidecarName(id), SidecarName(j)) {
      assert Pickable(d, j, now, fails);
    }
  }

  lemma NoneIsDue(d: Disk, now: Instant, fails: Faults)
    requires forall j :: !Pickable(d, j, now, fails)
    ensures AllWait(d, now, fails)
  {
    forall j | IsGood(At(d, j).pendingJson) && !fails(j, ReadPending) ensures Waits(At(d, j), now) {
      assert !Pickable(d, j, now, fails);
    }
  }

  /** The scan can read the sidecar, and it is eligible. */
  predicate Pickable(d: Disk, id: ClipId, now: Instant, fails: Faults) { Eligible(At(d, id), now) && !fails(id, ReadPending) }

  predicate MeetsCorrupt(d: Disk, id: ClipId, fails: Faults) {
    At(d, id).pendingJson == Some(Corrupt) && !fails(id, ReadPending)
  }

  function SweptFiles(f: Files): Files { SweptInflight(SweptPending(f)) }

  predicate Recoverable(f: Files) { IsGood(f.inflightJson) && !HasTerminalRecord(f) }

  ghost predicate SweepsOk(d: Disk, fails: Faults) {
    forall id :: SweepPendingOk(At(d, id), id, fails) && SweepInflightOk(At(d, id), id, fails)
  }

  /** The recovery stopped at `bad`, whose sidecar cannot be read or parsed or whose transition failed half-way: the clips
      scanned before it are reconciled, and all others merely swept. */
  ghost predicate StoppedAt(was: Disk, d: Disk, bad: ClipId, fails: Faults) {
    && !RecoverOk(SweptFiles(At(was, bad)), bad, fails)
    && forall id ::
         At(d, id) == if At(was, id).inflightJson.Some? && Before(id, bad) then ReconciledFiles(At(was, id))
                      else if id == bad then RecoveredFilesIf(SweptFiles(At(was, id)), id, fails)
                      else SweptFiles(At(was, id))
  }

  /** A sweep stopped half-way: each clip is swept of its orphans or not, and otherwise as before. */
  ghost predicate PartlySwept(was: Disk, d: Disk) {
    forall id :: At(d, id) in {At(was, id), SweptPending(At(was, id)), SweptFiles(At(was, id))}
  }

  class QueueStore {
    var disk: Disk

    constructor (d: Disk)
      ensures disk == d
    {
      disk := d;
    }

    /** Enqueue under a given id. `source` is the length of the captured file, None when it cannot be read. A failed
        sidecar write leaves no media behind, unless its removal fails too. */
    method EnqueueWithId(id: ClipId, source: Option<nat>, capturedAt: Instant, now: Instant, fails: Faults)
      returns (r: Result<Entry>)
      modifies this
      ensures r == if source.Some? && !fails(id, PlaceMedia) && !fails(id, WriteNew)
                   then Ok(NewEntry(id, capturedAt, now, source.value)) else Err(Io)
      ensures r.Ok? ==>
                && r.value.clipId == id && r.value.capturedAt == capturedAt && r.value.enqueuedAt == now
                && source == Some(r.value.byteSize) && r.value.attempts == 0 && r.value.firstAttemptAt.None?
                && r.value.lastAttemptAt.None? && r.value.lastError.None? && r.value.nextAttemptAfter.None?
                && r.value.outcome.None? && r.value.classifyTaskId.None? && r.value.deliveredAt.None?
                && r.value.lastClassifyStatus.None? && r.value.classifyLostAt.None?
      ensures r.Ok? ==>
                disk == Put(old(disk), id, At(old(disk), id).(pendingMp4 := source, pendingJson := Some(Good(r.value))))
      ensures r.Err? && (source.None? || fails(id, PlaceMedia)) ==> disk == old(disk)
      ensures r.Err? && !(source.None? || fails(id, PlaceMedia)) ==>
                disk == Put(old(disk), id, At(old(disk), id).(pendingMp4 := if fails(id, RemovePlaced) then source else None))
    {
      if source.None? || fails(id, PlaceMedia) {
        return Err(Io);
      }
      disk := Put(disk, id, At(disk, id).(pendingMp4 := source));
      var entry := NewEntry(id, capturedAt, now, source.value);
      if fails(id, WriteNew) {
        if !fails(id, RemovePlaced) {
          disk := Put(disk, id, At(disk, id).(pendingMp4 := None));
        }
        return Err(Io);
      }
      disk := Put(disk, id, At(disk, id).(pendingJson := Some(Good(entry))));
      return Ok(entry);
    }

    /** Start an attempt. The record counts it, keeps the instant of the first one, and clears backoff and error. */
    method TransitionInflight(e: Entry, now: Instant, fails: Faults) returns (r: Result<Entry>)
      modifies this
      ensures r.Ok? ==>
                && r.value.attempts == (if e.attempts < U32_MAX then e.attempts + 1 else U32_MAX)
                && r.value.firstAttemptAt == (if e.firstAttemptAt.Some? then e.firstAttemptAt else Some(now))
                && r.value.lastAttemptAt == Some(now) && r.value.nextAttemptAfter.None? && r.value.lastError.None?
                && SameClip(e, r.value) && SameResult(e, r.value)
      ensures r.Ok? ==>
                var f, g := At(old(disk), e.clipId), At(disk, e.clipId);
                && f.pendingMp4.Some? && g.inflightMp4 == f.pendingMp4 && g.inflightJson == Some(Good(r.value))
                && g.pendingMp4.None? && g.pendingJson.None?
      ensures At(old(disk), e.clipId).pendingMp4.None? ==> r == Err(MissingMedia(e.clipId)) && disk == old(disk)
      ensures At(old(disk), e.clipId).pendingMp4.Some? ==>
                && r == (if InflightOk(e.clipId, fails) then Ok(Bumped(e, now)) else Err(Io))
                && At(disk, e.clipId) == InflightFilesIf(At(old(disk), e.clipId), e, now, fails)
                && forall j :: j != e.clipId ==> At(disk, j) == At(old(disk), j)
    {
      var id := e.clipId;
      var updated := Bumped(e, now);
      if At(disk, id).pendingMp4.None? {
        return Err(MissingMedia(id));
      }
      if fails(id, MoveIn) {
        return Err(Io);
      }
      disk := Put(disk, id, At(disk, id).(inflightMp4 := At(disk, id).pendingMp4, pendingMp4 := None));
      if fails(id, WriteInflight) {
        if !fails(id, MoveBack) {
          disk := Put(disk, id, At(disk, id).(pendingMp4 := At(disk, id).inflightMp4, inflightMp4 := None));
        }
        return Err(Io);
      }
      disk := Put(disk, id, At(disk, id).(inflightJson := Some(Good(updated))));
      if fails(id, RemovePending) {
        return Err(Io);
      }
      disk := Put(disk, id, At(disk, id).(pendingJson := None));
      return Ok(updated);
    }

    method TransitionBackToPending(e: Entry, fails: Faults) returns (ok: bool)
      modifies this
      ensures ok == RequeueOk(At(old(disk), e.clipId), e.clipId, fails)
      ensures disk == Put(old(disk), e.clipId, RequeuedFilesIf(At(old(disk), e.clipId), e, fails))
    {
      var id := e.clipId;
      if At(disk, id).inflightMp4.Some? {
        if fails(id, ReturnMedia) {
          disk := Put(disk, id, At(disk, id));
          return false;
        }
        disk := Put(disk, id, At(disk, id).(pendingMp4 := At(disk, id).inflightMp4, inflightMp4 := None));
      }
      if fails(id, WritePending) {
        disk := Put(disk, id, At(disk, id));
        return false;
      }
      disk := Put(disk, id, At(disk, id).(pendingJson := Some(Good(e))));
      if At(disk, id).inflightJson.Some? && fails(id, RemoveInflight) {
        return false;
      }
      disk := Put(disk, id, At(disk, id).(inflightJson := None));
      return true;
    }

    method TransitionDelivered(e: Entry, fails: Faults) returns (ok: bool)
      modifies this
      ensures ok == DeliverOk(At(old(disk), e.clipId), e.clipId, fails)
      ensures disk == Put(old(disk), e.clipId, DeliveredFilesIf(At(old(disk), e.clipId), e, fails))
    {
      var id := e.clipId;
      if fails(id, WriteRecord) {
        disk := Put(disk, id, At(disk, id));
        return false;
      }
      disk := Put(disk, id, At(disk, id).(inflightJson := Some(Good(e))));
      if At(disk, id).inflightMp4.Some? && fails(id, UnlinkMedia) {
        return false;
      }
      disk := Put(disk, id, At(disk, id).(inflightMp4 := None));
      if fails(id, PublishRecord) {
        return false;
      }
      disk := Put(disk, id, At(disk, id).(deliveredJson := At(disk, id).inflightJson, inflightJson := None));
      return true;
    }

    method QuarantineOrphan(id: ClipId, fails: Faults) returns (ok: bool)
      modifies this
      ensures ok == RemoveOrphanOk(At(old(disk), id), id, fails)
      ensures disk == Put(old(disk), id, OrphanRemovedFilesIf(At(old(disk), id), id, fails))
    {
      if At(disk, id).pendingJson.Some? && fails(id, DropSidecar) {
        disk := Put(disk, id, At(disk, id));
        return false;
      }
      disk := Put(disk, id, At(disk, id).(pendingJson := None));
      if At(disk, id).pendingMp4.Some? && fails(id, DropMedia) {
        return false;
      }
      disk := Put(disk, id, At(disk, id).(pendingMp4 := None));
      return true;
    }

    /** Move a corrupt pending sidecar, and any media beside it, into corrupt/. */
    method QuarantineCorrupt(id: ClipId, fails: Faults) returns (ok: bool)
      modifies this
      ensures ok == !fails(id, SetAsideSidecar)
      ensures disk == Put(old(disk), id, QuarantinedFilesIf(At(old(disk), id), id, fails))
    {
      if fails(id, SetAsideSidecar) {
        disk := Put(disk, id, At(disk, id));
        return false;
      }
      disk := Put(disk, id, At(disk, id).(corruptJson := At(disk, id).pendingJson, pendingJson := None));
      if At(disk, id).pendingMp4.Some? && !fails(id, SetAsideMedia) {
        disk := Put(disk, id, At(disk, id).(corruptMp4 := At(disk, id).pendingMp4, pendingMp4 := None));
      }
      return true;
    }

    /** The first sidecar in file-name order that can be read, parses and is out of backoff. Corrupt sidecars that come
        before it (all of them, if there is none) are quarantined as far as that succeeds; nothing else changes. */
    method PickOldestPending(now: Instant, fails: Faults) returns (r: Option<Entry>)
      requires WellNamed(disk)
      modifies this
      ensures r.None? ==> AllWait(old(disk), now, fails) && forall id :: !Pickable(old(disk), id, now, fails)
      ensures r.Some? ==> r.value.nextAttemptAfter.None? || r.value.nextAttemptAfter.value <= now
      ensures r.Some? ==> FirstOfDue(old(disk), r.value.clipId, now, fails)
      ensures r.Some? ==>
                && At(old(disk), r.value.clipId).pendingJson == Some(Good(r.value)) && Pickable(old(disk), r.value.clipId, now, fails)
                && forall id :: Pickable(old(disk), id, now, fails) ==> id == r.value.clipId || Before(r.value.clipId, id)
      ensures forall id :: At(disk, id) ==
                if MeetsCorrupt(old(disk), id, fails) && (r.None? || Before(id, r.value.clipId))
                then QuarantinedFilesIf(At(old(disk), id), id, fails) else At(old(disk), id)
    {
      ghost var was := disk;
      var names := set id | id in disk && disk[id].pendingJson.Some?;
      BeforeStrictTotal(names);
      var sidecars := SortBy(Before, names);
      var i := 0;
      while i < |sidecars|
        invariant 0 <= i <= |sidecars|
        invariant forall k | 0 <= k < i :: !Pickable(was, sidecars[k], now, fails)
        invariant forall id :: At(disk, id) ==
                    if MeetsCorrupt(was, id, fails) && id in sidecars[..i]
                    then QuarantinedFilesIf(At(was, id), id, fails) else At(was, id)
      {
        var id := sidecars[i];
        assert id in Elements(sidecars) && id !in sidecars[..i] by { SortedDistinct(sidecars, i); }
        assert sidecars[..i + 1] == sidecars[..i] + [id];
        if !fails(id, ReadPending) {
          if At(disk, id).pendingJson == Some(Corrupt) {
            var _ := QuarantineCorrupt(id, fails);
          } else if !At(disk, id).pendingJson.value.entry.InBackoff(now) {
            r := Some(At(disk, id).pendingJson.value.entry);
            forall j ensures At(was, j).pendingJson.Some? ==> (j in sidecars[..i] <==> Before(j, id)) {
              if At(was, j).pendingJson.Some? { ScanPosition(sidecars, i, j); }
            }
            forall j | Pickable(was, j, now, fails) ensures j == id || Before(id, j) {
              ScanPosition(sidecars, i, j);
            }
            DueInOrder(was, id, now, fails);
            return;
          }
        }
        i := i + 1;
      }
      assert sidecars[..i] == sidecars;
      forall id | At(was, id).pendingJson.Some? ensures id in sidecars {
        assert id in Elements(sidecars);
      }
      r := None;
      NoneIsDue(was, now, fails);
    }

    /** Remove the pending (or inflight) media that has no sidecar beside it; the first failing removal ends it. */
    method SweepOrphanMedia(pending: bool, fails: Faults) returns (ok: bool)
      modifies this
      ensures ok <==> forall id :: if pending then SweepPendingOk(At(old(disk), id), id, fails)
                                   else SweepInflightOk(At(old(disk), id), id, fails)
      ensures forall id :: At(disk, id) == SweptOf(At(old(disk), id), pending) || (!ok && At(disk, id) == At(old(disk), id))
    {
      ghost var was := disk;
      var todo := disk.Keys;
      while todo != {}
        invariant todo <= was.Keys
        invariant forall id :: At(disk, id) == if id in todo then At(was, id) else SweptOf(At(was, id), pending)
        invariant forall id | id !in todo :: if pending then SweepPendingOk(At(was, id), id, fails)
                                             else SweepInflightOk(At(was, id), id, fails)
      {
        var id :| id in todo;
        var f := At(disk, id);
        if pending && f.pendingMp4.Some? && f.pendingJson.None? {
          if fails(id, SweepMedia) {
            return false;
          }
          disk := Put(disk, id, f.(pendingMp4 := None));
        } else if !pending && f.inflightMp4.Some? && f.inflightJson.None? {
          if fails(id, SweepMedia) {
            return false;
          }
          disk := Put(disk, id, f.(inflightMp4 := None));
        }
        todo := todo - {id};
      }
      return true;
    }

    method SweepBoth(fails: Faults) returns (ok: bool)
      modifies this
      ensures ok <==> SweepsOk(old(disk), fails)
      ensures ok ==> forall id :: At(disk, id) == SweptFiles(At(old(disk), id))
      ensures !ok ==> PartlySwept(old(disk), disk)
    {
      ghost var was := disk;
      ok := SweepOrphanMedia(true, fails);
      if ok {
        ok := SweepOrphanMedia(false, fails);
        assert forall id :: SweepInflightOk(SweptPending(At(was, id)), id, fails) <==> SweepInflightOk(At(was, id), id, fails);
      }
    }

    /** Boot reconciliation. Ok exactly when no removal fails, every inflight sidecar can be read and parsed, and no call
        of its transition fails; then each clip is reconciled and the re-queued records are returned in scan order.
        Otherwise it stops at the first clip that fails. */
    method ReconcileInflight(fails: Faults) returns (r: Result<seq<Entry>>)
      requires WellNamed(disk)
      modifies this
      ensures r.Ok? <==> SweepsOk(old(disk), fails) && forall id :: RecoverOk(SweptFiles(At(old(disk), id)), id, fails)
      ensures r.Ok? ==> forall id :: At(disk, id) == ReconciledFiles(At(old(disk), id))
      ensures r.Ok? ==>
                && InScanOrder(r.value)
                && (forall e :: e in r.value <==>
                      exists id :: Recoverable(At(old(disk), id)) && e == Recovered(At(old(disk), id).inflightJson.value.entry))
      ensures r.Ok? ==> forall e | e in r.value :: e.nextAttemptAfter.None? && e.lastError.None? && !e.IsTerminal()
      ensures r.Err? ==> if SweepsOk(old(disk), fails) then exists bad :: StoppedAt(old(disk), disk, bad, fails)
                         else PartlySwept(old(disk), disk)
    {
      ghost var was := disk;
      var ok := SweepBoth(fails);
      if !ok {
        return Err(Io);
      }
      var names := set id | id in disk && disk[id].inflightJson.Some?;
      BeforeStrictTotal(names);
      var sidecars := SortBy(Before, names);
      forall id ensures id in sidecars <==> At(was, id).inflightJson.Some? {
        assert id in sidecars <==> id in Elements(sidecars);
        assert At(disk, id) == SweptFiles(At(was, id));
      }
      r := RecoverScanned(sidecars, was, fails);
      if r.Ok? {
        RecoveryEnds(was, disk, sidecars, fails);
        RecoveredListMembers(was, sidecars, |sidecars|);
        RecoveredListSorted(was, sidecars, |sidecars|);
        forall id | Recoverable(At(was, id)) ensures Recovered(At(was, id).inflightJson.value.entry) in r.value {
          assert id in sidecars;
        }
      }
    }

    /** Read one inflight sidecar, and finish its interrupted delivery or re-queue its interrupted attempt. */
    method RecoverOne(id: ClipId, recovered: seq<Entry>, fails: Faults) returns (err: Option<QueueError>, r: seq<Entry>)
      requires At(disk, id).inflightJson.Some?
      requires IsGood(At(disk, id).inflightJson) ==> At(disk, id).inflightJson.value.entry.clipId == id
      modifies this
      ensures err.None? <==> RecoverOk(At(old(disk), id), id, fails)
      ensures Moved(old(disk), id, fails, disk) == true
      ensures err.None? ==> r == WithRecovered(recovered, At(old(disk), id).inflightJson.value.entry)
    {
      r := recovered;
      if fails(id, ReadInflight) {
        return Some(Io), r;
      }
      var json := At(disk, id).inflightJson.value;
      if json.Corrupt? {
        return Some(Deserialise), r;
      }
      var e, ok := json.entry, false;
      if e.IsTerminal() {
        ok := TransitionDelivered(e, fails);
      } else {
        ok := TransitionBackToPending(Recovered(e), fails);
        r := recovered + [Recovered(e)];
      }
      err := if ok then None else Some(Io);
    }

    /** The recovery loop over the sorted inflight sidecars of a swept disk. */
    method RecoverScanned(sidecars: seq<ClipId>, ghost was: Disk, fails: Faults) returns (r: Result<seq<Entry>>)
      requires WellNamed(was) && ScansInflight(was, sidecars) && RecoveredUpTo(was, disk, sidecars, 0, fails)
      modifies this
      ensures r.Ok? ==>
                && r.value == RecoveredList(was, sidecars, |sidecars|)
                && RecoveredUpTo(was, disk, sidecars, |sidecars|, fails)
      ensures r.Err? ==> exists bad :: StoppedAt(was, disk, bad, fails)
    {
      var recovered: seq<Entry> := [];
      var i := 0;
      while i < |sidecars|
        invariant 0 <= i <= |sidecars|
        invariant RecoveredUpTo(was, disk, sidecars, i, fails) == true
        invariant recovered == RecoveredList(was, sidecars, i)
      {
        ghost var before := disk;
        RecoveryReads(was, disk, sidecars, i, fails);
        var err;
        err, recovered := RecoverOne(sidecars[i], recovered, fails);
        if err.Some? {
          RecoveryStops(was, before, sidecars, i, disk, fails);
          return Err(err.value);
        }
        RecoveryAdvances(was, before, sidecars, i, disk, fails);
        i := i + 1;
      }
      return Ok(recovered);
    }
  }

  function SweptOf(f: Files, pending: bool): Files { if pending then SweptPending(f) else SweptInflight(f) }

  /** The inflight sidecars of a disk, in scan order. */
  ghost predicate ScansInflight(d: Disk, q: seq<ClipId>) {
    Sorted(Before, q) && forall id :: id in q <==> At(d, id).inflightJson.Some?
  }

  /** The first i sidecars' clips are reconciled; every other clip is swept. */
  ghost predicate RecoveredUpTo(was: Disk, d: Disk, q: seq<ClipId>, i: nat, fails: Faults)
    requires i <= |q|
  {
    && (forall id | id in q[..i] :: RecoverOk(SweptFiles(At(was, id)), id, fails))
    && (forall id :: At(d, id) == if id in q[..i] then ReconciledFiles(At(was, id)) else SweptFiles(At(was, id)))
  }

  lemma RecoveryReads(was: Disk, d: Disk, q: seq<ClipId>, i: nat, fails: Faults)
    requires i < |q| && RecoveredUpTo(was, d, q, i, fails) == true && ScansInflight(was, q) && WellNamed(was)
    ensures At(d, q[i]) == SweptFiles(At(was, q[i]))
    ensures At(d, q[i]).inflightJson.Some? && At(d, q[i]).inflightJson == At(was, q[i]).inflightJson
    ensures IsGood(At(d, q[i]).inflightJson) ==> At(d, q[i]).inflightJson.value.entry.clipId == q[i]
  {
    SortedDistinct(q, i);
    assert q[i] in q;
  }

  function WithRecovered(recovered: seq<Entry>, e: Entry): seq<Entry> {
    if e.IsTerminal() then recovered else recovered + [Recovered(e)]
  }

  /** The loop body changes the clip it reads, as far as its calls succeed, and no other. */
  ghost predicate Moved(d: Disk, id: ClipId, fails: Faults, d': Disk) {
    forall j :: At(d', j) == if j == id then RecoveredFilesIf(At(d, j), j, fails) else At(d, j)
  }

  lemma RecoveryEnds(was: Disk, d: Disk, q: seq<ClipId>, fails: Faults)
    requires RecoveredUpTo(was, d, q, |q|, fails) && ScansInflight(was, q)
    ensures forall id :: At(d, id) == ReconciledFiles(At(was, id)) && RecoverOk(SweptFiles(At(was, id)), id, fails)
  {
    assert q[..|q|] == q;
  }

  /** A recovery in which no call fails is the reconciliation of the swept clip. */
  lemma RecoveredWhole(f: Files, id: ClipId, fails: Faults)
    requires RecoverOk(SweptFiles(f), id, fails) && IsGood(f.inflightJson) && f.inflightJson.value.entry.clipId == id
    ensures RecoveredFilesIf(SweptFiles(f), id, fails) == ReconciledFiles(f)
  {
  }

  lemma RecoveryAdvances(was: Disk, d: Disk, q: seq<ClipId>, i: nat, d': Disk, fails: Faults)
    requires i < |q| && RecoveredUpTo(was, d, q, i, fails) == true && WellNamed(was) && ScansInflight(was, q)
    requires Moved(d, q[i], fails, d') == true && RecoverOk(At(d, q[i]), q[i], fails)
    ensures RecoveredUpTo(was, d', q, i + 1, fails) == true
  {
    RecoveryReads(was, d, q, i, fails);
    RecoveredWhole(At(was, q[i]), q[i], fails);
    assert q[..i + 1] == q[..i] + [q[i]];
    assert At(d', q[i]) == ReconciledFiles(At(was, q[i]));
  }

  lemma RecoveryStops(was: Disk, d: Disk, q: seq<ClipId>, i: nat, d': Disk, fails: Faults)
    requires i < |q| && RecoveredUpTo(was, d, q, i, fails) == true && ScansInflight(was, q) && WellNamed(was)
    requires !RecoverOk(At(d, q[i]), q[i], fails) && Moved(d, q[i], fails, d') == true
    ensures StoppedAt(was, d', q[i], fails)
  {
    RecoveryReads(was, d, q, i, fails);
    LexIrreflexive(SidecarName(q[i]));
    forall j | At(was, j).inflightJson.Some? ensures j in q[..i] <==> Before(j, q[i]) {
      ScanPosition(q, i, j);
    }
  }

  ghost predicate InScanOrder(r: seq<Entry>) {
    forall i, j | 0 <= i < j < |r| :: Before(r[i].clipId, r[j].clipId)
  }

  /** The records re-queued from the first n of the given sidecars, in their order. */
  ghost function RecoveredList(d: Disk, q: seq<ClipId>, n: nat): seq<Entry>
    requires n <= |q|
  {
    if n == 0 then []
    else
      var json := At(d, q[n - 1]).inflightJson;
      if IsGood(json) then WithRecovered(RecoveredList(d, q, n - 1), json.value.entry) else RecoveredList(d, q, n - 1)
  }

  lemma {:induction false} RecoveredListMembers(d: Disk, q: seq<ClipId>, n: nat)
    requires n <= |q|
    ensures forall e :: e in RecoveredList(d, q, n) <==>
              exists k :: 0 <= k < n && Recoverable(At(d, q[k])) && e == Recovered(At(d, q[k]).inflightJson.value.entry)
  {
    if n > 0 {
      RecoveredListMembers(d, q, n - 1);
    }
  }

  lemma {:induction false} RecoveredListSorted(d: Disk, q: seq<ClipId>, n: nat)
    requires n <= |q| && WellNamed(d) && Sorted(Before, q)
    ensures InScanOrder(RecoveredList(d, q, n))
  {
    if n > 0 {
      RecoveredListSorted(d, q, n - 1);
      RecoveredListMembers(d, q, n - 1);
      var r, last := RecoveredList(d, q, n - 1), q[n - 1];
      if Recoverable(At(d, last)) {
        var e := Recovered(At(d, last).inflightJson.value.entry);
        assert RecoveredList(d, q, n) == r + [e] && e.clipId == last;
        forall i | 0 <= i < |r| ensures Before(r[i].clipId, last) {
          assert r[i] in r;
          var k :| 0 <= k < n - 1 && Recoverable(At(d, q[k])) && r[i] == Recovered(At(d, q[k]).inflightJson.value.entry);
          assert Before(q[k], last);
        }
      } else {
        assert RecoveredList(d, q, n) == r;
      }
    }
  }

  lemma SortedDistinct(q: seq<ClipId>, i: nat)
    requires Sorted(Before, q) && i < |q|
    ensures q[i] !in q[..i]
  {
    LexIrreflexive(SidecarName(q[i]));
  }

  /** In a sorted scan, the sidecars met before position i are exactly those whose name sorts before q[i]. */
  lemma ScanPosition(q: seq<ClipId>, i: nat, j: ClipId)
    requires Sorted(Before, q) && i < |q| && j in Elements(q)
    ensures j in q[..i] <==> Before(j, q[i])
    ensures j in q[..i] || j == q[i] || Before(q[i], j)
  {
    var k :| 0 <= k < |q| && q[k] == j;
    BeforeStrictTotal(Elements(q));
    assert q[i] in Elements(q);
    if k < i {
      assert q[..i][k] == j;
    }
    assert forall m | 0 <= m < i :: Before(q[m], q[i]) && q[..i][m] == q[m];
  }

  // ---- What failing calls can cost ----

  /** The clip's media is in at most one of three directories. */
  predicate OneCopy(f: Files) {
    && (f.pendingMp4.Some? ==> f.inflightMp4.None? && f.corruptMp4.None?)
    && (f.inflightMp4.Some? ==> f.corruptMp4.None?)
  }

  function Medium(f: Files): Option<nat> {
    if f.pendingMp4.Some? then f.pendingMp4 else if f.inflightMp4.Some? then f.inflightMp4 else f.corruptMp4
  }

  predicate SameMedium(f: Files, g: Files) { OneCopy(g) && Medium(g) == Medium(f) }

  /** Whichever calls fail, no transition destroys or duplicates media, but for the unlink that follows the writing of a
      record with an outcome; and the removal of an orphan's sidecar destroys none where there is none. */
  lemma FailingCallsSpareMedia(f: Files, e: Entry, now: Instant, fails: Faults)
    requires OneCopy(f)
    ensures f.pendingMp4.Some? ==> SameMedium(f, InflightFilesIf(f, e, now, fails))
    ensures SameMedium(f, RequeuedFilesIf(f, e, fails))
    ensures SameMedium(f, QuarantinedFilesIf(f, e.clipId, fails))
    ensures f.pendingMp4.None? ==> SameMedium(f, OrphanRemovedFilesIf(f, e.clipId, fails))
    ensures var g := DeliveredFilesIf(f, e, fails);
            SameMedium(f, g) || g.inflightJson == Some(Good(e)) || g.deliveredJson == Some(Good(e))
  {
  }

  // ---- What reconciliation achieves ----

  /** From any files whose inflight sidecar parses: inflight/ ends empty, pending media is paired with a sidecar, a
      terminal record is in delivered/, a non-terminal one is back in pending/ with its media, its backoff cleared
      and its attempts unchanged, and reconciling again changes nothing. */
  lemma ReconcileProperties(f: Files)
    requires f.inflightJson != Some(Corrupt)
    ensures var g := ReconciledFiles(f);
            && g.inflightJson.None? && g.inflightMp4.None?
            && (g.pendingMp4.Some? ==> g.pendingJson.Some?)
            && (HasTerminalRecord(f) ==> g.deliveredJson == f.inflightJson)
            && (Recoverable(f) ==>
                  && IsGood(g.pendingJson) && g.deliveredJson == f.deliveredJson
                  && (f.inflightMp4.Some? ==> g.pendingMp4 == f.inflightMp4)
                  && var e, e' := f.inflightJson.value.entry, g.pendingJson.value.entry;
                     && e'.nextAttemptAfter.None? && e'.lastError.None?
                     && SameClip(e, e') && SameAttempts(e, e') && SameResult(e, e'))
            && (f.inflightJson.None? ==> g.pendingJson == f.pendingJson && g.deliveredJson == f.deliveredJson)
            && ReconciledFiles(g) == g
  {
  }
}
