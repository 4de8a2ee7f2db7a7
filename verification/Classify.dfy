/** The classify poller (delivery/classify.rs) and the pruning of finished records (queue/policy.rs). */
module Classify {
  import opened Queue
  import opened Retry

  const POLL_BUDGET: real := 86400.0

  predicate IsPollable(e: Entry) {
    && e.classifyTaskId.Some? && e.classifyLostAt.None?
    && !(e.lastClassifyStatus.Some? && e.lastClassifyStatus.value.IsTerminal())
  }

  predicate BudgetExhausted(e: Entry, now: Instant) { e.deliveredAt.Some? && now - e.deliveredAt.value >= POLL_BUDGET }

  predicate ClassifyDone(e: Entry) {
    e.classifyLostAt.Some? || (e.lastClassifyStatus.Some? && e.lastClassifyStatus.value.IsTerminal())
  }

  predicate IsPrunable(e: Entry, before: Instant) {
    e.outcome == Some(Delivered) && ClassifyDone(e) && e.deliveredAt.Some? && e.deliveredAt.value < before
  }

  // The same in terms of the fields alone, for the contracts.

  /** The classify task is over: lost, succeeded or failed. */
  predicate TaskOver(e: Entry) {
    e.classifyLostAt.Some? || e.lastClassifyStatus == Some(Success) || e.lastClassifyStatus == Some(Failed)
  }

  /** There is a task to ask about, and less than a day has passed since delivery. */
  predicate ToAsk(e: Entry, now: Instant) {
    e.classifyTaskId.Some? && !TaskOver(e) && (e.deliveredAt.Some? ==> now < e.deliveredAt.value + 86400.0)
  }

  /** There is a task to ask about, but a day or more has passed since delivery. */
  predicate ToGiveUp(e: Entry, now: Instant) {
    e.classifyTaskId.Some? && !TaskOver(e) && e.deliveredAt.Some? && e.deliveredAt.value + 86400.0 <= now
  }

  /** A delivered clip with its task over, delivered before the cutoff. */
  predicate TooOld(e: Entry, cutoff: Instant) {
    e.outcome == Some(Delivered) && TaskOver(e) && e.deliveredAt.Some? && e.deliveredAt.value < cutoff
  }

  predicate Removes(s: Sidecar, before: Instant) { s.Good? && IsPrunable(s.entry, before) }

  /** The delivered/ directory. */
  type Records = map<ClipId, Sidecar>

  /** Records as the station writes them: named after their clip, with an outcome, and Undeliverable only when no
      classify task was ever assigned. */
  predicate WrittenByStation(id: ClipId, e: Entry) {
    && e.clipId == id && e.outcome.Some?
    && (e.outcome == Some(Undeliverable) ==> e.classifyTaskId.None?)
  }

  ghost predicate RecordsOk(r: Records) {
    forall id :: id in r && r[id].Good? ==> WrittenByStation(id, r[id].entry)
  }

  /** Every id in the skip set has no record left, or one that will never be polled again. */
  ghost predicate SkipOk(r: Records, seen: set<ClipId>) {
    forall id :: id in seen && id in r ==> r[id].Good? && !IsPollable(r[id].entry)
  }

  // ---- One scan, as if every sidecar were read ----

  predicate Polled(s: Sidecar, now: Instant) { s.Good? && IsPollable(s.entry) && !BudgetExhausted(s.entry, now) }

  function ScannedRecord(s: Sidecar, now: Instant): Sidecar {
    if s.Good? && IsPollable(s.entry) && BudgetExhausted(s.entry, now)
    then Good(s.entry.(classifyLostAt := Some(now))) else s
  }

  /** `entries` lists, once each, the entries that a scan returns which reads every sidecar it can outside `todo`. */
  ghost predicate Collected(r: Records, todo: set<ClipId>, entries: seq<Entry>, now: Instant, fails: Faults) {
    && (forall i | 0 <= i < |entries| :: CollectedFrom(r, todo, entries[i], now, fails))
    && (forall id | id in r && id !in todo && Polled(r[id], now) && !fails(id, ReadDelivered) :: r[id].entry in entries)
    && (forall i, j | 0 <= i < j < |entries| :: entries[i].clipId != entries[j].clipId)
  }

  predicate CollectedFrom(r: Records, todo: set<ClipId>, e: Entry, now: Instant, fails: Faults) {
    && e.clipId in r && e.clipId !in todo && r[e.clipId] == Good(e)
    && Polled(Good(e), now) && !fails(e.clipId, ReadDelivered)
  }

  /** A corrupt sidecar that can be read and moved away. */
  predicate SetAside(s: Sidecar, id: ClipId, fails: Faults) {
    s.Corrupt? && !fails(id, ReadDelivered) && !fails(id, SetAsideSidecar)
  }

  /** The directory it leaves: corrupt sidecars quarantined, over-budget tasks marked lost. */
  ghost predicate ScanLeaves(r: Records, todo: set<ClipId>, r': Records, now: Instant, fails: Faults) {
    && (forall id :: id in r' <==> id in r && (id in todo || !SetAside(r[id], id, fails)))
    && forall id | id in r' :: r'[id] == if id in todo || fails(id, ReadDelivered) then r[id] else ScannedRecord(r[id], now)
  }

  datatype Poll = Task(status: ClassifyStatus) | PollFailed(err: ClientError)

  /** The record the poller writes after an answer; None when it writes nothing. */
  function AfterPoll(e: Entry, a: Poll, now: Instant): Option<Entry> {
    match a
    case Task(status) => Some(e.(lastClassifyStatus := Some(status)))
    case PollFailed(err) => if ClassifyPollError(err).Transient? then None else Some(e.(classifyLostAt := Some(now)))
  }

  /** The state of one scan loop; each loop step keeps it. */
  ghost predicate Scanning(was: Records, r: Records, todo: set<ClipId>, seen: set<ClipId>, entries: seq<Entry>, now: Instant,
                           fails: Faults)
  {
    && todo <= was.Keys && ScanLeaves(was, todo, r, now, fails) && Collected(was, todo, entries, now, fails)
    && SkipOk(r, seen)
  }

  lemma ScanStep(was: Records, r: Records, todo: set<ClipId>, seen: set<ClipId>, entries: seq<Entry>, now: Instant,
                 fails: Faults, id: ClipId, r': Records, seen': set<ClipId>, entries': seq<Entry>)
    requires Scanning(was, r, todo, seen, entries, now, fails) == true && RecordsOk(was) && id in todo
    requires if id in r && id !in seen && Passed(r[id], id, fails)
             then (r', seen', entries') == (r, seen, entries)
             else (r', seen', entries') == ScanOne(r, seen, entries, id, now, true)
    ensures Scanning(was, r', todo - {id}, seen', entries', now, fails) == true
  {
    assert r[id] == was[id];
    assert id in seen ==> r[id].Good? && !IsPollable(r[id].entry);
    assert ScanLeaves(was, todo - {id}, r', now, fails);
    assert entries' == entries || entries' == entries + [was[id].entry];
    if entries' != entries {
      assert entries'[|entries|] == was[id].entry;
    }
    assert Collected(was, todo - {id}, entries', now, fails);
  }

  /** The scan goes past the sidecar: it cannot be read, or is corrupt and cannot be moved away. */
  predicate Passed(s: Sidecar, id: ClipId, fails: Faults) {
    fails(id, ReadDelivered) || (s.Corrupt? && fails(id, SetAsideSidecar))
  }

  /** One turn of the scan loop. Without `skip` the sidecar is reread even if the skip set names it. */
  function ScanOne(r: Records, seen: set<ClipId>, entries: seq<Entry>, id: ClipId, now: Instant, skip: bool)
    : (Records, set<ClipId>, seq<Entry>)
  {
    if id !in r || (skip && id in seen) then (r, seen, entries)
    else if r[id].Corrupt? then (r - {id}, seen, entries)
    else
      var e := r[id].entry;
      if !IsPollable(e) then (r, seen + {e.clipId}, entries)
      else if BudgetExhausted(e, now) then (r[id := ScannedRecord(r[id], now)], seen + {e.clipId}, entries)
      else (r, seen, entries + [e])
  }

  class ClassifyPoller {
    var records: Records
    var seen: set<ClipId>

    constructor (r: Records)
      ensures records == r && seen == {}
    {
      records, seen := r, {};
    }

    /** Scan for entries to poll, skipping without reading those known finished. It returns and leaves exactly what
        a scan would that rereads every sidecar. A failed rewrite ends it with an error; what it has done by then stays. */
    method ScanNonTerminal(now: Instant, fails: Faults) returns (r: Result<seq<Entry>>)
      requires RecordsOk(records) && SkipOk(records, seen)
      modifies this
      ensures r.Ok? ==> Collected(old(records), {}, r.value, now, fails) && ScanLeaves(old(records), {}, records, now, fails)
      ensures r.Ok? ==> forall e | e in r.value :: e.clipId in old(records) && old(records)[e.clipId] == Good(e) && ToAsk(e, now)
      ensures r.Ok? ==> forall id | id in old(records) && old(records)[id].Good? && !fails(id, ReadDelivered) ::
                          && (ToAsk(old(records)[id].entry, now) ==> old(records)[id].entry in r.value)
                          && id in records && records[id] == AfterScan(old(records)[id].entry, now)
      ensures r.Err? ==> exists todo, id :: id in todo && ScanLeaves(old(records), todo, records, now, fails)
                                            && id in old(records) && GivesUpInVain(old(records)[id], id, now, fails)
      ensures SkipOk(records, seen) && old(seen) <= seen
    {
      ghost var was := records;
      var entries: seq<Entry> := [];
      var todo := records.Keys;
      while todo != {}
        invariant Scanning(was, records, todo, seen, entries, now, fails) == true
        invariant old(seen) <= seen
      {
        var id :| id in todo;
        ghost var r0, seen0, entries0 := records, seen, entries;
        if id in records && id !in seen && !Passed(records[id], id, fails) {
          if records[id].Corrupt? {
            records := records - {id};
          } else {
            var e := records[id].entry;
            if !IsPollable(e) {
              seen := seen + {e.clipId};
            } else if BudgetExhausted(e, now) {
              if fails(id, WriteDelivered) {
                return Err(Io);
              }
              records := records[id := Good(e.(classifyLostAt := Some(now)))];
              seen := seen + {e.clipId};
            } else {
              entries := entries + [e];
            }
          }
        }
        ScanStep(was, r0, todo, seen0, entries0, now, fails, id, records, seen, entries);
        todo := todo - {id};
      }
      r := Ok(entries);
    }

    /** One answer from the classify service for a scanned entry still on disk. */
    method PollOne(entry: Entry, a: Poll, now: Instant, fails: Faults) returns (ok: bool)
      requires SkipOk(records, seen) && IsPollable(entry)
      requires entry.clipId in records && records[entry.clipId] == Good(entry)
      modifies this
      ensures var w := AfterPoll(entry, a, now);
              && ok == (w.None? || !fails(entry.clipId, WriteDelivered))
              && records == if w.Some? && ok then old(records)[entry.clipId := Good(w.value)] else old(records)
      ensures SkipOk(records, seen)
      ensures seen == old(seen) + if IsPollable(records[entry.clipId].entry) then {} else {entry.clipId}
      ensures entry.clipId in seen && entry.clipId !in old(seen) ==> TaskOver(records[entry.clipId].entry)
      ensures records.Keys == old(records).Keys && forall id | id in records && id != entry.clipId :: records[id] == old(records)[id]
      ensures records[entry.clipId].Good?
      ensures var e' := records[entry.clipId].entry;
              && SameClip(entry, e') && SameAttempts(entry, e') && e'.nextAttemptAfter == entry.nextAttemptAfter
              && e'.lastError == entry.lastError && e'.outcome == entry.outcome && e'.classifyTaskId == entry.classifyTaskId
              && e'.deliveredAt == entry.deliveredAt
              && (a.Task? && ok ==> e'.lastClassifyStatus == Some(a.status) && e'.classifyLostAt == entry.classifyLostAt)
              && (a.PollFailed? && ok && e' != entry ==> e' == entry.(classifyLostAt := Some(now)))
              && (!ok ==> e' == entry)
      ensures a.PollFailed? && ok ==> (TaskOver(records[entry.clipId].entry) <==> Hopeless(a.err))
    {
      ok := true;
      match a
      case Task(status) =>
        if fails(entry.clipId, WriteDelivered) {
          return false;
        }
        records := records[entry.clipId := Good(entry.(lastClassifyStatus := Some(status)))];
        if status.IsTerminal() {
          seen := seen + {entry.clipId};
        }
      case PollFailed(err) =>
        if ClassifyPollError(err).Terminal? {
          if fails(entry.clipId, WriteDelivered) {
            return false;
          }
          records := records[entry.clipId := Good(entry.(classifyLostAt := Some(now)))];
          seen := seen + {entry.clipId};
        }
    }

    /** Age out the finished records delivered before the cutoff, and forget them in the skip set. A record that cannot be
        read or removed stays for the next round. */
    method PruneRound(now: Instant, retention: real, fails: Faults)
      requires RecordsOk(records) && SkipOk(records, seen)
      modifies this
      ensures forall id :: id in records <==> id in old(records) && !Prunes(old(records)[id], id, now - retention, fails)
      ensures forall id | id in records :: records[id] == old(records)[id]
      ensures forall id | id in old(records) && id !in records ::
                old(records)[id].Good? && TooOld(old(records)[id].entry, now - retention) && id !in seen
      ensures forall id | id in old(records) && old(records)[id].Good? && TooOld(old(records)[id].entry, now - retention) ::
                id !in records || fails(id, ReadDelivered) || fails(id, RemoveRecord)
      ensures SkipOk(records, seen) && seen <= old(seen)
      ensures old(seen) <= old(records).Keys ==> seen <= records.Keys
    {
      var cutoff := now - retention;
      ghost var was := records;
      var todo := records.Keys;
      while todo != {}
        invariant todo <= was.Keys
        invariant forall id :: id in records <==> id in was && (id in todo || !Prunes(was[id], id, cutoff, fails))
        invariant forall id | id in records :: records[id] == was[id]
        invariant forall id | id in was && id !in records :: id !in seen
        invariant seen <= old(seen) && (old(seen) <= was.Keys ==> seen <= records.Keys)
      {
        var id :| id in todo;
        if !fails(id, ReadDelivered) && Removes(records[id], cutoff) && !fails(id, RemoveRecord) {
          seen := seen - {records[id].entry.clipId};
          records := records - {id};
        }
        todo := todo - {id};
      }
    }
  }

  /** A scan rewrites only the records it gives up on, and in them only the mark. */
  function AfterScan(e: Entry, now: Instant): Sidecar {
    if ToGiveUp(e, now) then Good(e.(classifyLostAt := Some(now))) else Good(e)
  }

  predicate Prunes(s: Sidecar, id: ClipId, before: Instant, fails: Faults) {
    !fails(id, ReadDelivered) && Removes(s, before) && !fails(id, RemoveRecord)
  }

  /** Poll failures that no later poll can mend: as for an upload, but an undecodable answer is asked for again. */
  predicate Hopeless(err: ClientError) {
    if err.Http? then
      || err.status < 200 || 300 <= err.status < 408 || 408 < err.status < 425 || 425 < err.status < 429
      || 429 < err.status < 500 || err.status == 501 || 504 < err.status
    else !err.Network? && !err.Decode? && !err.UndecodableSuccess?
  }

  /** The scan finds the task over budget, and the rewriting of its record fails. */
  predicate GivesUpInVain(s: Sidecar, id: ClipId, now: Instant, fails: Faults) {
    s.Good? && IsPollable(s.entry) && BudgetExhausted(s.entry, now) && fails(id, WriteDelivered)
  }
}
