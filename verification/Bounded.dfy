/** One submission that no other task interferes with: the policy check and then the enqueue (queue/policy.rs). */
module Bounded {
  import opened Queue
  import opened Store
  import opened Totals
  import opened Policy

  /** A clip just enqueued. */
  function NewFiles(e: Entry): Files { NO_FILES.(pendingMp4 := Some(e.byteSize), pendingJson := Some(Good(e))) }

  lemma EnqueueFits(d: Disk, e: Entry)
    requires At(d, e.clipId) == NO_FILES
    ensures var d' := Put(d, e.clipId, NewFiles(e));
            TotalClips(d') == TotalClips(d) + 1 && TotalBytes(d') == TotalBytes(d) + e.byteSize
  {
    TotalPut(d, e.clipId, NewFiles(e), Clips);
    TotalPut(d, e.clipId, NewFiles(e), Bytes);
  }

  lemma {:induction false} FreshStaysFresh(d: Disk, c: seq<Evictable>, k: nat, id: ClipId)
    requires k <= |c| && At(d, id) == NO_FILES
    ensures At(After(d, c, k), id) == NO_FILES
  {
    if k > 0 {
      FreshStaysFresh(d, c, k - 1, id);
    }
  }

  lemma SweepSparesFresh(d: Disk, p: QueuePolicy, incoming: nat, evictions: seq<EvictionRecord>, d': Disk, id: ClipId)
    requires SweptTo(d, p, incoming, evictions, d') && At(d, id) == NO_FILES
    ensures At(d', id) == NO_FILES
  {
    var c, k :| Represents(d, c) && EvictionOrder(c) && ShortestPrefix(d, p, incoming, c, k, evictions)
                && d' == After(d, c, k);
    FreshStaysFresh(d, c, k, id);
  }

  /** Media without a sidecar counts toward neither ceiling. */
  lemma NoSidecarNoTotals(d: Disk, d': Disk, id: ClipId)
    requires At(d, id) == NO_FILES && At(d', id) == NO_FILES.(pendingMp4 := At(d', id).pendingMp4)
    requires forall j :: j != id ==> At(d', j) == At(d, j)
    ensures TotalClips(d') == TotalClips(d) && TotalBytes(d') == TotalBytes(d)
  {
    TotalSame(d, d', Clips);
    TotalSame(d, d', Bytes);
  }

  /** The policy inbox: make room, then enqueue. The queue is within its ceilings after every accepted submission, also
      when the enqueue fails; a refusal changes nothing. */
  method Submit(store: QueueStore, p: QueuePolicy, id: ClipId, source: Option<nat>, capturedAt: Instant, now: Instant,
                fails: Faults)
    returns (verdict: Verdict, r: Result<Entry>)
    requires WellNamed(store.disk) && At(store.disk, id) == NO_FILES
    requires Fits(store.disk, if source.Some? then source.value else 0)
    modifies store
    ensures !verdict.Room? ==> r.Err?
    ensures verdict.QueueFull? ==> store.disk == old(store.disk)
    ensures verdict.Room? ==> TotalClips(store.disk) <= p.maxClips && TotalBytes(store.disk) <= p.maxBytes
    ensures r.Ok? <==> verdict.Room? && source.Some? && !fails(id, PlaceMedia) && !fails(id, WriteNew)
    ensures r.Ok? ==> r.value == NewEntry(id, capturedAt, now, source.value) && At(store.disk, id) == NewFiles(r.value)
    ensures verdict.Room? && r.Err? ==>
              At(store.disk, id) == NO_FILES || (fails(id, RemovePlaced) && At(store.disk, id) == NO_FILES.(pendingMp4 := source))
  {
    var incoming := if source.Some? then source.value else 0;
    ghost var was := store.disk;
    var o := ApplyPolicy(store, p, incoming, fails);
    verdict := o.verdict;
    if !verdict.Room? {
      return verdict, Err(Io);
    }
    SweepSparesFresh(was, p, incoming, o.evictions, store.disk, id);
    ghost var room := store.disk;
    r := store.EnqueueWithId(id, source, capturedAt, now, fails);
    if r.Ok? {
      EnqueueFits(room, r.value);
    } else {
      NoSidecarNoTotals(room, store.disk, id);
    }
  }
}
