/** Queue bounds and eviction (queue/policy.rs): a census with an un-evictable floor, then a greedy sweep with running
    counters. */
module Policy {
  import opened Queue
  import opened Order
  import opened Store
  import opened Totals

  datatype Eviction = DropOldestUndelivered | RefuseNew

  datatype QueuePolicy = QueuePolicy(maxClips: nat, maxBytes: nat, eviction: Eviction)

  datatype Location = UndeliverableRecord | PendingClip

  datatype Evictable = Evictable(location: Location, entry: Entry)
  {
    /** Undeliverable records had their media unlinked, so evicting one frees no bytes. */
    function OnDiskBytes(): nat { if location.PendingClip? then entry.byteSize else 0 }
  }

  datatype Census = Census(floorClips: nat, floorBytes: nat, candidates: seq<Evictable>)

  datatype Reason = MaxClipsExceeded | MaxBytesExceeded | BothExceeded

  datatype EvictionRecord = EvictionRecord(clipId: ClipId, reason: Reason, remainingClips: nat, remainingBytes: nat)

  datatype Verdict = Room | QueueFull(currentClips: nat, currentBytes: nat) | StoreError

  datatype PolicyOutcome = PolicyOutcome(evictions: seq<EvictionRecord>, verdict: Verdict)

  // ---- What the ceilings count ----

  predicate IsUndeliverable(s: Option<Sidecar>) { IsGood(s) && s.value.entry.outcome == Some(Undeliverable) }

  function One(b: bool): nat { if b then 1 else 0 }

  function BytesOf(s: Option<Sidecar>): nat { if IsGood(s) then s.value.entry.byteSize else 0 }

  /** Slots and media bytes of one clip, and the part of each that eviction cannot free. */
  function Clips(f: Files): nat { One(IsGood(f.pendingJson)) + One(IsGood(f.inflightJson)) + One(IsGood(f.deliveredJson)) }
  function Bytes(f: Files): nat { BytesOf(f.pendingJson) + BytesOf(f.inflightJson) }
  function FloorClips(f: Files): nat {
    One(IsGood(f.inflightJson)) + One(IsGood(f.deliveredJson) && !IsUndeliverable(f.deliveredJson))
  }
  function FloorBytes(f: Files): nat { BytesOf(f.inflightJson) }

  ghost function TotalClips(d: Disk): nat { Total(d, Clips) }
  ghost function TotalBytes(d: Disk): nat { Total(d, Bytes) }
  ghost function TotalFloorClips(d: Disk): nat { Total(d, FloorClips) }
  ghost function TotalFloorBytes(d: Disk): nat { Total(d, FloorBytes) }

  ghost predicate NoCorrupt(d: Disk) {
    forall id :: At(d, id).pendingJson != Some(Corrupt) && At(d, id).inflightJson != Some(Corrupt)
                 && At(d, id).deliveredJson != Some(Corrupt)
  }

  /** No counter saturates and the byte sum does not overflow. */
  ghost predicate Fits(d: Disk, incoming: nat) { TotalClips(d) < U32_MAX && TotalBytes(d) + incoming <= U64_MAX }

  predicate Breaches(p: QueuePolicy, incoming: nat, clips: nat, bytes: nat) {
    SatAdd32(clips, 1) > p.maxClips || SatAdd64(bytes, incoming) > p.maxBytes
  }

  /** One more clip of that size fits beside what is there. */
  predicate HasRoom(p: QueuePolicy, incoming: nat, clips: nat, bytes: nat) {
    clips + 1 <= p.maxClips && bytes + incoming <= p.maxBytes
  }

  lemma BreachIsNoRoom(p: QueuePolicy, incoming: nat, clips: nat, bytes: nat)
    requires clips < U32_MAX && bytes + incoming <= U64_MAX
    ensures Breaches(p, incoming, clips, bytes) <==> !HasRoom(p, incoming, clips, bytes)
  {
  }

  // ---- Candidates ----

  predicate Older(a: Evictable, b: Evictable) {
    || a.entry.capturedAt < b.entry.capturedAt
    || (a.entry.capturedAt == b.entry.capturedAt && LexLess(a.entry.clipId, b.entry.clipId))
  }

  function SidecarAt(f: Files, l: Location): Option<Sidecar> {
    if l.PendingClip? then f.pendingJson else f.deliveredJson
  }

  predicate OnDisk(d: Disk, c: Evictable) {
    && SidecarAt(At(d, c.entry.clipId), c.location) == Some(Good(c.entry))
    && (c.location.UndeliverableRecord? ==> c.entry.outcome == Some(Undeliverable))
  }

  /** The candidates are exactly the evictable sidecars on disk, each listed once. */
  ghost predicate Represents(d: Disk, c: seq<Evictable>) {
    && (forall x :: OnDisk(d, x) <==> x in c)
    && (forall i, j | 0 <= i < j < |c| :: c[i] != c[j])
  }

  /** Undeliverable records oldest first, then pending clips oldest first. */
  ghost predicate EvictionOrder(c: seq<Evictable>) {
    Sorted(EvictedBefore, c)
  }

  predicate EvictedBefore(x: Evictable, y: Evictable) {
    if x.location == y.location then Older(x, y) else x.location.UndeliverableRecord?
  }

  function EvictedFiles(f: Files, l: Location): Files {
    if l.PendingClip? then f.(pendingMp4 := None, pendingJson := None) else f.(deliveredJson := None)
  }

  function EvictOne(d: Disk, c: Evictable): Disk {
    Put(d, c.entry.clipId, EvictedFiles(At(d, c.entry.clipId), c.location))
  }

  /** The disk after the first k candidates have been evicted. */
  ghost function After(d: Disk, c: seq<Evictable>, k: nat): Disk
    requires k <= |c|
  {
    if k == 0 then d else EvictOne(After(d, c, k - 1), c[k - 1])
  }

  function BytesOfAll(c: seq<Evictable>): nat {
    if c == [] then 0 else c[0].OnDiskBytes() + BytesOfAll(c[1..])
  }

  /** Evicting the head leaves the rest as the candidates, frees one slot and the head's bytes, and spares the floor. */
  lemma EvictHead(d: Disk, c: seq<Evictable>)
    requires WellNamed(d) && c != [] && Represents(d, c)
    ensures var d' := EvictOne(d, c[0]);
            && WellNamed(d') && Represents(d', c[1..])
            && TotalClips(d) == TotalClips(d') + 1 && TotalBytes(d) == TotalBytes(d') + c[0].OnDiskBytes()
            && TotalFloorClips(d') == TotalFloorClips(d) && TotalFloorBytes(d') == TotalFloorBytes(d)
  {
    var d', id := EvictOne(d, c[0]), c[0].entry.clipId;
    var f, g := At(d, id), EvictedFiles(At(d, id), c[0].location);
    assert c[0] in c && OnDisk(d, c[0]);
    TotalPut(d, id, g, Clips);
    TotalPut(d, id, g, Bytes);
    TotalPut(d, id, g, FloorClips);
    TotalPut(d, id, g, FloorBytes);
    assert c == [c[0]] + c[1..];
    forall x ensures OnDisk(d', x) <==> x in c[1..] {
      HeadEvictedOnly(d, c[0], x);
      assert x in c <==> x == c[0] || x in c[1..];
      if x in c[1..] {
        var k :| 0 <= k < |c[1..]| && c[1..][k] == x;
        assert c[0] != c[k + 1];
      }
    }
    forall j ensures At(d', j) == At(d, j) || j == id {}
  }

  lemma HeadEvictedOnly(d: Disk, h: Evictable, x: Evictable)
    requires OnDisk(d, h)
    ensures OnDisk(EvictOne(d, h), x) <==> OnDisk(d, x) && x != h
  {
  }

  /** The ceilings' totals are the floor plus the candidates. */
  lemma {:induction false} TotalsAreFloorPlusCandidates(d: Disk, c: seq<Evictable>)
    requires WellNamed(d) && Represents(d, c)
    ensures TotalClips(d) == TotalFloorClips(d) + |c|
    ensures TotalBytes(d) == TotalFloorBytes(d) + BytesOfAll(c)
    decreases |c|
  {
    if c == [] {
      forall id ensures Clips(At(d, id)) == FloorClips(At(d, id)) && Bytes(At(d, id)) == FloorBytes(At(d, id)) {
        var f := At(d, id);
        assert IsGood(f.pendingJson) ==> OnDisk(d, Evictable(PendingClip, f.pendingJson.value.entry));
        assert IsUndeliverable(f.deliveredJson) ==>
                 OnDisk(d, Evictable(UndeliverableRecord, f.deliveredJson.value.entry));
      }
      SumOfEqualWeights(d.Keys, d, Clips, FloorClips);
      SumOfEqualWeights(d.Keys, d, Bytes, FloorBytes);
    } else {
      EvictHead(d, c);
      TotalsAreFloorPlusCandidates(EvictOne(d, c[0]), c[1..]);
    }
  }

  // ---- The census ----

  function Cap(max: nat, n: nat): nat { if n <= max then n else max }

  function InflightClips(f: Files): nat { One(IsGood(f.inflightJson)) }
  function KeptRecords(f: Files): nat { One(IsGood(f.deliveredJson) && !IsUndeliverable(f.deliveredJson)) }

  /** A census of d: exact floor and candidates in eviction order. */
  ghost predicate IsCensus(d: Disk, c: Census) {
    && c.floorClips == Cap(U32_MAX, TotalFloorClips(d)) && c.floorBytes == Cap(U64_MAX, TotalFloorBytes(d))
    && Represents(d, c.candidates) && EvictionOrder(c.candidates)
  }

  lemma OlderStrictTotal(d: Disk, s: set<Evictable>, l: Location)
    requires forall x | x in s :: OnDisk(d, x) && x.location == l
    ensures StrictTotal(Older, s)
  {
    forall x, y | x in s && y in s ensures !Older(x, x) && (x == y || Older(x, y) || Older(y, x)) {
      LexIrreflexive(x.entry.clipId);
      LexTrichotomy(x.entry.clipId, y.entry.clipId);
    }
    forall x, y, z | x in s && y in s && z in s && Older(x, y) && Older(y, z) ensures Older(x, z) {
      if x.entry.capturedAt == y.entry.capturedAt == z.entry.capturedAt {
        LexTransitive(x.entry.clipId, y.entry.clipId, z.entry.clipId);
      }
    }
  }

  lemma CandidatesInOrder(d: Disk, u: seq<Evictable>, p: seq<Evictable>)
    requires Sorted(Older, u) && Sorted(Older, p)
    requires forall x :: x in u <==> OnDisk(d, x) && x.location.UndeliverableRecord?
    requires forall x :: x in p <==> OnDisk(d, x) && x.location.PendingClip?
    ensures Represents(d, u + p) && EvictionOrder(u + p)
  {
    var c := u + p;
    forall i, j | 0 <= i < j < |c|
      ensures c[i] != c[j]
      ensures EvictedBefore(c[i], c[j])
    {
      assert i < |u| ==> c[i] in u;
      assert i >= |u| ==> c[i] in p;
      assert j < |u| ==> c[j] in u;
      assert j >= |u| ==> c[j] in p;
      LexIrreflexive(c[i].entry.clipId);
    }
  }

  /** A disk has only one eviction order, so "the shortest prefix" names one set of clips. */
  lemma EvictionOrderUnique(d: Disk, c: seq<Evictable>, c': seq<Evictable>)
    requires Represents(d, c) && EvictionOrder(c) && Represents(d, c') && EvictionOrder(c')
    ensures c == c'
  {
    var s := Elements(c);
    forall x, y, z | x in s && y in s && z in s && EvictedBefore(x, y) && EvictedBefore(y, z)
      ensures EvictedBefore(x, z)
    {
      if x.location == y.location == z.location && x.entry.capturedAt == y.entry.capturedAt == z.entry.capturedAt {
        LexTransitive(x.entry.clipId, y.entry.clipId, z.entry.clipId);
      }
    }
    forall x, y | x in s && y in s
      ensures !EvictedBefore(x, x) && (x == y || EvictedBefore(x, y) || EvictedBefore(y, x))
    {
      assert OnDisk(d, x) && OnDisk(d, y);
      LexIrreflexive(x.entry.clipId);
      LexTrichotomy(x.entry.clipId, y.entry.clipId);
    }
    SortedUnique(EvictedBefore, c, c');
  }

  /** Tally inflight/: un-evictable, media on disk. */
  method TallyInflight(d: Disk) returns (ok: bool, clips: nat, bytes: nat)
    ensures ok <==> forall id :: At(d, id).inflightJson != Some(Corrupt)
    ensures ok ==> clips == Cap(U32_MAX, Total(d, InflightClips)) && bytes == Cap(U64_MAX, TotalFloorBytes(d))
  {
    clips, bytes := 0, 0;
    var todo, done := d.Keys, {};
    while todo != {}
      invariant todo + done == d.Keys && todo !! done
      invariant forall id | id in done :: At(d, id).inflightJson != Some(Corrupt)
      invariant clips == Cap(U32_MAX, Sum(done, d, InflightClips)) && bytes == Cap(U64_MAX, Sum(done, d, FloorBytes))
    {
      var id :| id in todo;
      SumSplit(done + {id}, d, InflightClips, id);
      SumSplit(done + {id}, d, FloorBytes, id);
      assert done + {id} - {id} == done;
      var json := d[id].inflightJson;
      if json == Some(Corrupt) {
        assert At(d, id).inflightJson == Some(Corrupt);
        return false, clips, bytes;
      }
      if json.Some? {
        clips := SatAdd32(clips, 1);
        bytes := SatAdd64(bytes, json.value.entry.byteSize);
      }
      todo, done := todo - {id}, done + {id};
    }
    assert done == d.Keys;
    ok := true;
  }

  /** Tally delivered/: records to keep count toward the floor, Undeliverable ones are candidates. */
  method TallyDelivered(d: Disk, start: nat) returns (ok: bool, clips: nat, found: set<Evictable>)
    requires start <= U32_MAX && WellNamed(d)
    ensures ok <==> forall id :: At(d, id).deliveredJson != Some(Corrupt)
    ensures ok ==> clips == Cap(U32_MAX, start + Total(d, KeptRecords))
    ensures ok ==> forall x :: x in found <==> OnDisk(d, x) && x.location.UndeliverableRecord?
  {
    clips, found := start, {};
    var todo, done := d.Keys, {};
    while todo != {}
      invariant todo + done == d.Keys && todo !! done
      invariant forall id | id in done :: At(d, id).deliveredJson != Some(Corrupt)
      invariant clips == Cap(U32_MAX, start + Sum(done, d, KeptRecords))
      invariant forall x :: x in found <==> OnDisk(d, x) && x.location.UndeliverableRecord? && x.entry.clipId in done
    {
      var id :| id in todo;
      SumSplit(done + {id}, d, KeptRecords, id);
      assert done + {id} - {id} == done;
      var json := d[id].deliveredJson;
      if json == Some(Corrupt) {
        assert At(d, id).deliveredJson == Some(Corrupt);
        return false, clips, found;
      }
      if IsUndeliverable(json) {
        found := found + {Evictable(UndeliverableRecord, json.value.entry)};
      } else if json.Some? {
        clips := SatAdd32(clips, 1);
      }
      todo, done := todo - {id}, done + {id};
    }
    assert done == d.Keys;
    ok := true;
  }

  /** Collect pending/: evictable, media on disk. */
  method CollectPending(d: Disk) returns (ok: bool, found: set<Evictable>)
    requires WellNamed(d)
    ensures ok <==> forall id :: At(d, id).pendingJson != Some(Corrupt)
    ensures ok ==> forall x :: x in found <==> OnDisk(d, x) && x.location.PendingClip?
  {
    found := {};
    var todo, done := d.Keys, {};
    while todo != {}
      invariant todo + done == d.Keys && todo !! done
      invariant forall id | id in done :: At(d, id).pendingJson != Some(Corrupt)
      invariant forall x :: x in found <==> OnDisk(d, x) && x.location.PendingClip? && x.entry.clipId in done
    {
      var id :| id in todo;
      var json := d[id].pendingJson;
      if json == Some(Corrupt) {
        assert At(d, id).pendingJson == Some(Corrupt);
        return false, found;
      }
      if json.Some? {
        found := found + {Evictable(PendingClip, json.value.entry)};
      }
      todo, done := todo - {id}, done + {id};
    }
    assert done == d.Keys;
    ok := true;
  }

  /** Records before pending clips; among either, the earlier captured first, and of equals the smaller id. */
  predicate GoesBefore(x: Evictable, y: Evictable) {
    || (x.location.UndeliverableRecord? && y.location.PendingClip?)
    || (x.location == y.location
        && (x.entry.capturedAt < y.entry.capturedAt
            || (x.entry.capturedAt == y.entry.capturedAt && LexLess(x.entry.clipId, y.entry.clipId))))
  }

  method TakeCensus(d: Disk) returns (r: Result<Census>)
    requires WellNamed(d)
    ensures r.Ok? <==> NoCorrupt(d)
    ensures r.Ok? ==> IsCensus(d, r.value)
    ensures r.Ok? ==> forall i, j | 0 <= i < j < |r.value.candidates| :: GoesBefore(r.value.candidates[i], r.value.candidates[j])
  {
    var ok, inflight, floorBytes := TallyInflight(d);
    if !ok { return Err(Deserialise); }
    var ok2, floorClips, records := TallyDelivered(d, inflight);
    if !ok2 { return Err(Deserialise); }
    var ok3, clips := CollectPending(d);
    if !ok3 { return Err(Deserialise); }
    OlderStrictTotal(d, records, UndeliverableRecord);
    OlderStrictTotal(d, clips, PendingClip);
    var u := SortBy(Older, records);
    var p := SortBy(Older, clips);
    assert forall x :: (x in u <==> x in Elements(u)) && (x in p <==> x in Elements(p));
    CandidatesInOrder(d, u, p);
    SumAdds(d.Keys, d, InflightClips, KeptRecords, FloorClips);
    var c := u + p;
    forall i, j | 0 <= i < j < |c| ensures GoesBefore(c[i], c[j]) {
      assert EvictedBefore(c[i], c[j]);
    }
    return Ok(Census(floorClips, floorBytes, u + p));
  }

  // ---- The sweep ----

  /** Slots and bytes the whole queue occupies, as the ceilings see them. */
  function CensusTotals(c: Census): (nat, nat) {
    (SatAdd32(c.floorClips, Cap(U32_MAX, |c.candidates|)), SatAdd64(c.floorBytes, BytesOfAll(c.candidates)))
  }

  function ReasonFor(p: QueuePolicy, incoming: nat, clips: nat, bytes: nat): Reason {
    var overClips, overBytes := SatAdd32(clips, 1) > p.maxClips, SatAdd64(bytes, incoming) > p.maxBytes;
    if overClips && overBytes then BothExceeded else if overBytes then MaxBytesExceeded else MaxClipsExceeded
  }

  lemma {:induction false} AfterKeeps(d: Disk, c: seq<Evictable>, k: nat)
    requires WellNamed(d) && Represents(d, c) && k <= |c|
    ensures var d' := After(d, c, k);
            && WellNamed(d') && Represents(d', c[k..])
            && TotalClips(d) == TotalClips(d') + k && TotalBytes(d') <= TotalBytes(d)
            && TotalFloorClips(d') == TotalFloorClips(d) && TotalFloorBytes(d') == TotalFloorBytes(d)
  {
    if k > 0 {
      AfterKeeps(d, c, k - 1);
      EvictHead(After(d, c, k - 1), c[k - 1..]);
      assert c[k - 1..][1..] == c[k..];
    } else {
      assert c[0..] == c;
    }
  }

  /** Evicting every candidate brings the queue down to its floor, and no further. */
  lemma AllEvictedIsFloor(d: Disk, c: seq<Evictable>)
    requires WellNamed(d) && Represents(d, c)
    ensures TotalClips(After(d, c, |c|)) == TotalFloorClips(d)
    ensures TotalBytes(After(d, c, |c|)) == TotalFloorBytes(d)
  {
    AfterKeeps(d, c, |c|);
    TotalsAreFloorPlusCandidates(After(d, c, |c|), c[|c|..]);
  }

  /** No eviction touches inflight/ or a record that is not Undeliverable. */
  lemma {:induction false} FloorUntouched(d: Disk, c: seq<Evictable>, k: nat, id: ClipId)
    requires WellNamed(d) && Represents(d, c) && k <= |c|
    ensures var f, g := At(d, id), At(After(d, c, k), id);
            && g.inflightJson == f.inflightJson && g.inflightMp4 == f.inflightMp4
            && (!IsUndeliverable(f.deliveredJson) ==> g.deliveredJson == f.deliveredJson)
  {
    if k > 0 {
      FloorUntouched(d, c, k - 1, id);
      AfterKeeps(d, c, k - 1);
      assert c[k - 1..][0] in c[k - 1..];
      assert c[k - 1] in c && OnDisk(d, c[k - 1]);
    }
  }

  /** The sweep evicted exactly the shortest prefix of the candidates that makes room, and each record carries what a
      fresh census would count right after that eviction. */
  ghost predicate ShortestPrefix(d: Disk, p: QueuePolicy, incoming: nat, c: seq<Evictable>, k: nat,
                                 evictions: seq<EvictionRecord>)
  {
    && k <= |c| && |evictions| == k
    && HasRoom(p, incoming, TotalClips(After(d, c, k)), TotalBytes(After(d, c, k)))
    && forall j | 0 <= j < k :: Evicted(d, p, incoming, c, j, evictions[j])
  }

  ghost predicate Evicted(d: Disk, p: QueuePolicy, incoming: nat, c: seq<Evictable>, j: nat, r: EvictionRecord)
    requires j < |c|
  {
    var clips, bytes := TotalClips(After(d, c, j)), TotalBytes(After(d, c, j));
    var overClips, overBytes := clips + 1 > p.maxClips, bytes + incoming > p.maxBytes;
    && (overClips || overBytes) && r.clipId == c[j].entry.clipId
    && (r.reason.BothExceeded? <==> overClips && overBytes)
    && (r.reason.MaxClipsExceeded? <==> overClips && !overBytes)
    && r.remainingClips == TotalClips(After(d, c, j + 1)) && r.remainingBytes == TotalBytes(After(d, c, j + 1))
  }

  ghost predicate SweptTo(d: Disk, p: QueuePolicy, incoming: nat, evictions: seq<EvictionRecord>, d': Disk) {
    exists c, k :: Represents(d, c) && EvictionOrder(c) && ShortestPrefix(d, p, incoming, c, k, evictions)
                   && d' == After(d, c, k)
  }

  predicate EvictOk(d: Disk, c: Evictable, fails: Faults) {
    var id := c.entry.clipId;
    !(c.location.PendingClip? && At(d, id).pendingMp4.Some? && fails(id, EvictMedia)) && !fails(id, EvictSidecar)
  }

  /** An eviction that failed at its first or at its second unlink. */
  function HalfEvicted(d: Disk, c: Evictable, fails: Faults): Disk {
    var id := c.entry.clipId;
    if c.location.PendingClip? && !fails(id, EvictMedia) then Put(d, id, At(d, id).(pendingMp4 := None)) else d
  }

  method Evict(store: QueueStore, c: Evictable, fails: Faults) returns (ok: bool)
    modifies store
    ensures ok == EvictOk(old(store.disk), c, fails)
    ensures ok ==> store.disk == EvictOne(old(store.disk), c)
    ensures !ok ==> forall id :: At(store.disk, id) == At(HalfEvicted(old(store.disk), c, fails), id)
    ensures forall id :: id != c.entry.clipId ==> At(store.disk, id) == At(old(store.disk), id)
    ensures var f, g := At(old(store.disk), c.entry.clipId), At(store.disk, c.entry.clipId);
            && g.inflightJson == f.inflightJson && g.inflightMp4 == f.inflightMp4
            && (ok ==> SidecarAt(g, c.location).None? && (c.location.PendingClip? ==> g.pendingMp4.None?))
            && (!ok ==> g.pendingJson == f.pendingJson && g.deliveredJson == f.deliveredJson)
            && (!ok && c.location.UndeliverableRecord? ==> g == f)
            && (!ok && c.location.PendingClip? ==>
                  if f.pendingMp4.Some? && fails(c.entry.clipId, EvictMedia) then g == f else g.pendingMp4.None?)
  {
    var id := c.entry.clipId;
    if c.location.PendingClip? {
      if At(store.disk, id).pendingMp4.Some? {
        if fails(id, EvictMedia) {
          return false;
        }
        store.disk := Put(store.disk, id, At(store.disk, id).(pendingMp4 := None));
      }
      if fails(id, EvictSidecar) {
        return false;
      }
      store.disk := Put(store.disk, id, At(store.disk, id).(pendingJson := None));
    } else {
      if fails(id, EvictSidecar) {
        return false;
      }
      store.disk := Put(store.disk, id, At(store.disk, id).(deliveredJson := None));
    }
    return true;
  }

  /** The sweep stopped at a failing eviction: the clips evicted so far are reported, and each of those evictions was
      needed; the next candidate is evicted half or not at all. */
  ghost predicate SweepStopped(d: Disk, p: QueuePolicy, incoming: nat, evictions: seq<EvictionRecord>, d': Disk, fails: Faults) {
    exists c, k :: Represents(d, c) && EvictionOrder(c) && StoppedAfter(d, p, incoming, c, k, evictions, d', fails)
  }

  ghost predicate StoppedAfter(d: Disk, p: QueuePolicy, incoming: nat, c: seq<Evictable>, k: nat,
                               evictions: seq<EvictionRecord>, d': Disk, fails: Faults)
  {
    && k < |c| && |evictions| == k && !EvictOk(After(d, c, k), c[k], fails)
    && (forall id :: At(d', id) == At(HalfEvicted(After(d, c, k), c[k], fails), id))
    && forall j | 0 <= j < k :: Evicted(d, p, incoming, c, j, evictions[j])
  }

  /** While a ceiling is breached there is a next candidate, and evicting it changes the totals by one slot and its bytes. */
  lemma NextEviction(was: Disk, p: QueuePolicy, incoming: nat, c: seq<Evictable>, k: nat)
    requires WellNamed(was) && Represents(was, c) && k <= |c|
    requires Breaches(p, incoming, TotalClips(After(was, c, k)), TotalBytes(After(was, c, k)))
    requires !Breaches(p, incoming, TotalFloorClips(was), TotalFloorBytes(was))
    ensures k < |c| && TotalClips(After(was, c, k)) == TotalClips(After(was, c, k + 1)) + 1
    ensures TotalBytes(After(was, c, k)) == TotalBytes(After(was, c, k + 1)) + c[k].OnDiskBytes()
  {
    AfterKeeps(was, c, k);
    assert k < |c| by {
      if k == |c| { AllEvictedIsFloor(was, c); }
    }
    EvictHead(After(was, c, k), c[k..]);
  }

  lemma TotalsFit(was: Disk, c: seq<Evictable>, k: nat, incoming: nat)
    requires WellNamed(was) && Represents(was, c) && k <= |c| && Fits(was, incoming)
    ensures Fits(After(was, c, k), incoming)
  {
    AfterKeeps(was, c, k);
  }

  /** The record of the next eviction says why it was needed and what a fresh census would count after it. */
  lemma NotedEviction(was: Disk, p: QueuePolicy, incoming: nat, c: seq<Evictable>, k: nat)
    requires WellNamed(was) && Represents(was, c) && k < |c| && Fits(was, incoming)
    requires Breaches(p, incoming, TotalClips(After(was, c, k)), TotalBytes(After(was, c, k)))
    ensures var clips, bytes := TotalClips(After(was, c, k)), TotalBytes(After(was, c, k));
            Evicted(was, p, incoming, c, k, EvictionRecord(c[k].entry.clipId, ReasonFor(p, incoming, clips, bytes),
                                                           TotalClips(After(was, c, k + 1)), TotalBytes(After(was, c, k + 1))))
  {
    TotalsFit(was, c, k, incoming);
    BreachIsNoRoom(p, incoming, TotalClips(After(was, c, k)), TotalBytes(After(was, c, k)));
  }

  // ---- Oldest first, in terms of the records themselves ----

  /** x was captured before y, or at the same instant and has the smaller id. */
  predicate CapturedBefore(x: Entry, y: Entry) {
    if x.capturedAt == y.capturedAt then LexLess(x.clipId, y.clipId) else x.capturedAt < y.capturedAt
  }

  predicate PendingGone(d: Disk, d': Disk, id: ClipId) { IsGood(At(d, id).pendingJson) && At(d', id).pendingJson.None? }

  predicate RecordGone(d: Disk, d': Disk, id: ClipId) {
    IsUndeliverable(At(d, id).deliveredJson) && At(d', id).deliveredJson.None?
  }

  /** Of the pending clips, and of the Undeliverable records, those that are gone were captured before those that are left;
      and no pending clip is gone while an Undeliverable record is left. */
  ghost predicate OldestWentFirst(d: Disk, d': Disk) {
    && (forall a, b :: PendingGone(d, d', a) && IsGood(At(d', b).pendingJson) ==>
          CapturedBefore(At(d, a).pendingJson.value.entry, At(d', b).pendingJson.value.entry))
    && (forall a, b :: RecordGone(d, d', a) && IsUndeliverable(At(d', b).deliveredJson) ==>
          CapturedBefore(At(d, a).deliveredJson.value.entry, At(d', b).deliveredJson.value.entry))
    && (forall a, b :: PendingGone(d, d', a) ==> !IsUndeliverable(At(d', b).deliveredJson))
  }

  /** Whatever is in inflight/, and every record that is not Undeliverable, is as it was. */
  ghost predicate FloorKept(d: Disk, d': Disk) {
    forall id ::
      && At(d', id).inflightJson == At(d, id).inflightJson && At(d', id).inflightMp4 == At(d, id).inflightMp4
      && (IsGood(At(d, id).deliveredJson) && At(d, id).deliveredJson.value.entry.outcome != Some(Undeliverable) ==>
            At(d', id).deliveredJson == At(d, id).deliveredJson)
  }

  /** The same sidecars, whatever the media. */
  ghost predicate SameSidecars(d: Disk, d': Disk) {
    forall id :: At(d', id).pendingJson == At(d, id).pendingJson && At(d', id).deliveredJson == At(d, id).deliveredJson
  }

  lemma GoneBeforeLeft(d: Disk, c: seq<Evictable>, k: nat, x: Evictable, y: Evictable)
    requires WellNamed(d) && Represents(d, c) && EvictionOrder(c) && k <= |c|
    requires OnDisk(d, x) && !OnDisk(After(d, c, k), x) && OnDisk(After(d, c, k), y)
    ensures EvictedBefore(x, y)
  {
    AfterKeeps(d, c, k);
    assert x in c && y in c[k..] && x !in c[k..];
    var i :| 0 <= i < |c| && c[i] == x;
    var j :| 0 <= j < |c[k..]| && c[k..][j] == y;
    assert forall m | 0 <= m < |c| - k :: c[k..][m] == c[k + m] && c[k..][m] in c[k..];
    assert c[k + j] == y;
  }

  lemma PrefixIsOldest(d: Disk, c: seq<Evictable>, k: nat, d': Disk)
    requires WellNamed(d) && Represents(d, c) && EvictionOrder(c) && k <= |c| && SameSidecars(After(d, c, k), d')
    ensures OldestWentFirst(d, d')
  {
    AfterKeeps(d, c, k);
    forall a, b | PendingGone(d, d', a) && IsGood(At(d', b).pendingJson)
      ensures CapturedBefore(At(d, a).pendingJson.value.entry, At(d', b).pendingJson.value.entry)
    {
      assert FilesNamed(a, At(d, a)) && FilesNamed(b, At(After(d, c, k), b));
      GoneBeforeLeft(d, c, k, Evictable(PendingClip, At(d, a).pendingJson.value.entry),
                     Evictable(PendingClip, At(d', b).pendingJson.value.entry));
    }
    forall a, b | RecordGone(d, d', a) && IsUndeliverable(At(d', b).deliveredJson)
      ensures CapturedBefore(At(d, a).deliveredJson.value.entry, At(d', b).deliveredJson.value.entry)
    {
      assert FilesNamed(a, At(d, a)) && FilesNamed(b, At(After(d, c, k), b));
      GoneBeforeLeft(d, c, k, Evictable(UndeliverableRecord, At(d, a).deliveredJson.value.entry),
                     Evictable(UndeliverableRecord, At(d', b).deliveredJson.value.entry));
    }
    RecordsFirst(d, c, k, d');
  }

  lemma RecordsFirst(d: Disk, c: seq<Evictable>, k: nat, d': Disk)
    requires WellNamed(d) && Represents(d, c) && EvictionOrder(c) && k <= |c| && SameSidecars(After(d, c, k), d')
    ensures forall a, b :: PendingGone(d, d', a) ==> !IsUndeliverable(At(d', b).deliveredJson)
  {
    AfterKeeps(d, c, k);
    forall a, b | PendingGone(d, d', a) ensures !IsUndeliverable(At(d', b).deliveredJson) {
      assert FilesNamed(a, At(d, a)) && FilesNamed(b, At(After(d, c, k), b));
      var x := Evictable(PendingClip, At(d, a).pendingJson.value.entry);
      assert OnDisk(d, x) && !OnDisk(After(d, c, k), x);
      if IsUndeliverable(At(d', b).deliveredJson) {
        GoneBeforeLeft(d, c, k, x, Evictable(UndeliverableRecord, At(d', b).deliveredJson.value.entry));
      }
    }
  }

  lemma PrefixKeepsFloor(d: Disk, c: seq<Evictable>, k: nat, d': Disk)
    requires WellNamed(d) && Represents(d, c) && k <= |c| && SameSidecars(After(d, c, k), d')
    requires forall id :: At(d', id).inflightJson == At(After(d, c, k), id).inflightJson
                          && At(d', id).inflightMp4 == At(After(d, c, k), id).inflightMp4
    ensures FloorKept(d, d')
  {
    forall id ensures At(d', id).inflightJson == At(d, id).inflightJson && At(d', id).inflightMp4 == At(d, id).inflightMp4
                      && (!IsUndeliverable(At(d, id).deliveredJson) ==> At(d', id).deliveredJson == At(d, id).deliveredJson) {
      FloorUntouched(d, c, k, id);
    }
  }

  lemma SweptOldestFirst(d: Disk, p: QueuePolicy, incoming: nat, evictions: seq<EvictionRecord>, d': Disk)
    requires WellNamed(d) && SweptTo(d, p, incoming, evictions, d')
    ensures OldestWentFirst(d, d') && FloorKept(d, d')
  {
    var c, k :| Represents(d, c) && EvictionOrder(c) && ShortestPrefix(d, p, incoming, c, k, evictions)
                && d' == After(d, c, k);
    PrefixIsOldest(d, c, k, d');
    PrefixKeepsFloor(d, c, k, d');
  }

  lemma StoppedOldestFirst(d: Disk, p: QueuePolicy, incoming: nat, evictions: seq<EvictionRecord>, d': Disk, fails: Faults)
    requires WellNamed(d) && SweepStopped(d, p, incoming, evictions, d', fails)
    ensures OldestWentFirst(d, d') && FloorKept(d, d')
  {
    var c, k :| Represents(d, c) && EvictionOrder(c) && StoppedAfter(d, p, incoming, c, k, evictions, d', fails);
    PrefixIsOldest(d, c, k, d');
    PrefixKeepsFloor(d, c, k, d');
  }

  /** The greedy loop. The candidates cannot run out: with none left the queue is at its floor, which has room. */
  method Sweep(store: QueueStore, p: QueuePolicy, incoming: nat, census: Census, fails: Faults)
    returns (evictions: seq<EvictionRecord>, ok: bool)
    requires WellNamed(store.disk) && Fits(store.disk, incoming) && IsCensus(store.disk, census)
    requires !Breaches(p, incoming, TotalFloorClips(store.disk), TotalFloorBytes(store.disk))
    modifies store
    ensures ok ==> SweptTo(old(store.disk), p, incoming, evictions, store.disk)
    ensures !ok ==> SweepStopped(old(store.disk), p, incoming, evictions, store.disk, fails)
  {
    ghost var was := store.disk;
    var c := census.candidates;
    var (clips, bytes) := CensusTotals(census);
    TotalsAreFloorPlusCandidates(was, c);
    evictions := [];
    var k := 0;
    while Breaches(p, incoming, clips, bytes)
      invariant k <= |c| == |census.candidates| && |evictions| == k
      invariant store.disk == After(was, c, k)
      invariant clips == TotalClips(store.disk) && bytes == TotalBytes(store.disk)
      invariant forall j | 0 <= j < k :: Evicted(was, p, incoming, c, j, evictions[j])
      decreases |c| - k
    {
      NextEviction(was, p, incoming, c, k);
      NotedEviction(was, p, incoming, c, k);
      var reason := ReasonFor(p, incoming, clips, bytes);
      ok := Evict(store, c[k], fails);
      if !ok {
        assert StoppedAfter(was, p, incoming, c, k, evictions, store.disk, fails);
        return;
      }
      clips := SatSub(clips, 1);
      bytes := SatSub(bytes, c[k].OnDiskBytes());
      evictions := evictions + [EvictionRecord(c[k].entry.clipId, reason, clips, bytes)];
      k := k + 1;
    }
    TotalsFit(was, c, k, incoming);
    BreachIsNoRoom(p, incoming, clips, bytes);
    assert ShortestPrefix(was, p, incoming, c, k, evictions);
    ok := true;
  }

  /** There is room, or evicting every candidate would make it. */
  ghost predicate Acceptable(d: Disk, p: QueuePolicy, incoming: nat) {
    || HasRoom(p, incoming, TotalClips(d), TotalBytes(d))
    || (p.eviction.DropOldestUndelivered? && HasRoom(p, incoming, TotalFloorClips(d), TotalFloorBytes(d)))
  }

  /** Make room for an incoming clip, or refuse it.

      Under DropOldestUndelivered it accepts exactly when the floor leaves room, that is when evicting every candidate
      would; it then deletes the shortest sufficient prefix, unless an unlink fails. Every refusal deletes nothing. */
  method ApplyPolicy(store: QueueStore, p: QueuePolicy, incoming: nat, fails: Faults) returns (o: PolicyOutcome)
    requires WellNamed(store.disk) && Fits(store.disk, incoming)
    modifies store
    ensures !NoCorrupt(old(store.disk)) ==> o == PolicyOutcome([], StoreError) && store.disk == old(store.disk)
    ensures NoCorrupt(old(store.disk)) ==> (o.verdict.QueueFull? <==> !Acceptable(old(store.disk), p, incoming))
    ensures o.verdict.QueueFull? ==>
              && o == PolicyOutcome([], QueueFull(TotalClips(old(store.disk)), TotalBytes(old(store.disk))))
              && store.disk == old(store.disk)
    ensures o.verdict.StoreError? && NoCorrupt(old(store.disk)) ==>
              SweepStopped(old(store.disk), p, incoming, o.evictions, store.disk, fails)
    ensures o.verdict.Room? ==>
              && SweptTo(old(store.disk), p, incoming, o.evictions, store.disk)
              && TotalClips(store.disk) + 1 <= p.maxClips && TotalBytes(store.disk) + incoming <= p.maxBytes
    ensures OldestWentFirst(old(store.disk), store.disk) && FloorKept(old(store.disk), store.disk)
  {
    ghost var was := store.disk;
    NothingWent(was);
    var r := TakeCensus(store.disk);
    if r.Err? {
      return PolicyOutcome([], StoreError);
    }
    var census := r.value;
    var (clips, bytes) := CensusTotals(census);
    TotalsAreFloorPlusCandidates(was, census.candidates);
    BreachIsNoRoom(p, incoming, clips, bytes);
    BreachIsNoRoom(p, incoming, census.floorClips, census.floorBytes);
    if !Breaches(p, incoming, clips, bytes) {
      assert ShortestPrefix(was, p, incoming, census.candidates, 0, []);
      return PolicyOutcome([], Room);
    }
    if p.eviction.RefuseNew? || Breaches(p, incoming, census.floorClips, census.floorBytes) {
      return PolicyOutcome([], QueueFull(clips, bytes));
    }
    var evictions, ok := Sweep(store, p, incoming, census, fails);
    if !ok {
      StoppedOldestFirst(was, p, incoming, evictions, store.disk, fails);
      return PolicyOutcome(evictions, StoreError);
    }
    SweptOldestFirst(was, p, incoming, evictions, store.disk);
    SweptFits(was, p, incoming, evictions, store.disk);
    return PolicyOutcome(evictions, Room);
  }

  lemma NothingWent(d: Disk)
    ensures OldestWentFirst(d, d)
  {
  }

  lemma SweptFits(d: Disk, p: QueuePolicy, incoming: nat, evictions: seq<EvictionRecord>, d': Disk)
    requires WellNamed(d) && Fits(d, incoming) && SweptTo(d, p, incoming, evictions, d')
    ensures TotalClips(d') + 1 <= p.maxClips && TotalBytes(d') + incoming <= p.maxBytes
  {
    var c, k :| Represents(d, c) && EvictionOrder(c) && ShortestPrefix(d, p, incoming, c, k, evictions)
                && d' == After(d, c, k);
    AfterKeeps(d, c, k);
  }
}
