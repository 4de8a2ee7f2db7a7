/** Runs that push the queue past its ceilings, wherever that can happen at all. */
module OverrunRuns {
  import opened Queue
  import opened Totals
  import opened Policy
  import opened Bounded
  import opened Admission
  import opened Ceilings
  import opened Overrun

  // ---- Putting runs together ----

  ghost predicate Leads(s: Station, p: QueuePolicy, evs: seq<Event>, t: Station) { PlainRun(s, p, evs) && Run(s, p, evs) == t }

  lemma {:induction false} LeadsCat(s: Station, p: QueuePolicy, first: seq<Event>, t: Station, second: seq<Event>, u: Station)
    requires Leads(s, p, first, t) && Leads(t, p, second, u)
    ensures Leads(s, p, first + second, u)
    decreases |first|
  {
    if first == [] {
      assert first + second == second;
    } else {
      LeadsCat(Apply(s, p, first[0]), p, first[1..], t, second, u);
      assert (first + second)[1..] == first[1..] + second && (first + second)[0] == first[0];
    }
  }

  lemma LeadsOne(s: Station, p: QueuePolicy, ev: Event)
    requires Enabled(s, p, ev) && Plain(ev)
    ensures Leads(s, p, [ev], Apply(s, p, ev))
  {
    var evs, t := [ev], Apply(s, p, ev);
    assert evs[1..] == [] && evs[0] == ev;
    assert Valid(t, p, evs[1..]) && Run(t, p, evs[1..]) == t;
    assert Valid(s, p, evs) && Run(s, p, evs) == t;
  }

  lemma LeadsOn(s: Station, p: QueuePolicy, evs: seq<Event>, t: Station, ev: Event)
    requires Leads(s, p, evs, t) && Enabled(t, p, ev) && Plain(ev)
    ensures Leads(s, p, evs + [ev], Apply(t, p, ev))
  {
    LeadsOne(t, p, ev);
    LeadsCat(s, p, evs, t, [ev], Apply(t, p, ev));
  }

  // ---- A census that nothing interrupts while it reads a directory ----

  function Read(d: Disk, dir: Directory, todo: set<ClipId>, seen: Disk, id: ClipId): Files {
    if id in todo then WithJson(At(seen, id), dir, JsonIn(At(d, id), dir)) else At(seen, id)
  }

  lemma {:induction false} ReadAll(s: Station, p: QueuePolicy) returns (evs: seq<Event>, t: Station)
    requires s.task.Reading? && forall id | id in s.task.todo :: IsGood(JsonIn(At(s.disk, id), s.task.dir))
    ensures Leads(s, p, evs, t) && t.task.Reading? && t == s.(task := s.task.(todo := {}, seen := t.task.seen))
    ensures forall id :: At(t.task.seen, id) == Read(s.disk, s.task.dir, s.task.todo, s.task.seen, id)
    decreases |s.task.todo|
  {
    if s.task.todo == {} {
      return [], s;
    }
    var id :| id in s.task.todo;
    var u := Apply(s, p, ReadOne(id));
    var rest;
    rest, t := ReadAll(u, p);
    LeadsOne(s, p, ReadOne(id));
    LeadsCat(s, p, [ReadOne(id)], u, rest, t);
    evs := [ReadOne(id)] + rest;
  }

  /** Read the directory in hand, and go on to the next. */
  lemma ReadAndNext(s: Station, p: QueuePolicy) returns (evs: seq<Event>, t: Station, seen: Disk)
    requires s.task.Reading? && s.task.todo == Listing(s.disk, s.task.dir) && NoCorrupt(s.disk)
    ensures Leads(s, p, evs, t)
    ensures t == s.(task := NextStep(s.disk, s.task.(todo := {}, seen := seen)))
    ensures forall id :: At(seen, id) == Read(s.disk, s.task.dir, s.task.todo, s.task.seen, id)
  {
    forall id | id in s.task.todo ensures IsGood(JsonIn(At(s.disk, id), s.task.dir)) {
      assert At(s.disk, id).pendingJson != Some(Corrupt);
    }
    var steps, u := ReadAll(s, p);
    seen := u.task.seen;
    LeadsOn(s, p, steps, u, NextDirectory);
    evs, t := steps + [NextDirectory], Apply(u, p, NextDirectory);
  }

  /** Delivery takes a clip up between two steps of the census. */
  function Taken(s: Station, taken: Option<ClipId>): Disk
    requires taken.Some? ==> Startable(At(s.disk, taken.value))
  {
    if taken.None? then s.disk
    else
      var f := At(s.disk, taken.value);
      Put(s.disk, taken.value, InflightFiles(f, f.pendingJson.value.entry, 0.0))
  }

  lemma ReadInflight(s: Station, p: QueuePolicy, incoming: nat) returns (evs: seq<Event>, t: Station, seen: Disk)
    requires s.task.Resting? && NoCorrupt(s.disk)
    ensures Leads(s, p, evs, t)
    ensures t == s.(task := Reading(incoming, DeliveredDir, Listing(s.disk, DeliveredDir), seen), slipped := {})
    ensures forall id :: At(seen, id) == NO_FILES.(inflightJson := At(s.disk, id).inflightJson)
  {
    var s1 := Apply(s, p, Ask(incoming));
    LeadsOne(s, p, Ask(incoming));
    var a;
    a, t, seen := ReadAndNext(s1, p);
    LeadsCat(s, p, [Ask(incoming)], s1, a, t);
    evs := [Ask(incoming)] + a;
  }

  lemma ReadRest(s: Station, p: QueuePolicy) returns (evs: seq<Event>, t: Station, seen: Disk)
    requires s.task.Reading? && s.task.dir.DeliveredDir? && s.task.todo == Listing(s.disk, DeliveredDir) && NoCorrupt(s.disk)
    requires forall id :: At(s.task.seen, id).deliveredJson.None? && At(s.task.seen, id).pendingJson.None?
    ensures Leads(s, p, evs, t) && t == s.(task := Sweeping(s.task.incoming, seen))
    ensures forall id :: SeenAs(At(seen, id), At(s.task.seen, id), At(s.disk, id))
  {
    var a, s1, seen1 := ReadAndNext(s, p);
    var b;
    b, t, seen := ReadAndNext(s1, p);
    LeadsCat(s, p, a, s1, b, t);
    evs := a + b;
  }

  /** A census during which delivery takes up at most one clip, right after inflight/ has been read. */
  lemma CensusRun(s: Station, p: QueuePolicy, incoming: nat, taken: Option<ClipId>)
    returns (evs: seq<Event>, t: Station, seen: Disk)
    requires s.task.Resting? && s.current.None? && NoCorrupt(s.disk)
    requires taken.Some? ==> Startable(At(s.disk, taken.value))
    ensures Leads(s, p, evs, t)
    ensures t.task == Sweeping(incoming, seen) && t.disk == Taken(s, taken) && t.current == taken && t.limit == s.limit
    ensures forall id :: SeenAs(At(seen, id), At(s.disk, id), At(Taken(s, taken), id))
  {
    var s1, seen1;
    evs, s1, seen1 := ReadInflight(s, p, incoming);
    var s2 := s1;
    if taken.Some? {
      var ev := TakeUp(taken.value, 0.0);
      s2 := Apply(s1, p, ev);
      LeadsOn(s, p, evs, s1, ev);
      evs := evs + [ev];
      assert Listing(s2.disk, DeliveredDir) == Listing(s.disk, DeliveredDir);
    }
    NoCorruptTaken(s, taken);
    var rest;
    rest, t, seen := ReadRest(s2, p);
    LeadsCat(s, p, evs, s2, rest, t);
    evs := evs + rest;
  }

  lemma NoCorruptTaken(s: Station, taken: Option<ClipId>)
    requires NoCorrupt(s.disk) && (taken.Some? ==> Startable(At(s.disk, taken.value)))
    ensures NoCorrupt(Taken(s, taken))
  {
    forall id
      ensures At(Taken(s, taken), id).pendingJson != Some(Corrupt) && At(Taken(s, taken), id).inflightJson != Some(Corrupt)
              && At(Taken(s, taken), id).deliveredJson != Some(Corrupt)
    {
      assert At(s.disk, id).pendingJson != Some(Corrupt);
    }
  }

  /** Of a clip whose files were f when inflight/ was read and f' when the other directories were, the census saw g. */
  predicate SeenAs(g: Files, f: Files, f': Files) {
    g.inflightJson == f.inflightJson && g.deliveredJson == f'.deliveredJson && g.pendingJson == f'.pendingJson
  }

  // ---- A clip that the census misses ----

  lemma MissedTotals(s: Station, a: ClipId, seen: Disk)
    requires ClipOk(s, a) && Startable(At(s.disk, a))
    requires forall id :: SeenAs(At(seen, id), At(s.disk, id), At(Taken(s, Some(a)), id))
    ensures TotalClips(seen) == TotalClips(s.disk) - 1 && TotalBytes(seen) == TotalBytes(s.disk) - Bytes(At(s.disk, a))
  {
    var d := Put(s.disk, a, NO_FILES);
    TotalPut(s.disk, a, NO_FILES, Clips);
    TotalPut(s.disk, a, NO_FILES, Bytes);
    forall id ensures Clips(At(seen, id)) == Clips(At(d, id)) && Bytes(At(seen, id)) == Bytes(At(d, id)) {
      assert SeenAs(At(seen, id), At(s.disk, id), At(Taken(s, Some(a)), id));
    }
    TotalSame(d, seen, Clips);
    TotalSame(d, seen, Bytes);
  }

  lemma TakenTotals(s: Station, a: ClipId)
    requires ClipOk(s, a) && Startable(At(s.disk, a))
    ensures TotalClips(Taken(s, Some(a))) == TotalClips(s.disk) && TotalBytes(Taken(s, Some(a))) == TotalBytes(s.disk)
  {
    var d := Taken(s, Some(a));
    TotalPut(s.disk, a, At(d, a), Clips);
    TotalPut(s.disk, a, At(d, a), Bytes);
  }

  /** Delivery is at rest, no sidecar is corrupt, and the queue would have room for e but for the clip a, which delivery
      can take up: then e can be accepted although a stays. */
  lemma MissedRun(s: Station, p: QueuePolicy, e: Entry, a: ClipId) returns (before: seq<Event>)
    requires Inv(s) && s.task.Resting? && s.current.None? && NoCorrupt(s.disk) && At(s.disk, e.clipId) == NO_FILES
    requires p.maxClips <= U32_MAX && p.maxBytes <= U64_MAX && Startable(At(s.disk, a))
    requires TotalClips(s.disk) <= p.maxClips && TotalBytes(s.disk) - Bytes(At(s.disk, a)) + e.byteSize <= p.maxBytes
    ensures Admits(s, p, e, before, [])
    ensures TotalClips(Final(s, p, e, before, [])) == TotalClips(s.disk) + 1
    ensures TotalBytes(Final(s, p, e, before, [])) == TotalBytes(s.disk) + e.byteSize
  {
    var t, seen;
    before, t, seen := CensusRun(s, p, e.byteSize, Some(a));
    assert ClipOk(s, a);
    MissedTotals(s, a, seen);
    TakenTotals(s, a);
    assert Enabled(t, p, Accept);
    AcceptedAt(s, p, e, before, t);
  }

  /** A run up to an acceptance is an accepted submission. */
  lemma AcceptedAt(s: Station, p: QueuePolicy, e: Entry, before: seq<Event>, t: Station)
    requires Leads(s, p, before, t) && Enabled(t, p, Accept) && t.task.incoming == e.byteSize && At(t.disk, e.clipId) == NO_FILES
    ensures Admits(s, p, e, before, [])
    ensures TotalClips(Final(s, p, e, before, [])) == TotalClips(t.disk) + 1
    ensures TotalBytes(Final(s, p, e, before, [])) == TotalBytes(t.disk) + e.byteSize
  {
    var a := Apply(t, p, Accept);
    assert Run(a, p, []) == a && PlainRun(a, p, []);
    EnqueueFits(t.disk, e);
  }

  lemma AdmitsAfter(b: Station, p: QueuePolicy, pre: seq<Event>, t: Station, e: Entry, before: seq<Event>)
    requires Leads(b, p, pre, t) && Admits(t, p, e, before, [])
    ensures Admits(b, p, e, pre + before, []) && Final(b, p, e, pre + before, []) == Final(t, p, e, before, [])
  {
    LeadsCat(b, p, pre, t, before, Run(t, p, before));
  }

  // ---- Bringing delivery to rest ----

  /** What becomes of the clip that delivery is at work on: returned if it can be, otherwise concluded. */
  predicate Settled(b: Station, s: Station, id: ClipId) {
    var f, g := At(b.disk, id), At(s.disk, id);
    && Clips(g) == Clips(f)
    && (b.current != Some(id) ==> g == f)
    && (b.current == Some(id) ==>
          if Movable(b, id) then Startable(g) && Bytes(g) == Bytes(f) else g.pendingJson.None? && g.inflightJson.None?)
  }

  lemma SettleRun(b: Station, p: QueuePolicy) returns (evs: seq<Event>, s: Station)
    requires Inv(b) && b.task.Resting?
    ensures Leads(b, p, evs, s) && Inv(s) && s.task.Resting? && s.current.None?
    ensures forall id :: Settled(b, s, id)
  {
    if b.current.None? {
      forall id ensures Settled(b, b, id) {}
      return [], b;
    }
    var c := b.current.value;
    assert ClipOk(b, c);
    var e := At(b.disk, c).inflightJson.value.entry.(clipId := c);
    var ev := if Movable(b, c) then Return(e) else Conclude(e);
    LeadsOne(b, p, ev);
    evs, s := [ev], Apply(b, p, ev);
    StepKeepsInv(b, p, ev);
  }

  // ---- Clearing the way, clip by clip ----

  /** Corrupt sidecars are set aside; of the clips that need not be kept, those with media are delivered and those without
      are dropped. */
  function Cleared(f: Files, id: ClipId, keep: bool): Files {
    if f.pendingJson == Some(Corrupt) then QuarantinedFiles(f)
    else if f.deliveredJson == Some(Corrupt) then f.(deliveredJson := None)
    else if keep || !IsGood(f.pendingJson) then f
    else if f.pendingMp4.None? then OrphanRemovedFiles(f)
    else DeliveredAtOnce(f, id)
  }

  function DeliveredAtOnce(f: Files, id: ClipId): Files
    requires IsGood(f.pendingJson)
  {
    var e := f.pendingJson.value.entry;
    DeliveredFiles(InflightFiles(f, e, 0.0), Bumped(e, 0.0).(clipId := id))
  }

  /** Nothing has changed but the files of one clip. */
  ghost predicate Changed(s: Station, t: Station, id: ClipId, f: Files) {
    && t.task == s.task && t.current == s.current && t.limit == s.limit
    && forall j :: At(t.disk, j) == if j == id then f else At(s.disk, j)
  }

  lemma ClearOne(s: Station, p: QueuePolicy, id: ClipId, keep: bool) returns (evs: seq<Event>, t: Station)
    requires Inv(s) && s.task.Resting? && s.current.None?
    ensures Leads(s, p, evs, t) && Inv(t) && Changed(s, t, id, Cleared(At(s.disk, id), id, keep))
  {
    var f := At(s.disk, id);
    assert ClipOk(s, id);
    if f.pendingJson == Some(Corrupt) {
      evs, t := OneStep(s, p, SetAside(id));
    } else if f.deliveredJson == Some(Corrupt) {
      evs, t := OneStep(s, p, SetAsideRecord(id));
    } else if keep || !IsGood(f.pendingJson) {
      evs, t := [], s;
    } else if f.pendingMp4.None? {
      evs, t := OneStep(s, p, DropOrphan(id));
    } else {
      evs, t := Deliver(s, p, id);
    }
  }

  lemma OneStep(s: Station, p: QueuePolicy, ev: Event) returns (evs: seq<Event>, t: Station)
    requires Inv(s) && Enabled(s, p, ev) && Plain(ev)
    ensures Leads(s, p, evs, t) && Inv(t) && t == Apply(s, p, ev)
  {
    LeadsOne(s, p, ev);
    StepKeepsInv(s, p, ev);
    evs, t := [ev], Apply(s, p, ev);
  }

  lemma Deliver(s: Station, p: QueuePolicy, id: ClipId) returns (evs: seq<Event>, t: Station)
    requires Inv(s) && s.task.Resting? && s.current.None? && Startable(At(s.disk, id))
    ensures Leads(s, p, evs, t) && Inv(t)
    ensures Changed(s, t, id, DeliveredAtOnce(At(s.disk, id), id))
  {
    var e := Bumped(At(s.disk, id).pendingJson.value.entry, 0.0);
    var take, s1 := OneStep(s, p, TakeUp(id, 0.0));
    assert At(s1.disk, id).inflightJson == Some(Good(e));
    assert ClipOk(s, id);
    var conclude;
    conclude, t := OneStep(s1, p, Conclude(e.(clipId := id)));
    LeadsCat(s, p, take, s1, conclude, t);
    evs := take + conclude;
  }

  lemma {:induction false} ClearRun(s: Station, p: QueuePolicy, todo: set<ClipId>, keep: set<ClipId>)
    returns (evs: seq<Event>, t: Station)
    requires Inv(s) && s.task.Resting? && s.current.None?
    ensures Leads(s, p, evs, t) && Inv(t) && t.task.Resting? && t.current.None?
    ensures forall id :: At(t.disk, id) == if id in todo then Cleared(At(s.disk, id), id, id in keep) else At(s.disk, id)
    decreases |todo|
  {
    if todo == {} {
      return [], s;
    }
    var id :| id in todo;
    var one, s1 := ClearOne(s, p, id, id in keep);
    var rest;
    rest, t := ClearRun(s1, p, todo - {id}, keep);
    LeadsCat(s, p, one, s1, rest, t);
    evs := one + rest;
  }

  /** Delivery brought to rest and the way cleared, from any state between submissions. */
  lemma PrepareRun(b: Station, p: QueuePolicy, keep: set<ClipId>) returns (evs: seq<Event>, s: Station, t: Station)
    requires Inv(b) && b.task.Resting? && (forall id :: At(b.disk, id).inflightJson != Some(Corrupt))
    ensures Leads(b, p, evs, t) && Inv(t) && t.task.Resting? && t.current.None? && NoCorrupt(t.disk)
    ensures forall id :: Settled(b, s, id) && At(t.disk, id) == Cleared(At(s.disk, id), id, id in keep)
    ensures forall id :: OnePlace(At(s.disk, id))
  {
    var settle, clear;
    settle, s := SettleRun(b, p);
    clear, t := ClearRun(s, p, s.disk.Keys, keep);
    LeadsCat(b, p, settle, s, clear, t);
    evs := settle + clear;
    forall id
      ensures OnePlace(At(s.disk, id)) && At(t.disk, id) == Cleared(At(s.disk, id), id, id in keep)
      ensures At(t.disk, id).pendingJson != Some(Corrupt) && At(t.disk, id).inflightJson != Some(Corrupt)
              && At(t.disk, id).deliveredJson != Some(Corrupt)
    {
      assert ClipOk(s, id) && Settled(b, s, id) && ClipOk(b, id);
      assert At(b.disk, id).inflightJson != Some(Corrupt);
    }
  }

  /** What a kept clip and one that is not kept hold afterwards. */
  lemma PreparedWeights(b: Station, s: Station, t: Station, keep: set<ClipId>, id: ClipId)
    requires ClipOk(b, id) && Settled(b, s, id) && OnePlace(At(s.disk, id))
    requires At(t.disk, id) == Cleared(At(s.disk, id), id, id in keep)
    ensures Clips(At(t.disk, id)) <= Clips(At(b.disk, id))
    ensures Fixed(b, id) && id in keep ==> Clips(At(t.disk, id)) == Clips(At(b.disk, id)) && Bytes(At(t.disk, id)) == Bytes(At(b.disk, id))
    ensures !Fixed(b, id) ==> Clips(At(t.disk, id)) == Clips(At(b.disk, id))
    ensures Movable(b, id) && id in keep ==> Startable(At(t.disk, id)) && Bytes(At(t.disk, id)) == Bytes(At(b.disk, id))
    ensures !Fixed(b, id) && (id !in keep || !Movable(b, id)) ==> Bytes(At(t.disk, id)) == 0
    ensures Fixed(b, id) && id !in keep && (!IsGood(At(b.disk, id).inflightJson) || Bytes(At(b.disk, id)) == 0) ==>
              Bytes(At(t.disk, id)) == 0
  {
  }

  // ---- If ----

  ghost predicate NoCorruptInflight(b: Station) { forall id :: At(b.disk, id).inflightJson != Some(Corrupt) }

  /** The clips of `keep` can be kept while the bytes of all others are released. */
  ghost predicate Keepable(b: Station, keep: set<ClipId>, m: ClipId) {
    && keep <= MovableIds(b) + FixedIds(b) && m in keep && Movable(b, m)
    && forall id | id in FixedIds(b) && id !in keep :: !IsGood(At(b.disk, id).inflightJson) || Bytes(At(b.disk, id)) == 0
  }

  /** Ready for a submission: nothing at work, nothing corrupt, m at hand, and the bytes are those of the kept clips. */
  ghost predicate Poised(b: Station, t: Station, keep: set<ClipId>, m: ClipId) {
    && Inv(t) && t.task.Resting? && t.current.None? && NoCorrupt(t.disk)
    && Startable(At(t.disk, m)) && Bytes(At(t.disk, m)) == Bytes(At(b.disk, m))
    && TotalBytes(t.disk) == Sum(keep, b.disk, Bytes) && TotalClips(t.disk) <= TotalClips(b.disk)
    && (FixedIds(b) <= keep ==> TotalClips(t.disk) == TotalClips(b.disk))
    && forall id :: At(b.disk, id) == NO_FILES ==> At(t.disk, id) == NO_FILES
  }

  lemma PoisedRun(b: Station, p: QueuePolicy, keep: set<ClipId>, m: ClipId) returns (evs: seq<Event>, t: Station)
    requires Inv(b) && b.task.Resting? && NoCorruptInflight(b) && Keepable(b, keep, m)
    ensures Leads(b, p, evs, t) && Poised(b, t, keep, m)
  {
    var s;
    evs, s, t := PrepareRun(b, p, keep);
    forall id
      ensures Clips(At(t.disk, id)) <= Clips(At(b.disk, id))
      ensures FixedIds(b) <= keep ==> Clips(At(t.disk, id)) == Clips(At(b.disk, id))
      ensures id !in keep ==> Bytes(At(t.disk, id)) == 0
      ensures id in keep ==> Bytes(At(t.disk, id)) == Bytes(At(b.disk, id))
      ensures id == m ==> Startable(At(t.disk, id))
      ensures At(b.disk, id) == NO_FILES ==> At(t.disk, id) == NO_FILES
    {
      PreparedClip(b, s, t, keep, m, id);
    }
    TotalMonotone(b.disk, t.disk, Clips);
    if FixedIds(b) <= keep {
      TotalSame(b.disk, t.disk, Clips);
    }
    KeptBytes(b, t, keep);
  }

  lemma PreparedClip(b: Station, s: Station, t: Station, keep: set<ClipId>, m: ClipId, id: ClipId)
    requires Inv(b) && Settled(b, s, id) && OnePlace(At(s.disk, id)) && Keepable(b, keep, m)
    requires At(t.disk, id) == Cleared(At(s.disk, id), id, id in keep)
    ensures Clips(At(t.disk, id)) <= Clips(At(b.disk, id))
    ensures FixedIds(b) <= keep ==> Clips(At(t.disk, id)) == Clips(At(b.disk, id))
    ensures id !in keep ==> Bytes(At(t.disk, id)) == 0
    ensures id in keep ==> Bytes(At(t.disk, id)) == Bytes(At(b.disk, id))
    ensures id == m ==> Startable(At(t.disk, id))
    ensures At(b.disk, id) == NO_FILES ==> At(t.disk, id) == NO_FILES
  {
    assert ClipOk(b, id);
    PreparedWeights(b, s, t, keep, id);
    assert Fixed(b, id) && id !in FixedIds(b) ==> At(b.disk, id) == NO_FILES;
  }

  lemma OverClipsIf(b: Station, p: QueuePolicy, e: Entry, m: ClipId) returns (before: seq<Event>)
    requires Inv(b) && b.task.Resting? && NoCorruptInflight(b) && At(b.disk, e.clipId) == NO_FILES
    requires p.maxClips <= U32_MAX && p.maxBytes <= U64_MAX
    requires TotalClips(b.disk) == p.maxClips && Movable(b, m) && FixedBytes(b) + e.byteSize <= p.maxBytes
    ensures OverClips(b, p, e, before, [])
  {
    var keep := FixedIds(b) + {m};
    var pre, t := PoisedRun(b, p, keep, m);
    SumSplit(keep, b.disk, Bytes, m);
    assert keep - {m} == FixedIds(b);
    var rest := MissedRun(t, p, e, m);
    AdmitsAfter(b, p, pre, t, e, rest);
    before := pre + rest;
  }

  lemma KeptBytes(b: Station, t: Station, keep: set<ClipId>)
    requires forall id | id !in keep :: Bytes(At(t.disk, id)) == 0
    requires forall id | id in keep :: Bytes(At(t.disk, id)) == Bytes(At(b.disk, id))
    ensures TotalBytes(t.disk) == Sum(keep, b.disk, Bytes)
  {
    TotalUpTo(map[], t.disk, keep, Bytes);
    SumWithin(keep, t.disk, Bytes);
    SumMonotone(keep, b.disk, t.disk, Bytes);
    SumMonotone(keep, t.disk, b.disk, Bytes);
  }

  /** Adding clips one by one to a sum that fits, until it does not: the one at which it stops fitting, and those before. */
  lemma {:induction false} Crossing(s: set<ClipId>, d: Disk, base: nat, limit: nat) returns (below: set<ClipId>, at: ClipId)
    requires base <= limit < base + Sum(s, d, Bytes)
    ensures below <= s && at in s && at !in below
    ensures base + Sum(below, d, Bytes) <= limit < base + Sum(below, d, Bytes) + Bytes(At(d, at))
  {
    var x :| x in s;
    SumSplit(s, d, Bytes, x);
    if base + Bytes(At(d, x)) > limit {
      below, at := {}, x;
    } else {
      below, at := Crossing(s - {x}, d, base + Bytes(At(d, x)), limit);
      SumSplit(below + {x}, d, Bytes, x);
      assert below + {x} - {x} == below;
      below := below + {x};
    }
  }

  lemma OverBytesIf(b: Station, p: QueuePolicy, e: Entry, kept: set<ClipId>) returns (before: seq<Event>)
    requires Inv(b) && b.task.Resting? && NoCorruptInflight(b) && At(b.disk, e.clipId) == NO_FILES
    requires p.maxClips <= U32_MAX && p.maxBytes <= U64_MAX
    requires TotalClips(b.disk) <= p.maxClips && Straddles(b, p, e.byteSize, kept)
    ensures OverBytes(b, p, e, before, [])
  {
    var below, m := Crossing(MovableIds(b), b.disk, Sum(kept, b.disk, Bytes) + e.byteSize, p.maxBytes);
    var keep := kept + below + {m};
    var pre, t := PoisedRun(b, p, keep, m);
    SumSplit(keep, b.disk, Bytes, m);
    assert keep - {m} == kept + below && (kept + below) - kept == below;
    SumPartition(kept + below, kept, b.disk, Bytes);
    var rest := MissedRun(t, p, e, m);
    AdmitsAfter(b, p, pre, t, e, rest);
    before := pre + rest;
  }

  // ---- The exact conditions ----

  /** A submission of e, with no crash and no failing call, can leave more than max_clips clips in the queue if and only if
      the queue is full, delivery can take some clip up, and e fits into max_bytes beside the clips that nobody moves. It
      makes no difference which eviction policy is set. */
  lemma OverClipsExactly(b: Station, p: QueuePolicy, e: Entry)
    requires Inv(b) && b.task.Resting? && Within(b, p) && NoCorruptInflight(b) && At(b.disk, e.clipId) == NO_FILES
    requires p.maxClips <= U32_MAX && p.maxBytes <= U64_MAX
    ensures (exists before, after :: OverClips(b, p, e, before, after))
       <==> TotalClips(b.disk) == p.maxClips && (exists m :: Movable(b, m)) && FixedBytes(b) + e.byteSize <= p.maxBytes
  {
    forall before, after | OverClips(b, p, e, before, after)
      ensures TotalClips(b.disk) == p.maxClips && (exists m :: Movable(b, m)) && FixedBytes(b) + e.byteSize <= p.maxBytes
    {
      OverClipsOnlyIf(b, p, e, before, after);
    }
    if TotalClips(b.disk) == p.maxClips && (exists m :: Movable(b, m)) && FixedBytes(b) + e.byteSize <= p.maxBytes {
      var m :| Movable(b, m);
      var before := OverClipsIf(b, p, e, m);
      assert OverClips(b, p, e, before, []);
    }
  }

  /** It can leave more than max_bytes bytes if and only if, beside some of the clips that nobody moves, e fits alone and
      does not fit together with the clips that delivery can take up. */
  lemma OverBytesExactly(b: Station, p: QueuePolicy, e: Entry)
    requires Inv(b) && b.task.Resting? && Within(b, p) && NoCorruptInflight(b) && At(b.disk, e.clipId) == NO_FILES
    requires p.maxClips <= U32_MAX && p.maxBytes <= U64_MAX
    ensures (exists before, after :: OverBytes(b, p, e, before, after)) <==> exists kept :: Straddles(b, p, e.byteSize, kept)
  {
    forall before, after | OverBytes(b, p, e, before, after) ensures exists kept :: Straddles(b, p, e.byteSize, kept) {
      var kept := OverBytesOnlyIf(b, p, e, before, after);
    }
    if kept :| Straddles(b, p, e.byteSize, kept) {
      var before := OverBytesIf(b, p, e, kept);
      assert OverBytes(b, p, e, before, []);
    }
  }

  // ---- An eviction in vain ----

  lemma SameTotals(d: Disk, seen: Disk)
    requires forall id :: SeenAs(At(seen, id), At(d, id), At(d, id))
    ensures TotalClips(seen) == TotalClips(d) && TotalBytes(seen) == TotalBytes(d)
    ensures TotalFloorClips(seen) == TotalFloorClips(d) && TotalFloorBytes(seen) == TotalFloorBytes(d)
    ensures forall c :: OnDisk(seen, c) <==> OnDisk(d, c)
  {
    forall id
      ensures Clips(At(seen, id)) == Clips(At(d, id)) && Bytes(At(seen, id)) == Bytes(At(d, id))
      ensures FloorClips(At(seen, id)) == FloorClips(At(d, id)) && FloorBytes(At(seen, id)) == FloorBytes(At(d, id))
    {
      assert SeenAs(At(seen, id), At(d, id), At(d, id));
    }
    TotalSame(d, seen, Clips);
    TotalSame(d, seen, Bytes);
    TotalSame(d, seen, FloorClips);
    TotalSame(d, seen, FloorBytes);
    forall c ensures OnDisk(seen, c) <==> OnDisk(d, c) {
      assert SeenAs(At(seen, c.entry.clipId), At(d, c.entry.clipId), At(d, c.entry.clipId));
    }
  }

  /** The two unlinks of a candidate that delivery has taken up since the census: the planner counts a slot and bytes as
      freed, and nothing has changed on disk. */
  lemma VainUnlinks(s: Station, p: QueuePolicy, c: Evictable) returns (evs: seq<Event>, t: Station)
    requires s.task.Sweeping? && c.location.PendingClip? && IsHead(s.task.seen, c) && MustEvict(p, s.task.incoming, s.task.seen)
    requires At(s.disk, c.entry.clipId).pendingJson.None? && At(s.disk, c.entry.clipId).pendingMp4.None?
    ensures Leads(s, p, evs, t) && t.task.Sweeping? && t.task.incoming == s.task.incoming
    ensures forall id :: At(t.disk, id) == At(s.disk, id)
    ensures TotalClips(t.task.seen) == TotalClips(s.task.seen) - 1
    ensures TotalBytes(t.task.seen) == TotalBytes(s.task.seen) - c.entry.byteSize
  {
    var u := Apply(s, p, FirstUnlink(c));
    LeadsOne(s, p, FirstUnlink(c));
    LeadsOn(s, p, [FirstUnlink(c)], u, SecondUnlink);
    evs, t := [FirstUnlink(c)] + [SecondUnlink], Apply(u, p, SecondUnlink);
    var id, seen := c.entry.clipId, s.task.seen;
    TotalPut(seen, id, EvictedFiles(At(seen, id), PendingClip), Clips);
    TotalPut(seen, id, EvictedFiles(At(seen, id), PendingClip), Bytes);
  }

  /** Under the evicting policy the planner can also be misled after its census: the next candidate is a pending clip that
      delivery takes up before the unlinks, which then find nothing and count as an eviction. */
  lemma EvictionInVain(b: Station, p: QueuePolicy, c: Evictable, e: Entry) returns (before: seq<Event>)
    requires Inv(b) && b.task.Resting? && b.current.None? && NoCorrupt(b.disk) && At(b.disk, e.clipId) == NO_FILES
    requires p.maxClips <= U32_MAX && p.maxBytes <= U64_MAX && TotalClips(b.disk) <= p.maxClips
    requires c.location.PendingClip? && IsHead(b.disk, c) && Startable(At(b.disk, c.entry.clipId))
    requires MustEvict(p, e.byteSize, b.disk) && TotalBytes(b.disk) - c.entry.byteSize + e.byteSize <= p.maxBytes
    ensures Admits(b, p, e, before, [])
    ensures TotalClips(Final(b, p, e, before, [])) == TotalClips(b.disk) + 1
    ensures TotalBytes(Final(b, p, e, before, [])) == TotalBytes(b.disk) + e.byteSize
  {
    var id := c.entry.clipId;
    assert ClipOk(b, id);
    var s2;
    before, s2 := TakenAfterCensus(b, p, c, e.byteSize);
    var unlinks, s3 := VainUnlinks(s2, p, c);
    LeadsCat(b, p, before, s2, unlinks, s3);
    before := before + unlinks;
    TakenTotals(b, id);
    TotalSame(s2.disk, s3.disk, Clips);
    TotalSame(s2.disk, s3.disk, Bytes);
    assert Enabled(s3, p, Accept);
    AcceptedAt(b, p, e, before, s3);
  }

  lemma TakenAfterCensus(b: Station, p: QueuePolicy, c: Evictable, incoming: nat) returns (evs: seq<Event>, t: Station)
    requires b.task.Resting? && b.current.None? && NoCorrupt(b.disk) && IsHead(b.disk, c) && MustEvict(p, incoming, b.disk)
    requires Startable(At(b.disk, c.entry.clipId))
    ensures Leads(b, p, evs, t) && t.disk == Taken(b, Some(c.entry.clipId))
    ensures t.task.Sweeping? && t.task.incoming == incoming && IsHead(t.task.seen, c) && MustEvict(p, incoming, t.task.seen)
    ensures TotalClips(t.task.seen) == TotalClips(b.disk) && TotalBytes(t.task.seen) == TotalBytes(b.disk)
  {
    var s, seen;
    evs, s, seen := CensusRun(b, p, incoming, None);
    SameTotals(b.disk, seen);
    var take := TakeUp(c.entry.clipId, 0.0);
    LeadsOn(b, p, evs, s, take);
    evs, t := evs + [take], Apply(s, p, take);
  }
}
