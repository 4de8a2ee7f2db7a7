/** When a submission can push the queue past its ceilings, exactly. */
module Overrun {
  import opened Queue
  import opened Totals
  import opened Policy
  import opened Bounded
  import opened Admission
  import opened Ceilings

  // ---- The runs in question ----

  /** Anything but an enqueue or a boot. */
  predicate Plain(ev: Event) { !ev.Enqueue? && !ev.Boot? }

  ghost predicate PlainRun(s: Station, p: QueuePolicy, evs: seq<Event>) {
    Valid(s, p, evs) && forall ev :: ev in evs ==> Plain(ev)
  }

  /** One accepted submission of the clip e: any plain run up to the acceptance, any plain run from there, the enqueue. */
  ghost predicate Admits(s: Station, p: QueuePolicy, e: Entry, before: seq<Event>, after: seq<Event>) {
    && PlainRun(s, p, before) && Enabled(Run(s, p, before), p, Accept)
    && var a := Apply(Run(s, p, before), p, Accept);
       && a.task == Admitted(e.byteSize)
       && PlainRun(a, p, after) && (forall ev :: ev in after ==> !ev.EnqueueFails?)
       && Enabled(Run(a, p, after), p, Enqueue(e))
  }

  ghost function Final(s: Station, p: QueuePolicy, e: Entry, before: seq<Event>, after: seq<Event>): Disk
    requires Admits(s, p, e, before, after)
  {
    Apply(Run(Apply(Run(s, p, before), p, Accept), p, after), p, Enqueue(e)).disk
  }

  ghost predicate OverClips(s: Station, p: QueuePolicy, e: Entry, before: seq<Event>, after: seq<Event>) {
    Admits(s, p, e, before, after) && TotalClips(Final(s, p, e, before, after)) > p.maxClips
  }

  ghost predicate OverBytes(s: Station, p: QueuePolicy, e: Entry, before: seq<Event>, after: seq<Event>) {
    Admits(s, p, e, before, after) && TotalBytes(Final(s, p, e, before, after)) > p.maxBytes
  }

  // ---- The clips that matter ----

  /** Delivery can take the clip up, at once or after returning it to pending/. */
  predicate Movable(s: Station, id: ClipId) {
    var f := At(s.disk, id);
    Startable(f) || (s.current == Some(id) && IsGood(f.inflightJson) && f.inflightJson.value.entry.attempts < s.limit)
  }

  /** Neither that, nor the clip that delivery is at work on: an orphan sidecar in pending/, a clip left in inflight/ or
      a record. */
  predicate Fixed(s: Station, id: ClipId) { !Movable(s, id) && s.current != Some(id) }

  ghost function MovableIds(s: Station): set<ClipId> { set id | id in s.disk && Movable(s, id) }
  ghost function FixedIds(s: Station): set<ClipId> { set id | id in s.disk && Fixed(s, id) }

  ghost function MovableBytes(s: Station): nat { Sum(MovableIds(s), s.disk, Bytes) }
  ghost function FixedBytes(s: Station): nat { Sum(FixedIds(s), s.disk, Bytes) }

  // ---- What every plain run keeps, seen from its start ----

  ghost predicate Follows(b: Station, s: Station, id: ClipId) {
    var f0, f := At(b.disk, id), At(s.disk, id);
    && s.limit == b.limit
    && Clips(f) <= Clips(f0) && (Bytes(f) == 0 || Bytes(f) == Bytes(f0))
    && (Movable(s, id) ==> Movable(b, id))
    && (Checking(s.task) && id in s.slipped ==> Movable(b, id))
    && (s.current == Some(id) ==> Movable(b, id) || b.current == Some(id))
    && (Fixed(b, id) ==>
          && f.inflightJson == f0.inflightJson && (f.pendingJson == f0.pendingJson || f.pendingJson.None?)
          && (f0.deliveredJson.None? ==> f.deliveredJson.None?))
    && (b.current == Some(id) && !Movable(b, id) ==>
          if s.current == Some(id) then f.inflightJson == f0.inflightJson && f.pendingJson.None?
          else f.inflightJson.None? && f.pendingJson.None?)
  }

  /** While delivery is at its last attempt on a clip, it takes no other up. */
  ghost predicate Occupied(b: Station, s: Station) {
    b.current.Some? && !Movable(b, b.current.value) && s.current == b.current && Checking(s.task) ==> s.slipped == {}
  }

  ghost predicate From(b: Station, s: Station) { Occupied(b, s) && forall id :: Follows(b, s, id) }

  lemma DeliveryFollows(b: Station, s: Station, p: QueuePolicy, ev: Event, id: ClipId)
    requires ClipOk(b, id) && ClipOk(s, id) && Follows(b, s, id) && Enabled(s, p, ev) && (ev.TakeUp? || ev.Return? || ev.Conclude?)
    ensures Follows(b, Apply(s, p, ev), id)
  {
  }

  lemma OtherStepFollows(b: Station, s: Station, p: QueuePolicy, ev: Event, id: ClipId)
    requires ClipOk(b, id) && ClipOk(s, id) && Follows(b, s, id) && Enabled(s, p, ev)
    requires OfOthers(ev) && !ev.TakeUp? && !ev.Return? && !ev.Conclude?
    ensures Follows(b, Apply(s, p, ev), id)
  {
  }

  predicate Unlinks(ev: Event) { ev.FirstUnlink? || ev.SecondUnlink? }

  function VictimOf(s: Station, ev: Event): ClipId
    requires Unlinks(ev) && (ev.SecondUnlink? ==> s.task.Unlinking?)
  {
    if ev.FirstUnlink? then ev.victim.entry.clipId else s.task.victim.entry.clipId
  }

  lemma UnlinkFollows(b: Station, s: Station, p: QueuePolicy, ev: Event, id: ClipId)
    requires ClipOk(b, id) && ClipOk(s, id) && Follows(b, s, id) && Enabled(s, p, ev) && Unlinks(ev)
    ensures Follows(b, Apply(s, p, ev), id)
  {
    var t := Apply(s, p, ev);
    assert t.current == s.current && t.limit == s.limit && t.slipped == s.slipped && Checking(s.task);
    if VictimOf(s, ev) != id {
      assert At(t.disk, id) == At(s.disk, id);
    } else {
      UnlinkedFiles(b, s, t, id);
    }
  }

  /** A clip of which an unlink has removed the pending media, the pending sidecar or the record. */
  lemma UnlinkedFiles(b: Station, s: Station, t: Station, id: ClipId)
    requires ClipOk(b, id) && ClipOk(s, id) && Follows(b, s, id)
    requires t.current == s.current && t.limit == s.limit && t.slipped == s.slipped && Checking(s.task) && Checking(t.task)
    requires var f := At(s.disk, id);
             At(t.disk, id) in {f, f.(pendingMp4 := None), f.(pendingJson := None), f.(deliveredJson := None)}
    ensures Follows(b, t, id)
  {
  }

  /** The other steps of a submission leave the disk and delivery alone. */
  lemma ReadingFollows(b: Station, s: Station, p: QueuePolicy, ev: Event, id: ClipId)
    requires Follows(b, s, id) && Enabled(s, p, ev) && Plain(ev) && !OfOthers(ev) && !Unlinks(ev)
    ensures Follows(b, Apply(s, p, ev), id)
  {
    var t := Apply(s, p, ev);
    assert t.disk == s.disk && t.current == s.current && t.limit == s.limit;
    assert Checking(t.task) ==> t.slipped == {} || (Checking(s.task) && t.slipped == s.slipped);
  }

  lemma StepFrom(b: Station, s: Station, p: QueuePolicy, ev: Event)
    requires Inv(b) && Inv(s) && From(b, s) && Enabled(s, p, ev) && Plain(ev)
    ensures From(b, Apply(s, p, ev))
  {
    forall id ensures Follows(b, Apply(s, p, ev), id) {
      assert ClipOk(b, id) && ClipOk(s, id) && Follows(b, s, id);
      if ev.TakeUp? || ev.Return? || ev.Conclude? {
        DeliveryFollows(b, s, p, ev, id);
      } else if OfOthers(ev) {
        OtherStepFollows(b, s, p, ev, id);
      } else if Unlinks(ev) {
        UnlinkFollows(b, s, p, ev, id);
      } else {
        ReadingFollows(b, s, p, ev, id);
      }
    }
    if b.current.Some? {
      assert Follows(b, s, b.current.value) && ClipOk(s, b.current.value);
    }
  }

  lemma {:induction false} RunFrom(b: Station, s: Station, p: QueuePolicy, evs: seq<Event>)
    requires Inv(b) && Inv(s) && From(b, s) && PlainRun(s, p, evs)
    ensures From(b, Run(s, p, evs)) && Inv(Run(s, p, evs))
    decreases |evs|
  {
    if evs != [] {
      assert Plain(evs[0]);
      StepFrom(b, s, p, evs[0]);
      StepKeepsInv(s, p, evs[0]);
      RunFrom(b, Apply(s, p, evs[0]), p, evs[1..]);
    }
  }

  lemma {:induction false} RunShrinks(s: Station, p: QueuePolicy, evs: seq<Event>)
    requires PlainRun(s, p, evs)
    ensures TotalClips(Run(s, p, evs).disk) <= TotalClips(s.disk) && TotalBytes(Run(s, p, evs).disk) <= TotalBytes(s.disk)
    decreases |evs|
  {
    if evs != [] {
      assert Plain(evs[0]);
      TotalsNeverGrow(s, p, evs[0]);
      RunShrinks(Apply(s, p, evs[0]), p, evs[1..]);
    }
  }

  lemma FromItself(b: Station)
    requires Inv(b) && b.task.Resting?
    ensures From(b, b)
  {
    forall id ensures Follows(b, b, id) {
      assert ClipOk(b, id);
    }
  }

  /** What an accepted submission says of the state at its acceptance. */
  lemma AtAcceptance(b: Station, p: QueuePolicy, e: Entry, before: seq<Event>, after: seq<Event>)
    requires Inv(b) && b.task.Resting? && Admits(b, p, e, before, after)
    ensures var a := Run(b, p, before);
            && Inv(a) && From(b, a) && a.task.Sweeping?
            && TotalClips(a.disk) <= TotalClips(b.disk) && TotalBytes(a.disk) <= TotalBytes(b.disk)
            && TotalClips(a.task.seen) + 1 <= p.maxClips && TotalBytes(a.task.seen) + e.byteSize <= p.maxBytes
            && TotalClips(Final(b, p, e, before, after)) <= TotalClips(a.disk) + 1
            && TotalBytes(Final(b, p, e, before, after)) <= TotalBytes(a.disk) + e.byteSize
            && TotalClips(Final(b, p, e, before, after)) <= TotalClips(b.disk) + 1
  {
    FromItself(b);
    RunFrom(b, b, p, before);
    RunShrinks(b, p, before);
    var a := Apply(Run(b, p, before), p, Accept);
    RunShrinks(a, p, after);
    EnqueueFits(Run(a, p, after).disk, e);
  }

  // ---- Only if ----

  lemma CountedBytes(b: Station, a: Station, id: ClipId)
    requires Inv(a) && From(b, a) && a.task.Sweeping? && Fixed(b, id)
    ensures Bytes(At(a.disk, id)) <= Bytes(At(a.task.seen, id))
  {
    assert ClipOk(a, id) && Follows(b, a, id);
  }

  lemma SumWithin(t: set<ClipId>, d: Disk, w: Files -> nat)
    requires w(NO_FILES) == 0
    ensures Sum(t, d, w) <= Total(d, w)
  {
    var s := d.Keys + t;
    SumPad(d.Keys, s, d, w);
    SumPartition(s, t, d, w);
  }

  lemma SomethingSlipped(a: Station)
    requires Inv(a) && a.task.Sweeping?
    requires TotalClips(a.disk) > TotalClips(a.task.seen) || TotalBytes(a.disk) > TotalBytes(a.task.seen)
    ensures a.slipped != {}
  {
    Accounting(a);
  }

  lemma OverClipsOnlyIf(b: Station, p: QueuePolicy, e: Entry, before: seq<Event>, after: seq<Event>)
    requires Inv(b) && b.task.Resting? && Within(b, p) && OverClips(b, p, e, before, after)
    ensures TotalClips(b.disk) == p.maxClips && (exists id :: Movable(b, id)) && FixedBytes(b) + e.byteSize <= p.maxBytes
  {
    AtAcceptance(b, p, e, before, after);
    var a := Run(b, p, before);
    SomethingSlipped(a);
    var m :| m in a.slipped;
    assert Follows(b, a, m);
    forall id ensures Clips(At(a.disk, id)) == Clips(At(b.disk, id)) {
      SlotsHeld(b, a, id);
    }
    forall id | id in FixedIds(b) ensures Bytes(At(b.disk, id)) <= Bytes(At(a.task.seen, id)) {
      assert Follows(b, a, id) && ClipOk(b, id) && Clips(At(a.disk, id)) == Clips(At(b.disk, id));
      CountedBytes(b, a, id);
    }
    SumMonotone(FixedIds(b), a.task.seen, b.disk, Bytes);
    SumWithin(FixedIds(b), a.task.seen, Bytes);
  }

  lemma SlotsHeld(b: Station, a: Station, id: ClipId)
    requires From(b, a) && TotalClips(a.disk) >= TotalClips(b.disk)
    ensures Clips(At(a.disk, id)) == Clips(At(b.disk, id))
  {
    forall j ensures Clips(At(a.disk, j)) <= Clips(At(b.disk, j)) {
      assert Follows(b, a, j);
    }
    TotalMonotone(b.disk, a.disk, Clips);
  }

  /** The clips of `kept` are fixed, and include every one left in inflight/; with them, the incoming clip fits, and with
      them and the movable ones it does not. */
  ghost predicate Straddles(b: Station, p: QueuePolicy, incoming: nat, kept: set<ClipId>) {
    && kept <= FixedIds(b)
    && (forall id | id in FixedIds(b) && id !in kept :: !IsGood(At(b.disk, id).inflightJson) || Bytes(At(b.disk, id)) == 0)
    && Sum(kept, b.disk, Bytes) + incoming <= p.maxBytes < Sum(kept, b.disk, Bytes) + MovableBytes(b) + incoming
  }

  lemma OverBytesOnlyIf(b: Station, p: QueuePolicy, e: Entry, before: seq<Event>, after: seq<Event>)
    returns (kept: set<ClipId>)
    requires Inv(b) && b.task.Resting? && Within(b, p) && OverBytes(b, p, e, before, after)
    ensures Straddles(b, p, e.byteSize, kept)
  {
    AtAcceptance(b, p, e, before, after);
    var a := Run(b, p, before);
    SomethingSlipped(a);
    kept := set id | id in FixedIds(b) && Bytes(At(a.disk, id)) > 0;
    forall id | id in kept
      ensures Bytes(At(b.disk, id)) == Bytes(At(a.disk, id)) <= Bytes(At(a.task.seen, id))
    {
      assert Follows(b, a, id);
      CountedBytes(b, a, id);
    }
    SumMonotone(kept, a.task.seen, b.disk, Bytes);
    SumWithin(kept, a.task.seen, Bytes);
    forall id | id in FixedIds(b) && id !in kept
      ensures !IsGood(At(b.disk, id).inflightJson) || Bytes(At(b.disk, id)) == 0
    {
      assert Follows(b, a, id) && ClipOk(b, id);
    }
    NothingElse(b, a, kept);
  }

  /** At the acceptance, bytes are held by kept clips and movable ones only. */
  lemma NothingElse(b: Station, a: Station, kept: set<ClipId>)
    requires Inv(a) && From(b, a) && a.task.Sweeping? && a.slipped != {}
    requires kept == set id | id in FixedIds(b) && Bytes(At(a.disk, id)) > 0
    ensures TotalBytes(a.disk) <= Sum(kept, b.disk, Bytes) + MovableBytes(b)
  {
    var t := kept + MovableIds(b);
    forall id | id !in t ensures Bytes(At(a.disk, id)) == 0 {
      assert Follows(b, a, id);
    }
    TotalUpTo(map[], a.disk, t, Bytes);
    forall id | id in t ensures Bytes(At(a.disk, id)) <= Bytes(At(b.disk, id)) {
      assert Follows(b, a, id);
    }
    SumMonotone(t, b.disk, a.disk, Bytes);
    SumPartition(t, kept, b.disk, Bytes);
    assert t - kept == MovableIds(b);
  }
}
