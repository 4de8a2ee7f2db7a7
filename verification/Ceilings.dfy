/** The ceilings over whole runs of submissions among the operations of the other tasks. */
module Ceilings {
  import opened Queue
  import opened Totals
  import opened Policy
  import opened Bounded
  import opened Admission

  ghost predicate Within(s: Station, p: QueuePolicy) {
    var reserved := s.task.Admitted?;
    && TotalClips(s.disk) + One(reserved) <= p.maxClips
    && TotalBytes(s.disk) + (if reserved then s.task.incoming else 0) <= p.maxBytes
  }

  /** No operation but an enqueue makes any clip take more slots or bytes. */
  lemma OthersNeverGrow(s: Station, p: QueuePolicy, ev: Event, id: ClipId)
    requires Enabled(s, p, ev) && !ev.Enqueue?
    ensures Clips(At(Apply(s, p, ev).disk, id)) <= Clips(At(s.disk, id))
    ensures Bytes(At(Apply(s, p, ev).disk, id)) <= Bytes(At(s.disk, id))
  {
  }

  lemma TotalsNeverGrow(s: Station, p: QueuePolicy, ev: Event)
    requires Enabled(s, p, ev) && !ev.Enqueue?
    ensures TotalClips(Apply(s, p, ev).disk) <= TotalClips(s.disk) && TotalBytes(Apply(s, p, ev).disk) <= TotalBytes(s.disk)
  {
    var d' := Apply(s, p, ev).disk;
    forall id ensures Clips(At(d', id)) <= Clips(At(s.disk, id)) && Bytes(At(d', id)) <= Bytes(At(s.disk, id)) {
      OthersNeverGrow(s, p, ev, id);
    }
    TotalMonotone(s.disk, d', Clips);
    TotalMonotone(s.disk, d', Bytes);
  }

  /** An acceptance at which the clips taken up during the check fit in as well. */
  ghost predicate Harmless(s: Station, p: QueuePolicy, ev: Event)
    requires Enabled(s, p, ev)
  {
    ev.Accept? ==>
      && TotalClips(s.task.seen) + Sum(s.slipped, s.disk, Clips) + 1 <= p.maxClips
      && TotalBytes(s.task.seen) + Sum(s.slipped, s.disk, Bytes) + s.task.incoming <= p.maxBytes
  }

  ghost predicate HarmlessRun(s: Station, p: QueuePolicy, evs: seq<Event>)
    requires Valid(s, p, evs)
    decreases |evs|
  {
    evs == [] || (Harmless(s, p, evs[0]) && HarmlessRun(Apply(s, p, evs[0]), p, evs[1..]))
  }

  lemma StepKeepsWithin(s: Station, p: QueuePolicy, ev: Event)
    requires Inv(s) && Within(s, p) && Enabled(s, p, ev) && Harmless(s, p, ev)
    ensures Within(Apply(s, p, ev), p)
  {
    if ev.Enqueue? {
      EnqueueFits(s.disk, ev.entry);
    } else {
      TotalsNeverGrow(s, p, ev);
      if ev.Accept? {
        Accounting(s);
      }
    }
  }

  /** Whatever interleaves, the ceilings hold for ever if at each acceptance the clips that delivery took up during the
      check fit beside what the planner counted. */
  lemma {:induction false} QueueStaysBounded(s: Station, p: QueuePolicy, evs: seq<Event>)
    requires Inv(s) && Within(s, p) && Valid(s, p, evs) && HarmlessRun(s, p, evs)
    ensures TotalClips(Run(s, p, evs).disk) <= p.maxClips && TotalBytes(Run(s, p, evs).disk) <= p.maxBytes
    decreases |evs|
  {
    if evs != [] {
      StepKeepsWithin(s, p, evs[0]);
      StepKeepsInv(s, p, evs[0]);
      QueueStaysBounded(Apply(s, p, evs[0]), p, evs[1..]);
    }
  }

  /** Delivery takes no clip up while a policy check is under way; everything else may interleave with it. */
  ghost predicate CalmRun(s: Station, p: QueuePolicy, evs: seq<Event>)
    requires Valid(s, p, evs)
    decreases |evs|
  {
    evs == [] || (!(evs[0].TakeUp? && Checking(s.task)) && CalmRun(Apply(s, p, evs[0]), p, evs[1..]))
  }

  ghost predicate Unmissed(s: Station) { Checking(s.task) ==> s.slipped == {} }

  lemma {:induction false} CalmIsHarmless(s: Station, p: QueuePolicy, evs: seq<Event>)
    requires Unmissed(s) && Valid(s, p, evs) && CalmRun(s, p, evs)
    ensures HarmlessRun(s, p, evs)
    decreases |evs|
  {
    if evs != [] {
      assert Sum(s.slipped, s.disk, Clips) == Sum(s.slipped, s.disk, Bytes) == 0 || !Checking(s.task);
      CalmIsHarmless(Apply(s, p, evs[0]), p, evs[1..]);
    }
  }

  ghost predicate Calm(s: Station, p: QueuePolicy, evs: seq<Event>) {
    Inv(s) && Unmissed(s) && Within(s, p) && Valid(s, p, evs) && CalmRun(s, p, evs)
  }

  /** So every run in which no clip is taken up during a policy check stays within the ceilings: in particular every run
      in which the checks run alone. */
  lemma CalmRunsStayBounded(s: Station, p: QueuePolicy, evs: seq<Event>)
    requires Calm(s, p, evs) == true
    ensures TotalClips(Run(s, p, evs).disk) <= p.maxClips && TotalBytes(Run(s, p, evs).disk) <= p.maxBytes
  {
    CalmIsHarmless(s, p, evs);
    QueueStaysBounded(s, p, evs);
  }

  // ---- The bytes that are really there ----

  function Length(media: Option<nat>): nat { if media.Some? then media.value else 0 }

  function MediaBytes(f: Files): nat { Length(f.pendingMp4) + Length(f.inflightMp4) }

  predicate SizedBy(media: Option<nat>, json: Option<Sidecar>) {
    media.Some? ==> IsGood(json) && json.value.entry.byteSize == media.value
  }

  /** Each medium has a sidecar beside it that gives its length. */
  predicate Paired(f: Files) { SizedBy(f.pendingMp4, f.pendingJson) && SizedBy(f.inflightMp4, f.inflightJson) }

  ghost predicate AllPaired(d: Disk) { forall id :: Paired(At(d, id)) }

  lemma StepKeepsPaired(s: Station, p: QueuePolicy, ev: Event, id: ClipId)
    requires ClipOk(s, id) && Unmissed(s) && Enabled(s, p, ev) && Paired(At(s.disk, id))
    ensures Paired(At(Apply(s, p, ev).disk, id))
  {
  }

  lemma {:induction false} RunKeepsPaired(s: Station, p: QueuePolicy, evs: seq<Event>)
    requires Inv(s) && Unmissed(s) && Valid(s, p, evs) && CalmRun(s, p, evs) && AllPaired(s.disk)
    ensures AllPaired(Run(s, p, evs).disk)
    decreases |evs|
  {
    if evs != [] {
      var t := Apply(s, p, evs[0]);
      StepKeepsInv(s, p, evs[0]);
      forall id ensures Paired(At(t.disk, id)) {
        assert ClipOk(s, id) && Paired(At(s.disk, id));
        StepKeepsPaired(s, p, evs[0], id);
      }
      RunKeepsPaired(t, p, evs[1..]);
    }
  }

  /** If every medium starts with the length its sidecar gives, the media bytes in pending/ and inflight/ together stay
      within the ceiling over the same runs. */
  lemma MediaStaysBounded(s: Station, p: QueuePolicy, evs: seq<Event>)
    requires Calm(s, p, evs) == true && AllPaired(s.disk)
    ensures Total(Run(s, p, evs).disk, MediaBytes) <= p.maxBytes
  {
    CalmRunsStayBounded(s, p, evs);
    RunKeepsPaired(s, p, evs);
    var d := Run(s, p, evs).disk;
    forall id | id in d.Keys ensures MediaBytes(At(d, id)) <= Bytes(At(d, id)) {
      assert Paired(At(d, id));
    }
    SumOfLesserWeights(d.Keys, d, MediaBytes, Bytes);
  }
}
