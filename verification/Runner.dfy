/** The delivery loop over the store (delivery/runner.rs): one iteration, and the drain of a whole queue. */
module Runner {
  import opened Queue
  import opened Retry
  import opened Delivery
  import opened Order
  import opened Store
  import opened Totals

  /** What a pending clip still costs the loop: one to be rid of it, and one per attempt left. */
  function Weight(limit: u32, f: Files): nat {
    match f.pendingJson
    case None => 0
    case Some(Corrupt) => 1
    case Some(Good(e)) => 1 + (if e.attempts < limit then limit - e.attempts else 0)
  }

  ghost function Backlog(d: Disk, limit: u32): nat { Total(d, f => Weight(limit, f)) }

  /** Nothing but clips waiting out their backoff is left in pending/, and sidecars that cannot be read or moved away. */
  ghost predicate AllInBackoff(d: Disk, now: Instant, fails: Faults) {
    forall id :: At(d, id).pendingJson.Some? ==>
      || fails(id, ReadPending)
      || (At(d, id).pendingJson.value.Corrupt? && fails(id, SetAsideSidecar))
      || (At(d, id).pendingJson.value.Good? && At(d, id).pendingJson.value.entry.InBackoff(now))
  }

  lemma BacklogShrinks(d: Disk, d': Disk, limit: u32)
    requires forall id :: Weight(limit, At(d', id)) <= Weight(limit, At(d, id))
    ensures Backlog(d', limit) <= Backlog(d, limit)
    ensures forall k :: Weight(limit, At(d', k)) < Weight(limit, At(d, k)) ==> Backlog(d', limit) < Backlog(d, limit)
  {
    var w := (f: Files) => Weight(limit, f);
    TotalMonotone(d, d', w);
    forall k | Weight(limit, At(d', k)) < Weight(limit, At(d, k)) ensures Backlog(d', limit) < Backlog(d, limit) {
      assert w(At(d', k)) < w(At(d, k));
    }
  }

  /** The clip's files once the attempt on an inflight pair has been answered, as far as the store's calls succeed. */
  function FinishedFiles(s: Schedule, f: Files, e: Entry, answer: Answer, later: Instant, fails: Faults): Files {
    match Decided(s, f, e, answer, later)
    case Finish(t) => DeliveredFilesIf(f, t, fails)
    case Requeue(q) => RequeuedFilesIf(f, q, fails)
    case Panics(_) => f
  }

  /** What pre-flight or, if it passes, the server's answer leads to. */
  function Decided(s: Schedule, f: Files, e: Entry, answer: Answer, later: Instant): Decision {
    var refusal := Preflight(f.inflightMp4);
    if refusal.Some? then Finish(MarkUndeliverable(e, LastError(refusal.value, None), later))
    else AfterUpload(s, e, answer, later)
  }

  datatype Turn = Idle | Progressed | StoreFailed | Panicked

  function FinishTurn(s: Schedule, f: Files, e: Entry, answer: Answer, later: Instant, fails: Faults): Turn {
    match Decided(s, f, e, answer, later)
    case Finish(t) => if DeliverOk(f, t.clipId, fails) then Progressed else StoreFailed
    case Requeue(q) => if RequeueOk(f, q.clipId, fails) then Progressed else StoreFailed
    case Panics(_) => Panicked
  }

  /** The picked clip's files after the whole iteration, and how it ended. */
  function AttemptedFiles(s: Schedule, f: Files, e: Entry, now: Instant, answer: Answer, later: Instant, fails: Faults): Files {
    if f.pendingMp4.None? then OrphanRemovedFilesIf(f, e.clipId, fails)
    else if !InflightOk(e.clipId, fails) then InflightFilesIf(f, e, now, fails)
    else FinishedFiles(s, InflightFiles(f, e, now), Bumped(e, now), answer, later, fails)
  }

  function AttemptTurn(s: Schedule, f: Files, e: Entry, now: Instant, answer: Answer, later: Instant, fails: Faults): Turn {
    if f.pendingMp4.None? then (if RemoveOrphanOk(f, e.clipId, fails) then Progressed else StoreFailed)
    else if !InflightOk(e.clipId, fails) then StoreFailed
    else FinishTurn(s, InflightFiles(f, e, now), Bumped(e, now), answer, later, fails)
  }

  ghost predicate IsOldestEligible(d: Disk, e: Entry, now: Instant, fails: Faults) {
    && At(d, e.clipId).pendingJson == Some(Good(e)) && Pickable(d, e.clipId, now, fails)
    && forall id :: Pickable(d, id, now, fails) ==> id == e.clipId || Before(e.clipId, id)
  }

  /** What an iteration that picked e makes of a clip. */
  function RoundFiles(s: Schedule, id: ClipId, f: Files, e: Entry, now: Instant, answer: Answer, later: Instant, fails: Faults)
    : Files
  {
    if id == e.clipId then AttemptedFiles(s, f, e, now, answer, later, fails)
    else if f.pendingJson == Some(Corrupt) && !fails(id, ReadPending) && Before(id, e.clipId) then QuarantinedFilesIf(f, id, fails)
    else f
  }

  /** The attempted clip is lighter afterwards, even after a panic: gone from pending/, or re-queued with one attempt less
      to go. A failing call leaves it no heavier. */
  lemma AttemptLightens(s: Schedule, f: Files, e: Entry, now: Instant, answer: Answer, later: Instant, fails: Faults)
    requires f.pendingJson == Some(Good(e))
    ensures var g := AttemptedFiles(s, f, e, now, answer, later, fails);
            && Weight(s.maxAttempts, g) <= Weight(s.maxAttempts, f)
            && (!AttemptTurn(s, f, e, now, answer, later, fails).StoreFailed? ==> Weight(s.maxAttempts, g) < Weight(s.maxAttempts, f))
  {
  }

  /** An attempt in which store calls fail, or that panics, still costs no media: the clip's media is where it was or in
      inflight/ or back in pending/, unless a record with an outcome has been written. */
  lemma AttemptSparesMedia(s: Schedule, f: Files, e: Entry, now: Instant, answer: Answer, later: Instant, fails: Faults)
    requires OneCopy(f)
    ensures var g := AttemptedFiles(s, f, e, now, answer, later, fails);
            || SameMedium(f, g) || HasTerminalRecord(g)
            || (IsGood(g.deliveredJson) && g.deliveredJson.value.entry.IsTerminal() && g.deliveredJson.value.entry.clipId == e.clipId)
  {
    var g, b := InflightFiles(f, e, now), Bumped(e, now);
    var d := Decided(s, g, b, answer, later);
    FailingCallsSpareMedia(f, e, now, fails);
    if f.pendingMp4.Some? {
      FailingCallsSpareMedia(g, d.entry, now, fails);
      assert d.entry.clipId == e.clipId && (d.Finish? ==> d.entry.IsTerminal());
    }
  }

  /** A re-queued record: one attempt more, the first attempt's instant kept, and a retry instant a fifth around the capped
      exponential of the attempts made, not before a Retry-After that the clock library can hold. */
  predicate RetryTold(s: Schedule, e: Entry, now: Instant, answer: Answer, later: Instant, growth: real, q: Entry) {
    && SameClip(e, q) && SameResult(e, q) && q.attempts == e.attempts + 1 < s.maxAttempts && q.lastAttemptAt == Some(now)
    && q.firstAttemptAt == (if e.firstAttemptAt.Some? then e.firstAttemptAt else Some(now))
    && q.nextAttemptAfter.Some?
    && var at, asked := q.nextAttemptAfter.value, AskedFor(answer);
       var cap := if s.initialDelay * growth <= s.maxAttemptDelay then s.initialDelay * growth else s.maxAttemptDelay;
       && (asked <= MAX_SPAN_SECS ==> later + 0.8 * cap <= at && later + asked <= at)
       && (asked <= 0.0 ==> at <= later + 1.2 * cap)
       && later < q.firstAttemptAt.value + s.maxWallclock
  }

  lemma RequeuedRecord(s: Schedule, f: Files, e: Entry, now: Instant, answer: Answer, later: Instant, fails: Faults, growth: real)
    requires s.Validated() && growth == Pow2(e.attempts) && AttemptTurn(s, f, e, now, answer, later, fails).Progressed?
    requires IsGood(AttemptedFiles(s, f, e, now, answer, later, fails).pendingJson)
    ensures RetryTold(s, e, now, answer, later, growth, AttemptedFiles(s, f, e, now, answer, later, fails).pendingJson.value.entry)
  {
    var b := Bumped(e, now);
    assert Decided(s, InflightFiles(f, e, now), b, answer, later).Requeue?;
    RecordAfterAnswer(s, b, answer, later);
    AfterRequeue(s, b, answer, later);
    RequeueInstant(s, b, answer, later, growth);
  }

  lemma AfterRequeue(s: Schedule, b: Entry, a: Answer, now: Instant)
    requires AfterUpload(s, b, a, now).Requeue?
    ensures b.attempts < s.maxAttempts && a.Refused?
  {
  }

  /** How an iteration without a failing call leaves the clip: an orphan is gone; media of no byte or of more than 50 MiB is
      never sent, and recorded Undeliverable; an accepted upload is recorded Delivered with its task; and whatever is
      recorded, no media and no other sidecar of the clip stays. */
  predicate EndsAs(f: Files, g: Files, answer: Answer, later: Instant) {
    var sendable := f.pendingMp4.Some? && 1 <= f.pendingMp4.value <= 52428800;
    var recorded := IsGood(g.deliveredJson) && g.deliveredJson.value.entry.deliveredAt == Some(later)
                    && g.pendingJson.None? && g.pendingMp4.None? && g.inflightJson.None? && g.inflightMp4.None?;
    && (f.pendingMp4.None? ==> g == f.(pendingJson := None))
    && (f.pendingMp4.Some? && !sendable ==> recorded && g.deliveredJson.value.entry.outcome == Some(Undeliverable))
    && (sendable && answer.Accepted? ==>
          && recorded && g.deliveredJson.value.entry.outcome == Some(Outcome.Delivered)
          && g.deliveredJson.value.entry.classifyTaskId == Some(answer.taskId)
          && g.deliveredJson.value.entry.lastClassifyStatus == Some(answer.status))
    && (sendable && !IsGood(g.pendingJson) ==> recorded)
    && (IsGood(g.pendingJson) ==> sendable && answer.Refused? && g.pendingMp4 == f.pendingMp4 && g.inflightMp4.None?
                                  && g.inflightJson.None? && g.deliveredJson == f.deliveredJson)
  }

  lemma AttemptEndsAs(s: Schedule, f: Files, e: Entry, now: Instant, answer: Answer, later: Instant, fails: Faults)
    requires AttemptTurn(s, f, e, now, answer, later, fails).Progressed?
    ensures EndsAs(f, AttemptedFiles(s, f, e, now, answer, later, fails), answer, later)
  {
    var b := Bumped(e, now);
    MayUploadExactly(f.pendingMp4);
    RecordAfterAnswer(s, b, answer, later);
  }

  /** A store call that fails is the reason for a failed iteration. */
  lemma FailureHasCause(s: Schedule, f: Files, e: Entry, now: Instant, answer: Answer, later: Instant, fails: Faults)
    requires AttemptTurn(s, f, e, now, answer, later, fails).StoreFailed?
    ensures exists c :: fails(e.clipId, c)
  {
    assert Decided(s, InflightFiles(f, e, now), Bumped(e, now), answer, later).entry.clipId == e.clipId;
  }

  lemma RoundLightens(s: Schedule, was: Disk, d: Disk, e: Entry, now: Instant, answer: Answer, later: Instant, fails: Faults)
    requires IsOldestEligible(was, e, now, fails)
    requires forall id :: At(d, id) == RoundFiles(s, id, At(was, id), e, now, answer, later, fails)
    ensures Backlog(d, s.maxAttempts) <= Backlog(was, s.maxAttempts)
    ensures !AttemptTurn(s, At(was, e.clipId), e, now, answer, later, fails).StoreFailed? ==>
              Backlog(d, s.maxAttempts) < Backlog(was, s.maxAttempts)
  {
    AttemptLightens(s, At(was, e.clipId), e, now, answer, later, fails);
    BacklogShrinks(was, d, s.maxAttempts);
  }

  lemma AttemptStaysNamed(s: Schedule, f: Files, e: Entry, now: Instant, answer: Answer, later: Instant, fails: Faults)
    requires FilesNamed(e.clipId, f)
    ensures FilesNamed(e.clipId, AttemptedFiles(s, f, e, now, answer, later, fails))
  {
    assert Decided(s, InflightFiles(f, e, now), Bumped(e, now), answer, later).entry.clipId == e.clipId;
  }

  lemma RoundStaysNamed(s: Schedule, was: Disk, d: Disk, e: Entry, now: Instant, answer: Answer, later: Instant, fails: Faults)
    requires WellNamed(was)
    requires forall id :: At(d, id) == RoundFiles(s, id, At(was, id), e, now, answer, later, fails)
    ensures WellNamed(d)
  {
    forall id ensures FilesNamed(id, At(d, id)) {
      assert FilesNamed(id, At(was, id));
      if id == e.clipId {
        AttemptStaysNamed(s, At(was, id), e, now, answer, later, fails);
      }
    }
  }

  /** Without failing calls no attempt fails, and it panics only on an answer that overflows the clock. */
  lemma FaultlessTurn(s: Schedule, f: Files, e: Entry, now: Instant, answer: Answer, later: Instant)
    ensures var turn := AttemptTurn(s, f, e, now, answer, later, NoFaults);
            !turn.Idle? && !turn.StoreFailed? && (turn.Panicked? ==> AfterUpload(s, Bumped(e, now), answer, later).Panics?)
  {
  }

  /** In the n-th round, the answer would make the attempt on this record panic. */
  predicate RoundPanics(s: Schedule, clock: nat -> Instant, answers: nat -> Answer, n: nat, e: Entry) {
    AfterUpload(s, e, answers(n), clock(2 * n + 1)).Panics?
  }

  class DeliveryRunner {
    const store: QueueStore
    const schedule: Schedule

    constructor (store: QueueStore, schedule: Schedule)
      ensures this.store == store && this.schedule == schedule
    {
      this.store := store;
      this.schedule := schedule;
    }

    /** One iteration. `answer` is what the server would reply if the clip is uploaded, `later` the clock after it.
        It is idle exactly when no clip is eligible; otherwise it takes the oldest one through its attempt, moves the
        corrupt sidecars before it away, changes nothing else, and the backlog shrinks unless a store call failed. */
    method TryOnce(now: Instant, answer: Answer, later: Instant, fails: Faults) returns (turn: Turn, ghost picked: Option<Entry>)
      requires WellNamed(store.disk)
      modifies store
      ensures WellNamed(store.disk)
      ensures turn.Idle? <==> picked.None?
      ensures turn.Idle? <==> forall id :: !Pickable(old(store.disk), id, now, fails)
      ensures !turn.Idle? ==>
                && IsOldestEligible(old(store.disk), picked.value, now, fails)
                && (forall id :: At(store.disk, id)
                              == RoundFiles(schedule, id, At(old(store.disk), id), picked.value, now, answer, later, fails))
                && turn == AttemptTurn(schedule, At(old(store.disk), picked.value.clipId), picked.value, now, answer, later, fails)
                && Backlog(store.disk, schedule.maxAttempts) <= Backlog(old(store.disk), schedule.maxAttempts)
                && (!turn.StoreFailed? ==> Backlog(store.disk, schedule.maxAttempts) < Backlog(old(store.disk), schedule.maxAttempts))
      ensures turn.Idle? ==> AllInBackoff(store.disk, now, fails) && AllWait(store.disk, now, fails)
      ensures !turn.Idle? ==> picked.value.nextAttemptAfter.None? || picked.value.nextAttemptAfter.value <= now
      ensures !turn.Idle? ==> FirstOfDue(old(store.disk), picked.value.clipId, now, fails)
      ensures turn.StoreFailed? ==> exists c :: fails(picked.value.clipId, c)
      ensures turn.Progressed? ==>
                EndsAs(At(old(store.disk), picked.value.clipId), At(store.disk, picked.value.clipId), answer, later)
      ensures turn.Progressed? && schedule.Validated() && IsGood(At(store.disk, picked.value.clipId).pendingJson) ==>
                RetryTold(schedule, picked.value, now, answer, later, Pow2(picked.value.attempts),
                          At(store.disk, picked.value.clipId).pendingJson.value.entry)
    {
      ghost var was := store.disk;
      var found := store.PickOldestPending(now, fails);
      picked := found;
      if found.None? {
        forall id ensures !Pickable(was, id, now, fails) && At(store.disk, id) ==
                            if MeetsCorrupt(was, id, fails) then QuarantinedFilesIf(At(was, id), id, fails) else At(was, id) {}
        return Idle, None;
      }
      var e := found.value;
      assert !Before(e.clipId, e.clipId) by { LexIrreflexive(SidecarName(e.clipId)); }
      assert At(store.disk, e.clipId) == At(was, e.clipId);
      turn := Attempt(e, now, answer, later, fails);
      if turn.StoreFailed? {
        FailureHasCause(schedule, At(was, e.clipId), e, now, answer, later, fails);
      } else if turn.Progressed? {
        AttemptEndsAs(schedule, At(was, e.clipId), e, now, answer, later, fails);
        if schedule.Validated() && IsGood(At(store.disk, e.clipId).pendingJson) {
          RequeuedRecord(schedule, At(was, e.clipId), e, now, answer, later, fails, Pow2(e.attempts));
        }
      }
      RoundStaysNamed(schedule, was, store.disk, e, now, answer, later, fails);
      RoundLightens(schedule, was, store.disk, e, now, answer, later, fails);
    }

    /** The picked clip's attempt. */
    method Attempt(e: Entry, now: Instant, answer: Answer, later: Instant, fails: Faults) returns (turn: Turn)
      modifies store
      ensures At(store.disk, e.clipId) == AttemptedFiles(schedule, At(old(store.disk), e.clipId), e, now, answer, later, fails)
      ensures forall id :: id != e.clipId ==> At(store.disk, id) == At(old(store.disk), id)
      ensures turn == AttemptTurn(schedule, At(old(store.disk), e.clipId), e, now, answer, later, fails)
    {
      var r := store.TransitionInflight(e, now, fails);
      match r {
        case Ok(inflight) =>
          turn := FinishAttempt(inflight, answer, later, fails);
        case Err(MissingMedia(_)) =>
          var ok := store.QuarantineOrphan(e.clipId, fails);
          turn := if ok then Progressed else StoreFailed;
        case Err(_) =>
          turn := StoreFailed;
      }
    }

    /** From pre-flight to the record or the requeue that the answer leads to. */
    method FinishAttempt(e: Entry, answer: Answer, later: Instant, fails: Faults) returns (turn: Turn)
      modifies store
      ensures At(store.disk, e.clipId) == FinishedFiles(schedule, At(old(store.disk), e.clipId), e, answer, later, fails)
      ensures forall id :: id != e.clipId ==> At(store.disk, id) == At(old(store.disk), id)
      ensures turn == FinishTurn(schedule, At(old(store.disk), e.clipId), e, answer, later, fails)
    {
      var ok := true;
      var refusal := Preflight(At(store.disk, e.clipId).inflightMp4);
      if refusal.Some? {
        ok := store.TransitionDelivered(MarkUndeliverable(e, LastError(refusal.value, None), later), fails);
      } else {
        var d := AfterUpload(schedule, e, answer, later);
        match d {
          case Finish(t) => ok := store.TransitionDelivered(t, fails);
          case Requeue(q) => ok := store.TransitionBackToPending(q, fails);
          case Panics(_) => return Panicked;
        }
      }
      turn := if ok then Progressed else StoreFailed;
    }

    /** With no new clips and no failing store call, the loop reaches idle within the backlog's weight, whatever the
        server answers and however the clock moves, unless an answer makes it panic: no corrupt sidecar, no orphan and no
        failing clip can wedge it. */
    method Drain(clock: nat -> Instant, answers: nat -> Answer) returns (rounds: nat, turn: Turn)
      requires WellNamed(store.disk)
      modifies store
      ensures rounds <= Backlog(old(store.disk), schedule.maxAttempts)
      ensures WellNamed(store.disk) && (turn.Idle? || turn.Panicked?)
      ensures turn.Idle? ==> AllInBackoff(store.disk, clock(2 * rounds), NoFaults) && AllWait(store.disk, clock(2 * rounds), NoFaults)
      ensures (forall n: nat, e :: !RoundPanics(schedule, clock, answers, n, e)) ==> turn.Idle?
    {
      ghost var picked: Option<Entry>;
      rounds := 0;
      turn, picked := TryOnce(clock(0), answers(0), clock(1), NoFaults);
      if !turn.Idle? {
        FaultlessTurn(schedule, At(old(store.disk), picked.value.clipId), picked.value, clock(0), answers(0), clock(1));
        assert turn.Panicked? ==> RoundPanics(schedule, clock, answers, 0, Bumped(picked.value, clock(0)));
      }
      while turn.Progressed?
        invariant WellNamed(store.disk) && !turn.StoreFailed?
        invariant turn.Progressed? ==> rounds + 1 + Backlog(store.disk, schedule.maxAttempts) <= Backlog(old(store.disk), schedule.maxAttempts)
        invariant !turn.Progressed? ==> rounds <= Backlog(old(store.disk), schedule.maxAttempts)
        invariant turn.Idle? ==> AllInBackoff(store.disk, clock(2 * rounds), NoFaults)
        invariant turn.Idle? ==> AllWait(store.disk, clock(2 * rounds), NoFaults)
        invariant turn.Panicked? ==> exists e :: RoundPanics(schedule, clock, answers, rounds, e)
        decreases turn.Progressed?, Backlog(store.disk, schedule.maxAttempts)
      {
        rounds := rounds + 1;
        ghost var was := store.disk;
        turn, picked := TryOnce(clock(2 * rounds), answers(rounds), clock(2 * rounds + 1), NoFaults);
        if !turn.Idle? {
          FaultlessTurn(schedule, At(was, picked.value.clipId), picked.value, clock(2 * rounds), answers(rounds), clock(2 * rounds + 1));
          assert turn.Panicked? ==> RoundPanics(schedule, clock, answers, rounds, Bumped(picked.value, clock(2 * rounds)));
        }
      }
    }
  }
}
