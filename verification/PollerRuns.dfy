/** The delivered/ directory over whole runs: the classify poller reads and rewrites records one file at a time while
    delivery adds records, eviction and pruning remove them, and the process restarts. */
module PollerRuns {
  import opened Queue
  import opened Retry
  import opened Delivery
  import opened Classify
  import Policy

  /** A scan is a listing that yields the ids of `todo` in any order, and perhaps some that arrive meanwhile. `marking`
      is an entry read and found over budget, and not yet rewritten. `ever` holds every id that has had a record: clip
      ids are fresh, so none of them is delivered twice. */
  datatype State = State(
    records: Records, seen: set<ClipId>, scanning: bool, todo: set<ClipId>, marking: Option<Entry>, work: seq<Entry>,
    ever: set<ClipId>, policy: Policy.Eviction)

  datatype Event =
    | Arrive(id: ClipId, record: Sidecar, listed: bool)
    | EvictRecord(id: ClipId)
    | BeginScan
    | Visit(id: ClipId, now: Instant)
    | Unread(id: ClipId)        // a sidecar that cannot be read, or not be quarantined, is skipped
    | MarkLost(now: Instant)
    | EndScan
    | PollNext(answer: Poll, now: Instant)
    | Prune(id: ClipId, before: Instant)
    | Abandon                   // a failed write ends the round
    | Restart

  predicate Enabled(s: State, ev: Event) {
    match ev
    case Arrive(id, record, listed) =>
      id !in s.ever && (listed ==> s.scanning) && (record.Good? ==> WrittenByStation(id, record.entry))
    case EvictRecord(id) =>
      && s.policy.DropOldestUndelivered?
      && id in s.records && s.records[id].Good? && s.records[id].entry.outcome == Some(Undeliverable)
    case BeginScan => !s.scanning && s.work == []
    case Visit(id, now) => id in s.todo && s.marking.None?
    case Unread(id) => id in s.todo && s.marking.None?
    case MarkLost(now) => s.marking.Some?
    case EndScan => s.scanning && s.todo == {} && s.marking.None?
    case PollNext(answer, now) => !s.scanning && s.work != []
    case _ => true
  }

  /** One event. `skip` says whether the scan trusts the skip set or rereads every sidecar. */
  function Apply(s: State, ev: Event, skip: bool): State
    requires Enabled(s, ev)
  {
    match ev
    case Arrive(id, record, listed) =>
      s.(records := s.records[id := record], ever := s.ever + {id}, todo := if listed then s.todo + {id} else s.todo)
    case EvictRecord(id) => s.(records := s.records - {id})
    case BeginScan => s.(scanning := true, todo := s.records.Keys)
    case Visit(id, now) => VisitStep(s, id, now, skip)
    case Unread(id) => s.(todo := s.todo - {id})
    case MarkLost(now) =>
      var e := s.marking.value;
      s.(records := s.records[e.clipId := Good(e.(classifyLostAt := Some(now)))], seen := s.seen + {e.clipId}, marking := None)
    case EndScan => s.(scanning := false)
    case PollNext(answer, now) => PollStep(s, answer, now)
    case Prune(id, before) =>
      if id in s.records && Removes(s.records[id], before)
      then s.(records := s.records - {id}, seen := s.seen - {id}) else s
    case Abandon => s.(scanning := false, todo := {}, marking := None, work := [])
    case Restart => s.(scanning := false, todo := {}, marking := None, work := [], seen := {})
  }

  /** Read one sidecar; an entry over budget is rewritten by a later step. */
  function VisitStep(s: State, id: ClipId, now: Instant, skip: bool): State {
    var t := s.(todo := s.todo - {id});
    if OverBudget(s, id, now, skip) then t.(marking := Some(s.records[id].entry))
    else
      var (r, seen, work) := ScanOne(s.records, s.seen, s.work, id, now, skip);
      t.(records := r, seen := seen, work := work)
  }

  predicate OverBudget(s: State, id: ClipId, now: Instant, skip: bool) {
    && id in s.records && !(skip && id in s.seen)
    && s.records[id].Good? && IsPollable(s.records[id].entry) && BudgetExhausted(s.records[id].entry, now)
  }

  /** The poller writes from the copy it scanned, without rereading the file. */
  function PollStep(s: State, answer: Poll, now: Instant): State
    requires s.work != []
  {
    var e := s.work[0];
    var w := AfterPoll(e, answer, now);
    var rest := s.(work := s.work[1..]);
    if w.None? then rest
    else rest.(records := s.records[e.clipId := Good(w.value)],
               seen := if IsPollable(w.value) then s.seen else s.seen + {e.clipId})
  }

  predicate Valid(s: State, evs: seq<Event>)
    decreases |evs|
  {
    evs == [] || (Enabled(s, evs[0]) && Valid(Apply(s, evs[0], true), evs[1..]))
  }

  function Run(s: State, evs: seq<Event>): State
    requires Valid(s, evs)
    decreases |evs|
  {
    if evs == [] then s else Run(Apply(s, evs[0], true), evs[1..])
  }

  /** The same events with every sidecar reread. */
  predicate RereadValid(s: State, evs: seq<Event>)
    decreases |evs|
  {
    evs == [] || (Enabled(s, evs[0]) && RereadValid(Apply(s, evs[0], false), evs[1..]))
  }

  function RereadRun(s: State, evs: seq<Event>): State
    requires RereadValid(s, evs)
    decreases |evs|
  {
    if evs == [] then s else RereadRun(Apply(s, evs[0], false), evs[1..])
  }

  /** The copies the poller holds of records it has read and means to rewrite. */
  function Held(s: State): seq<Entry> { s.work + if s.marking.Some? then [s.marking.value] else [] }

  /** Each of them is the record on disk, still pollable, and held once. */
  ghost predicate HeldOk(r: Records, todo: set<ClipId>, held: seq<Entry>) {
    && (forall i | 0 <= i < |held| :: OnDisk(r, todo, held[i]))
    && (forall i, j | 0 <= i < j < |held| :: held[i].clipId != held[j].clipId)
  }

  predicate OnDisk(r: Records, todo: set<ClipId>, e: Entry) {
    e.clipId in r && r[e.clipId] == Good(e) && IsPollable(e) && e.clipId !in todo
  }

  ghost predicate Inv(s: State) {
    && RecordsOk(s.records) && SkipOk(s.records, s.seen) && HeldOk(s.records, s.todo, Held(s))
    && s.records.Keys <= s.ever && s.seen <= s.ever && s.todo <= s.ever
    && (s.todo != {} || s.marking.Some? ==> s.scanning)
  }

  lemma StepKeepsInv(s: State, ev: Event)
    requires Inv(s) == true && Enabled(s, ev)
    ensures Inv(Apply(s, ev, true)) == true
  {
    match ev {
      case Visit(id, now) => VisitKeepsInv(s, id, now);
      case MarkLost(now) => MarkKeepsInv(s, now);
      case PollNext(answer, now) => PollKeepsInv(s, answer, now);
      case _ => OtherKeepsInv(s, ev);
    }
  }

  lemma OtherKeepsInv(s: State, ev: Event)
    requires Inv(s) == true && Enabled(s, ev) && !ev.Visit? && !ev.MarkLost? && !ev.PollNext?
    ensures Inv(Apply(s, ev, true)) == true
  {
    var t := Apply(s, ev, true);
    assert Held(t) == Held(s) || Held(t) == [];
    forall i | 0 <= i < |Held(t)| ensures OnDisk(t.records, t.todo, Held(t)[i]) {
      assert OnDisk(s.records, s.todo, Held(s)[i]);
      HeldIsDelivered(s, i);
    }
  }

  lemma HeldIsDelivered(s: State, i: nat)
    requires Inv(s) == true && i < |Held(s)|
    ensures OnDisk(s.records, s.todo, Held(s)[i]) && Held(s)[i].outcome == Some(Delivered)
  {
    var e := Held(s)[i];
    assert OnDisk(s.records, s.todo, e);
    assert WrittenByStation(e.clipId, s.records[e.clipId].entry);
    assert e.outcome != None && e.outcome != Some(Undeliverable);
    assert e.outcome.value != Undeliverable;
  }

  lemma VisitKeepsInv(s: State, id: ClipId, now: Instant)
    requires Inv(s) == true && id in s.todo && s.marking.None?
    ensures Inv(VisitStep(s, id, now, true)) == true
  {
    var t := VisitStep(s, id, now, true);
    assert Held(s) == s.work;
    assert forall i | 0 <= i < |s.work| :: OnDisk(s.records, s.todo, s.work[i]) && s.work[i].clipId != id;
    assert id in s.records && s.records[id].Good? ==> WrittenByStation(id, s.records[id].entry);
    assert Held(t) == s.work || Held(t) == s.work + [s.records[id].entry];
    assert HeldOk(t.records, t.todo, Held(t));
    assert RecordsOk(t.records);
    assert SkipOk(t.records, t.seen);
  }

  lemma MarkKeepsInv(s: State, now: Instant)
    requires Inv(s) == true && s.marking.Some?
    ensures Inv(Apply(s, MarkLost(now), true)) == true
  {
    var t := Apply(s, MarkLost(now), true);
    HeldIsDelivered(s, |s.work|);
    assert Held(s) == s.work + [s.marking.value] && Held(t) == Held(s)[..|s.work|];
    assert s.marking.value.clipId in s.records;
    assert RecordsOk(t.records) by { assert WrittenByStation(s.marking.value.clipId, s.records[s.marking.value.clipId].entry); }
    forall i | 0 <= i < |Held(t)| ensures OnDisk(t.records, t.todo, Held(t)[i]) {
      assert Held(t)[i] == Held(s)[i];
      assert OnDisk(s.records, s.todo, Held(s)[i]);
    }
    assert SkipOk(t.records, t.seen);
  }

  lemma PollKeepsInv(s: State, answer: Poll, now: Instant)
    requires Inv(s) == true && !s.scanning && s.work != []
    ensures Inv(PollStep(s, answer, now)) == true
  {
    var t := PollStep(s, answer, now);
    var e := s.work[0];
    assert Held(s) == s.work && Held(t) == s.work[1..];
    HeldIsDelivered(s, 0);
    assert WrittenByStation(e.clipId, s.records[e.clipId].entry);
    assert RecordsOk(t.records);
    forall i | 0 <= i < |t.work| ensures OnDisk(t.records, t.todo, t.work[i]) {
      assert t.work[i] == s.work[i + 1];
      assert OnDisk(s.records, s.todo, Held(s)[i + 1]);
    }
    assert SkipOk(t.records, t.seen);
  }

  lemma {:induction false} RunKeepsInv(s: State, evs: seq<Event>)
    requires Inv(s) == true && Valid(s, evs)
    ensures Inv(Run(s, evs)) == true
    decreases |evs|
  {
    if evs != [] {
      StepKeepsInv(s, evs[0]);
      RunKeepsInv(Apply(s, evs[0], true), evs[1..]);
    }
  }

  /** Trusting the skip set changes nothing: over every run the poller returns, writes and leaves exactly what one that
      rereads every sidecar does. */
  lemma {:induction false} SkipSetRefinesReread(s: State, evs: seq<Event>)
    requires Inv(s) == true && Valid(s, evs)
    ensures RereadValid(s, evs) && RereadRun(s, evs) == Run(s, evs)
    decreases |evs|
  {
    if evs != [] {
      SkipStep(s, evs[0]);
      StepKeepsInv(s, evs[0]);
      SkipSetRefinesReread(Apply(s, evs[0], true), evs[1..]);
    }
  }

  lemma SkipStep(s: State, ev: Event)
    requires Inv(s) == true && Enabled(s, ev)
    ensures Apply(s, ev, false) == Apply(s, ev, true)
  {
    if ev.Visit? && ev.id in s.seen && ev.id in s.records {
      assert s.records[ev.id].Good? && !IsPollable(s.records[ev.id].entry);
      assert WrittenByStation(ev.id, s.records[ev.id].entry);
      assert s.seen + {ev.id} == s.seen;
    }
  }

  function Written(r: Records, id: ClipId, w: Option<Entry>): Records { if w.Some? then r[id := Good(w.value)] else r }

  /** A write from a scanned copy is never stale and never brings a removed record back: it updates the record that
      is on disk at that moment, in the polled fields only. */
  lemma PollWritesTheLiveRecord(s: State, evs: seq<Event>, answer: Poll, now: Instant)
    requires Inv(s) == true && Valid(s, evs) && Enabled(Run(s, evs), PollNext(answer, now))
    ensures var t := Run(s, evs);
            var id := t.work[0].clipId;
            && id in t.records && t.records[id].Good? && t.records[id].entry.outcome == Some(Delivered)
            && Apply(t, PollNext(answer, now), true).records == Written(t.records, id, AfterPoll(t.records[id].entry, answer, now))
  {
    RunKeepsInv(s, evs);
    HeldIsDelivered(Run(s, evs), 0);
  }

  /** The same for an entry given up on: between its reading and its rewriting nothing changed or removed it. */
  lemma MarkWritesTheLiveRecord(s: State, evs: seq<Event>, now: Instant)
    requires Inv(s) == true && Valid(s, evs) && Enabled(Run(s, evs), MarkLost(now))
    ensures var t := Run(s, evs);
            var id := t.marking.value.clipId;
            && id in t.records && t.records[id].Good? && t.records[id].entry.outcome == Some(Delivered)
            && Apply(t, MarkLost(now), true).records
               == t.records[id := Good(t.records[id].entry.(classifyLostAt := Some(now)))]
  {
    RunKeepsInv(s, evs);
    HeldIsDelivered(Run(s, evs), |Run(s, evs).work|);
  }

  /** A record once removed stays removed. */
  lemma {:induction false} RemovedForGood(s: State, evs: seq<Event>, id: ClipId)
    requires Inv(s) == true && Valid(s, evs) && id in s.ever && id !in s.records
    ensures id in Run(s, evs).ever && id !in Run(s, evs).records
    decreases |evs|
  {
    if evs != [] {
      StepKeepsInv(s, evs[0]);
      WritesOnDisk(s, evs[0]);
      RemovedForGood(Apply(s, evs[0], true), evs[1..], id);
    }
  }

  lemma WritesOnDisk(s: State, ev: Event)
    requires Inv(s) == true && Enabled(s, ev)
    ensures ev.PollNext? ==> OnDisk(s.records, s.todo, s.work[0])
    ensures ev.MarkLost? ==> OnDisk(s.records, s.todo, s.marking.value)
  {
    if ev.PollNext? {
      HeldIsDelivered(s, 0);
    } else if ev.MarkLost? {
      HeldIsDelivered(s, |s.work|);
    }
  }

  // ---- How long a Delivered record lives ----

  /** Some run removes the record: an undeliverable one by eviction, which needs the evicting policy; a delivered one by
      pruning, which needs a delivery time and a task that is finished or can be. */
  predicate CanLeave(policy: Policy.Eviction, e: Entry) {
    || (e.outcome == Some(Undeliverable) && policy.DropOldestUndelivered?)
    || (e.outcome == Some(Delivered) && e.deliveredAt.Some? && (e.classifyTaskId.Some? || ClassifyDone(e)))
  }

  /** What every event keeps of a record it does not remove. */
  predicate Follows(e: Entry, e': Entry) {
    && e'.outcome == e.outcome && e'.deliveredAt == e.deliveredAt && e'.classifyTaskId == e.classifyTaskId
    && (ClassifyDone(e) ==> ClassifyDone(e'))
    && (ClassifyDone(e) || e.classifyTaskId.None? ==> e' == e)
  }

  predicate Record(s: State, id: ClipId) { id in s.records && s.records[id].Good? }

  lemma StepFollows(s: State, ev: Event, id: ClipId)
    requires Inv(s) == true && Enabled(s, ev) && Record(s, id)
    ensures var t := Apply(s, ev, true);
            if Record(t, id) then Follows(s.records[id].entry, t.records[id].entry)
            else id !in t.records && id in t.ever && CanLeave(s.policy, s.records[id].entry)
  {
    WritesOnDisk(s, ev);
  }

  lemma {:induction false} RunFollows(s: State, evs: seq<Event>, id: ClipId)
    requires Inv(s) == true && Valid(s, evs) && Record(s, id)
    ensures var t := Run(s, evs);
            if Record(t, id) then Follows(s.records[id].entry, t.records[id].entry)
            else id !in t.records && id in t.ever && CanLeave(s.policy, s.records[id].entry)
    decreases |evs|
  {
    if evs != [] {
      var t := Apply(s, evs[0], true);
      StepKeepsInv(s, evs[0]);
      StepFollows(s, evs[0], id);
      if Record(t, id) {
        RunFollows(t, evs[1..], id);
      } else {
        RemovedForGood(t, evs[1..], id);
      }
    }
  }

  ghost predicate Removing(s: State, evs: seq<Event>, id: ClipId) { Valid(s, evs) && id !in Run(s, evs).records }

  /** The records that can ever be removed, exactly: under the evicting policy undeliverable ones, and under both delivered
      ones with a delivery time that have a task to poll or a finished one. */
  lemma RemovableExactly(s: State, id: ClipId)
    requires Inv(s) == true && Record(s, id)
    ensures CanLeave(s.policy, s.records[id].entry) <==> exists evs :: Removing(s, evs, id)
  {
    var e := s.records[id].entry;
    if CanLeave(s.policy, e) {
      var evs := RemovingRun(s, id);
      assert Removing(s, evs, id);
    }
    forall evs | Removing(s, evs, id) ensures CanLeave(s.policy, e) {
      RunFollows(s, evs, id);
    }
  }

  lemma RemovingRun(s: State, id: ClipId) returns (evs: seq<Event>)
    requires Inv(s) == true && Record(s, id) && CanLeave(s.policy, s.records[id].entry)
    ensures Removing(s, evs, id)
  {
    var e := s.records[id].entry;
    if e.outcome == Some(Undeliverable) {
      evs := [EvictRecord(id)];
      LeadsOn(s, [], s, EvictRecord(id));
    } else {
      var t := s;
      evs := [];
      if !ClassifyDone(e) {
        evs, t := MarkingRun(s, id);
      }
      var prune := Prune(id, e.deliveredAt.value + 1.0);
      LeadsOn(s, evs, t, prune);
      evs := evs + [prune];
    }
  }

  /** A scan a day after delivery gives up on the task. */
  lemma MarkingRun(s: State, id: ClipId) returns (evs: seq<Event>, t: State)
    requires Inv(s) == true && Record(s, id) && IsPollable(s.records[id].entry) && s.records[id].entry.deliveredAt.Some?
    ensures Leads(s, evs, t) && Record(t, id)
    ensures t.records[id].entry == s.records[id].entry.(classifyLostAt := Some(0.0))
  {
    var e := s.records[id].entry;
    var visit, mark := Visit(id, e.deliveredAt.value + POLL_BUDGET), MarkLost(0.0);
    assert WrittenByStation(id, e) && id !in s.seen;
    var s1 := Apply(s, Abandon, true);
    LeadsOn(s, [], s, Abandon);
    var s2 := Apply(s1, BeginScan, true);
    LeadsOn(s, [] + [Abandon], s1, BeginScan);
    var s3 := Apply(s2, visit, true);
    LeadsOn(s, [] + [Abandon] + [BeginScan], s2, visit);
    evs, t := [] + [Abandon] + [BeginScan] + [visit] + [mark], Apply(s3, mark, true);
    LeadsOn(s, [] + [Abandon] + [BeginScan] + [visit], s3, mark);
  }

  ghost predicate Leads(s: State, evs: seq<Event>, t: State) { Valid(s, evs) && Run(s, evs) == t }

  lemma {:induction false} LeadsOn(s: State, evs: seq<Event>, t: State, ev: Event)
    requires Leads(s, evs, t) && Enabled(t, ev)
    ensures Leads(s, evs + [ev], Apply(t, ev, true))
    decreases |evs|
  {
    if evs == [] {
      assert ([] + [ev])[1..] == [];
    } else {
      LeadsOn(Apply(s, evs[0], true), evs[1..], t, ev);
      assert (evs + [ev])[1..] == evs[1..] + [ev];
    }
  }

  /** The scan is not cut short, reads the sidecar of `id`, and reads at or after `from`. */
  predicate ScansAfter(evs: seq<Event>, id: ClipId, from: Instant) {
    forall ev | ev in evs :: !ev.Abandon? && !ev.Restart? && ev != Unread(id) && (ev.Visit? ==> ev.now >= from)
  }

  /** The scan under way has still to finish the record: to visit it, or to rewrite it. */
  predicate Awaits(s: State, id: ClipId) { id in s.todo || (s.marking.Some? && s.marking.value.clipId == id) }

  lemma AwaitedStep(s: State, ev: Event, id: ClipId)
    requires Inv(s) == true && Record(s, id) && Awaits(s, id) && Enabled(s, ev)
    requires var e := s.records[id].entry;
             e.classifyTaskId.Some? && e.deliveredAt.Some? && ScansAfter([ev], id, e.deliveredAt.value + POLL_BUDGET)
    ensures var t := Apply(s, ev, true);
            Record(t, id) ==> Awaits(t, id) || ClassifyDone(t.records[id].entry)
  {
    assert ev in [ev];
    assert id in s.seen ==> !IsPollable(s.records[id].entry);
    WritesOnDisk(s, ev);
  }

  /** A scan that runs to its end a day or more after delivery finishes every record with a task that it set out to
      visit, whatever the other tasks do between its file reads and writes. */
  lemma {:induction false} ScanFinishes(s: State, evs: seq<Event>, id: ClipId)
    requires Inv(s) == true && Record(s, id) && Awaits(s, id)
    requires var e := s.records[id].entry;
             e.classifyTaskId.Some? && e.deliveredAt.Some? && ScansAfter(evs, id, e.deliveredAt.value + POLL_BUDGET)
    requires Valid(s, evs) && !Run(s, evs).scanning
    ensures var t := Run(s, evs); id in t.records ==> t.records[id].Good? && ClassifyDone(t.records[id].entry)
    decreases |evs|
  {
    var ev, rest := evs[0], evs[1..];
    var t := Apply(s, ev, true);
    assert ev in evs && forall x | x in rest :: x in evs;
    StepKeepsInv(s, ev);
    StepFollows(s, ev, id);
    AwaitedStep(s, ev, id);
    if !Record(t, id) {
      RemovedForGood(t, rest, id);
    } else if ClassifyDone(t.records[id].entry) {
      RunFollows(t, rest, id);
    } else {
      ScanFinishes(t, rest, id);
    }
  }

  /** A delivered record with a task is finished by the first scan that ends a day or more after delivery, and gone after
      the first later prune whose cutoff is past its delivery; whatever happens before, during, between or after. */
  lemma DeliveredLifetime(s: State, id: ClipId, before: seq<Event>, scan: seq<Event>, between: seq<Event>,
                          cutoff: Instant, after: seq<Event>)
    requires Inv(s) == true && Record(s, id)
    requires var e := s.records[id].entry;
             && e.outcome == Some(Delivered) && e.classifyTaskId.Some? && e.deliveredAt.Some?
             && ScansAfter(scan, id, e.deliveredAt.value + POLL_BUDGET) && cutoff > e.deliveredAt.value
    requires Valid(s, before)
    requires var s1 := Run(s, before); (id in s1.records ==> id in s1.todo) && Valid(s1, scan) && !Run(s1, scan).scanning
    requires Valid(Run(Run(s, before), scan), between)
    requires var s3 := Run(Run(Run(s, before), scan), between); Valid(Apply(s3, Prune(id, cutoff), true), after)
    ensures var s2 := Run(Run(s, before), scan);
            var s3 := Run(s2, between);
            && (id in s2.records ==> s2.records[id].Good? && ClassifyDone(s2.records[id].entry))
            && (id in s3.records ==> s3.records[id].Good? && ClassifyDone(s3.records[id].entry))
            && id !in Run(Apply(s3, Prune(id, cutoff), true), after).records
  {
    var s1 := Run(s, before);
    RunKeepsInv(s, before);
    RunFollows(s, before, id);
    var s2 := Run(s1, scan);
    RunKeepsInv(s1, scan);
    if Record(s1, id) {
      ScanFinishes(s1, scan, id);
      RunFollows(s1, scan, id);
    } else {
      RemovedForGood(s1, scan, id);
    }
    if Record(s2, id) {
      RunFollows(s2, between, id);
    } else {
      RemovedForGood(s2, between, id);
    }
    var s3 := Run(s2, between);
    RunKeepsInv(s2, between);
    StepKeepsInv(s3, Prune(id, cutoff));
    RemovedForGood(Apply(s3, Prune(id, cutoff), true), after, id);
  }

  /** No prune of the run reaches back past the instant. */
  predicate PrunesUpTo(evs: seq<Event>, instant: Instant) { forall ev | ev in evs && ev.Prune? :: ev.before <= instant }

  /** A delivered record is never removed early: over every run whose prune cutoffs are not past its delivery it stays. */
  lemma {:induction false} KeptUntilCutoff(s: State, evs: seq<Event>, id: ClipId)
    requires Inv(s) == true && Valid(s, evs) && Record(s, id)
    requires var e := s.records[id].entry;
             e.outcome == Some(Delivered) && (e.deliveredAt.Some? ==> PrunesUpTo(evs, e.deliveredAt.value))
    ensures Record(Run(s, evs), id) && Run(s, evs).records[id].entry.deliveredAt == s.records[id].entry.deliveredAt
    decreases |evs|
  {
    if evs != [] {
      var t := Apply(s, evs[0], true);
      assert evs[0] in evs && forall x | x in evs[1..] :: x in evs;
      StepKeepsInv(s, evs[0]);
      StepFollows(s, evs[0], id);
      KeptByStep(s, evs[0], id);
      KeptUntilCutoff(t, evs[1..], id);
    }
  }

  lemma KeptByStep(s: State, ev: Event, id: ClipId)
    requires Inv(s) == true && Enabled(s, ev) && Record(s, id) && s.records[id].entry.outcome == Some(Delivered)
    requires ev.Prune? && s.records[id].entry.deliveredAt.Some? ==> ev.before <= s.records[id].entry.deliveredAt.value
    ensures Record(Apply(s, ev, true), id)
  {
    WritesOnDisk(s, ev);
  }

  /** Of the records delivery writes, the ones that stay for ever: under both policies those of uploads whose answer could
      not be decoded, and under the refusing policy every undeliverable one as well. */
  lemma StaysForever(policy: Policy.Eviction, sch: Schedule, e: Entry, a: Answer, now: Instant)
    requires !e.IsTerminal() && e.classifyTaskId.None? && e.classifyLostAt.None? && e.lastClassifyStatus.None?
    requires AfterUpload(sch, e, a, now).Finish?
    ensures var r := AfterUpload(sch, e, a, now).entry;
            && WrittenByStation(e.clipId, r)
            && (!CanLeave(policy, r) <==>
                  || (a.Refused? && a.err.UndecodableSuccess?)
                  || (policy.RefuseNew? && r.outcome == Some(Undeliverable)))
  {
    AfterUploadDecides(sch, e, a, now);
  }
}
