/** The store's methods with failing calls are runs of the queue protocol: for every choice of the calls that fail, what a
    transition leaves on disk is what its succeeding and failing calls leave there, one after the other. */
module Calls {
  import opened Queue
  import opened Protocol
  import opened Runs

  /** Steps of the delivery task alone lead from s to t. */
  ghost predicate Works(s: Sys, evs: seq<Event>, t: Sys) {
    Valid(s, evs) && Run(s, evs) == t && forall ev :: ev in evs ==> ev.WorkerStep? || ev.WorkerFail?
  }

  lemma WorksNone(s: Sys)
    ensures Works(s, [], s)
  {
  }

  lemma WorksFirst(s: Sys, ev: Event, evs: seq<Event>, t: Sys)
    requires Enabled(s, ev) && (ev.WorkerStep? || ev.WorkerFail?) && Works(Apply(s, ev), evs, t)
    ensures Works(s, [ev] + evs, t)
  {
    RunOne(s, ev, evs);
  }

  /** One call of the delivery task, failing or not, and the files of its clip afterwards. */
  lemma OneCall(s: Sys, now: Instant, fail: bool) returns (ev: Event, t: Sys)
    requires s.mode.Running? && !s.worker.Idle? && !s.worker.Uploading?
    requires fail ==> !s.worker.Ready? && !s.worker.Back?
    ensures Enabled(s, ev) && (ev.WorkerStep? || ev.WorkerFail?) && t == Apply(s, ev) && t.mode.Running?
    ensures var f := At(s.disk, WorkerClip(s.worker).value);
            && t.worker == (if fail then WorkerFailed(s.worker) else WorkerNext(s.worker, f, now))
            && At(t.disk, WorkerClip(s.worker).value) == if fail then f else WorkerFiles(s.worker, f)
  {
    ev := if fail then WorkerFail else WorkerStep(now);
    t := Apply(s, ev);
  }

  lemma InflightAsCalls(s: Sys, e: Entry, now: Instant, fails: Faults) returns (evs: seq<Event>, t: Sys)
    requires s.mode.Running? && s.worker == Picked(e, now) && At(s.disk, e.clipId).pendingMp4.Some?
    ensures Works(s, evs, t) && At(t.disk, e.clipId) == InflightFilesIf(At(s.disk, e.clipId), e, now, fails)
    ensures t.worker == if InflightOk(e.clipId, fails) then Ready(Bumped(e, now)) else Idle
  {
    var id := e.clipId;
    var e1, s1 := OneCall(s, now, fails(id, MoveIn));
    WorksNone(s1);
    evs, t := [], s1;
    if !fails(id, MoveIn) {
      evs, t := WriteAndRemove(s1, Bumped(e, now), now, fails);
    }
    WorksFirst(s, e1, evs, t);
    evs := [e1] + evs;
  }

  lemma WriteAndRemove(s: Sys, b: Entry, now: Instant, fails: Faults) returns (evs: seq<Event>, t: Sys)
    requires s.mode.Running? && s.worker == Moved(b)
    ensures Works(s, evs, t)
    ensures var id, f := b.clipId, At(s.disk, b.clipId);
            if fails(id, WriteInflight) then
              && t.worker == Idle
              && At(t.disk, id) == if fails(id, MoveBack) || f.inflightMp4.None? then f
                                   else f.(pendingMp4 := f.inflightMp4, inflightMp4 := None)
            else
              && t.worker == (if fails(id, RemovePending) then Idle else Ready(b))
              && At(t.disk, id) == if fails(id, RemovePending) then f.(inflightJson := Some(Good(b)))
                                   else f.(inflightJson := Some(Good(b)), pendingJson := None)
  {
    var id := b.clipId;
    var e1, s1 := OneCall(s, now, fails(id, WriteInflight));
    var e2, s2 := OneCall(s1, now, if fails(id, WriteInflight) then fails(id, MoveBack) else fails(id, RemovePending));
    WorksNone(s2);
    WorksFirst(s1, e2, [], s2);
    WorksFirst(s, e1, [e2] + [], s2);
    evs, t := [e1] + ([e2] + []), s2;
  }

  lemma DeliverAsCalls(s: Sys, e: Entry, now: Instant, fails: Faults) returns (evs: seq<Event>, t: Sys)
    requires s.mode.Running? && s.worker == Record(e)
    ensures Works(s, evs, t) && At(t.disk, e.clipId) == DeliveredFilesIf(At(s.disk, e.clipId), e, fails) && t.worker == Idle
  {
    var id := e.clipId;
    var e1, s1 := OneCall(s, now, fails(id, WriteRecord));
    WorksNone(s1);
    evs, t := [], s1;
    if !fails(id, WriteRecord) {
      evs, t := UnlinkAndPublish(s1, e, now, fails);
    }
    WorksFirst(s, e1, evs, t);
    evs := [e1] + evs;
  }

  lemma UnlinkAndPublish(s: Sys, e: Entry, now: Instant, fails: Faults) returns (evs: seq<Event>, t: Sys)
    requires s.mode.Running? && s.worker == Unlink(e) && At(s.disk, e.clipId).inflightJson == Some(Good(e))
    ensures Works(s, evs, t) && t.worker == Idle
    ensures var id, f := e.clipId, At(s.disk, e.clipId);
            At(t.disk, id) ==
              if f.inflightMp4.Some? && fails(id, UnlinkMedia) then f
              else if fails(id, PublishRecord) then f.(inflightMp4 := None)
              else f.(inflightMp4 := None, inflightJson := None, deliveredJson := Some(Good(e)))
  {
    var id := e.clipId;
    var stuck := At(s.disk, id).inflightMp4.Some? && fails(id, UnlinkMedia);
    var e1, s1 := OneCall(s, now, stuck);
    WorksNone(s1);
    evs, t := [], s1;
    if !stuck {
      var e2, s2 := OneCall(s1, now, fails(id, PublishRecord));
      WorksNone(s2);
      WorksFirst(s1, e2, [], s2);
      evs, t := [e2] + [], s2;
    }
    WorksFirst(s, e1, evs, t);
    evs := [e1] + evs;
  }

  lemma RequeueAsCalls(s: Sys, e: Entry, now: Instant, fails: Faults) returns (evs: seq<Event>, t: Sys)
    requires s.mode.Running? && s.worker == Back(e)
    ensures Works(s, evs, t) && At(t.disk, e.clipId) == RequeuedFilesIf(At(s.disk, e.clipId), e, fails) && t.worker == Idle
  {
    var id := e.clipId;
    var e1, s1 := OneCall(s, now, false);
    if At(s.disk, id).inflightMp4.None? {
      evs, t := WriteAndClear(s1, e, now, fails);
    } else {
      var e2, s2 := OneCall(s1, now, fails(id, ReturnMedia));
      WorksNone(s2);
      evs, t := [], s2;
      if !fails(id, ReturnMedia) {
        evs, t := WriteAndClear(s2, e, now, fails);
      }
      WorksFirst(s1, e2, evs, t);
      evs := [e2] + evs;
    }
    WorksFirst(s, e1, evs, t);
    evs := [e1] + evs;
  }

  lemma WriteAndClear(s: Sys, e: Entry, now: Instant, fails: Faults) returns (evs: seq<Event>, t: Sys)
    requires s.mode.Running? && s.worker == BackWrite(e)
    ensures Works(s, evs, t) && t.worker == Idle
    ensures var id, f := e.clipId, At(s.disk, e.clipId);
            At(t.disk, id) ==
              if fails(id, WritePending) then f
              else if f.inflightJson.Some? && fails(id, RemoveInflight) then f.(pendingJson := Some(Good(e)))
              else f.(pendingJson := Some(Good(e)), inflightJson := None)
  {
    var id := e.clipId;
    var e1, s1 := OneCall(s, now, fails(id, WritePending));
    WorksNone(s1);
    evs, t := [], s1;
    if !fails(id, WritePending) {
      var e2, s2 := OneCall(s1, now, At(s.disk, id).inflightJson.Some? && fails(id, RemoveInflight));
      WorksNone(s2);
      WorksFirst(s1, e2, [], s2);
      evs, t := [e2] + [], s2;
    }
    WorksFirst(s, e1, evs, t);
    evs := [e1] + evs;
  }

  lemma OrphanAsCalls(s: Sys, id: ClipId, now: Instant, fails: Faults) returns (evs: seq<Event>, t: Sys)
    requires s.mode.Running? && s.worker == OrphanJson(id)
    ensures Works(s, evs, t) && At(t.disk, id) == OrphanRemovedFilesIf(At(s.disk, id), id, fails) && t.worker == Idle
  {
    var f := At(s.disk, id);
    var stuck := f.pendingJson.Some? && fails(id, DropSidecar);
    var e1, s1 := OneCall(s, now, stuck);
    WorksNone(s1);
    evs, t := [], s1;
    if !stuck {
      var e2, s2 := OneCall(s1, now, f.pendingMp4.Some? && fails(id, DropMedia));
      WorksNone(s2);
      WorksFirst(s1, e2, [], s2);
      evs, t := [e2] + [], s2;
    }
    WorksFirst(s, e1, evs, t);
    evs := [e1] + evs;
  }

  /** The quarantine of a corrupt sidecar whose first rename succeeds. */
  lemma QuarantineAsCalls(s: Sys, id: ClipId, now: Instant, fails: Faults) returns (evs: seq<Event>)
    requires Enabled(s, Quarantine(id)) && !fails(id, SetAsideSidecar)
    ensures Valid(s, [Quarantine(id)] + evs) && Run(s, [Quarantine(id)] + evs).worker == Idle
    ensures At(Run(s, [Quarantine(id)] + evs).disk, id) == QuarantinedFilesIf(At(s.disk, id), id, fails)
  {
    var s1 := Apply(s, Quarantine(id));
    var e1, s2 := OneCall(s1, now, fails(id, SetAsideMedia));
    WorksNone(s2);
    WorksFirst(s1, e1, [], s2);
    evs := [e1] + [];
    RunOne(s, Quarantine(id), evs);
  }

  /** An enqueue whose media has been placed. */
  lemma EnqueueAsCalls(s: Sys, e: Entry, m: nat, fails: Faults) returns (evs: seq<Event>)
    requires Enabled(s, Place(e, m))
    ensures Valid(s, [Place(e, m)] + evs) && Run(s, [Place(e, m)] + evs).capturer == Quiet
    ensures At(Run(s, [Place(e, m)] + evs).disk, e.clipId) ==
              var f := At(s.disk, e.clipId);
              if !fails(e.clipId, WriteNew) then f.(pendingMp4 := Some(m), pendingJson := Some(Good(e)))
              else f.(pendingMp4 := if fails(e.clipId, RemovePlaced) then Some(m) else None)
  {
    var s1 := Apply(s, Place(e, m));
    if !fails(e.clipId, WriteNew) {
      RunOne(s1, CaptureStep, []);
      evs := [CaptureStep] + [];
    } else {
      var s2 := Apply(s1, CaptureFail);
      var last := if fails(e.clipId, RemovePlaced) then CaptureFail else CaptureStep;
      RunOne(s2, last, []);
      RunOne(s1, CaptureFail, [last] + []);
      evs := [CaptureFail] + ([last] + []);
    }
    RunOne(s, Place(e, m), evs);
  }
}
