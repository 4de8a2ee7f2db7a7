/** A boot can always run to completion. */
module BootRuns {
  import opened Queue
  import opened Protocol
  import opened Steps
  import opened Runs

  // ---- Runs made of boot events ----

  ghost predicate Boots(s: Sys, evs: seq<Event>, t: Sys) {
    Valid(s, evs) && Run(s, evs) == t && forall ev :: ev in evs ==> BootEvent(ev)
  }

  lemma BootsOn(s: Sys, first: seq<Event>, t: Sys, second: seq<Event>, u: Sys)
    requires Boots(s, first, t) && Boots(t, second, u)
    ensures Boots(s, first + second, u)
  {
    RunConcat(s, first, second);
  }

  lemma BootsOne(s: Sys, ev: Event)
    requires Enabled(s, ev) && BootEvent(ev)
    ensures Boots(s, [ev], Apply(s, ev))
  {
    RunOne(s, ev, []);
    assert [ev] + [] == [ev];
  }

  // ---- The sweeps ----

  predicate Sweepable(s: Sys, id: ClipId) {
    if s.mode.SweepPending? then SweepablePending(At(s.disk, id)) else SweepableInflight(At(s.disk, id))
  }

  lemma {:induction false} SweepRun(s: Sys, todo: set<ClipId>) returns (evs: seq<Event>, t: Sys)
    requires Inv(s) && (s.mode.SweepPending? || s.mode.SweepInflight?)
    requires forall id :: Sweepable(s, id) ==> id in todo
    ensures Boots(s, evs, t) && Inv(t) && t.mode == s.mode
    ensures (forall id :: !Sweepable(t, id)) && Enabled(t, NextPhase)
    decreases |todo|
  {
    if todo == {} {
      assert s.mode.SweepPending? ==> forall id :: !SweepablePending(At(s.disk, id)) || Sweepable(s, id);
      assert s.mode.SweepInflight? ==> forall id :: !SweepableInflight(At(s.disk, id)) || Sweepable(s, id);
      return [], s;
    }
    var id :| id in todo;
    if !Sweepable(s, id) {
      evs, t := SweepRun(s, todo - {id});
    } else {
      var s' := Apply(s, SweepOne(id));
      StepKeepsInv(s, SweepOne(id));
      BootsOne(s, SweepOne(id));
      var rest;
      rest, t := SweepRun(s', todo - {id});
      evs := [SweepOne(id)] + rest;
      BootsOn(s, [SweepOne(id)], s', rest, t);
    }
  }

  // ---- The recovery ----

  function Stage(w: Worker): nat {
    match w
    case Back(_) => 4
    case BackMove(_) => 3
    case BackWrite(_) => 2
    case BackClear(_) => 1
    case Record(_) => 3
    case Unlink(_) => 2
    case Publish(_) => 1
    case _ => 0
  }

  lemma RecoverStep(s: Sys)
    requires Inv(s) && s.mode.Recover? && !s.worker.Idle?
    ensures var w := WorkerStep(0.0);
            && Enabled(s, w) && Apply(s, w).mode.Recover? && Stage(Apply(s, w).worker) < Stage(s.worker)
            && (Apply(s, w).worker.Idle? || WorkerClip(Apply(s, w).worker) == WorkerClip(s.worker))
            && (Apply(s, w).worker.Idle? ==> At(Apply(s, w).disk, WorkerClip(s.worker).value).inflightJson.None?)
            && forall j :: Some(j) != WorkerClip(s.worker) ==> At(Apply(s, w).disk, j) == At(s.disk, j)
  {
    assert ViewOk(ViewOf(s, WorkerClip(s.worker).value));
  }

  lemma {:induction false} WorkerFinishes(s: Sys) returns (evs: seq<Event>, t: Sys)
    requires Inv(s) && s.mode.Recover?
    ensures Boots(s, evs, t) && Inv(t) && t.mode.Recover? && t.worker.Idle?
    ensures !s.worker.Idle? ==> At(t.disk, WorkerClip(s.worker).value).inflightJson.None?
    ensures forall j :: Some(j) != WorkerClip(s.worker) ==> At(t.disk, j) == At(s.disk, j)
    decreases Stage(s.worker)
  {
    if s.worker.Idle? {
      return [], s;
    }
    var w := WorkerStep(0.0);
    RecoverStep(s);
    StepKeepsInv(s, w);
    BootsOne(s, w);
    var rest;
    rest, t := WorkerFinishes(Apply(s, w));
    evs := [w] + rest;
    BootsOn(s, [w], Apply(s, w), rest, t);
  }

  lemma {:induction false} RecoverRun(s: Sys, todo: set<ClipId>) returns (evs: seq<Event>, t: Sys)
    requires Inv(s) && s.mode.Recover? && s.worker.Idle?
    requires forall id :: At(s.disk, id).inflightJson.Some? ==> id in todo
    ensures Boots(s, evs, t) && Inv(t) && t.mode.Recover? && t.worker.Idle?
    ensures forall id :: At(t.disk, id).inflightJson.None?
    decreases |todo|
  {
    if todo == {} {
      return [], s;
    }
    var id :| id in todo;
    if At(s.disk, id).inflightJson.None? {
      evs, t := RecoverRun(s, todo - {id});
    } else {
      assert ViewOk(ViewOf(s, id));
      var s' := Apply(s, RecoverOne(id));
      assert WorkerClip(s'.worker) == Some(id);
      StepKeepsInv(s, RecoverOne(id));
      BootsOne(s, RecoverOne(id));
      var finish, s'' := WorkerFinishes(s');
      BootsOn(s, [RecoverOne(id)], s', finish, s'');
      var rest;
      rest, t := RecoverRun(s'', todo - {id});
      evs := [RecoverOne(id)] + finish + rest;
      BootsOn(s, [RecoverOne(id)] + finish, s'', rest, t);
    }
  }

  /** From every state in which the process is down, some boot reaches Running. */
  lemma BootCanComplete(s: Sys) returns (evs: seq<Event>)
    requires Inv(s) && s.mode.Down?
    ensures Valid(s, [Boot] + evs) && (forall ev :: ev in evs ==> BootEvent(ev))
    ensures Run(s, [Boot] + evs).mode.Running? && Inv(Run(s, [Boot] + evs))
  {
    var s0 := Apply(s, Boot);
    StepKeepsInv(s, Boot);
    var t: Sys;
    evs, t := BootRest(s0);
    RunOne(s, Boot, evs);
  }

  lemma BootRest(s: Sys) returns (evs: seq<Event>, t: Sys)
    requires Inv(s) && s.mode.SweepPending?
    ensures Boots(s, evs, t) && Inv(t) && t.mode.Running?
  {
    var a, s1 := SweepRun(s, s.disk.Keys);
    var b, s2 := Advance(s1);
    BootsOn(s, a, s1, b, s2);
    var c, s3 := SweepRun(s2, s2.disk.Keys);
    BootsOn(s, a + b, s2, c, s3);
    var d, s4 := Advance(s3);
    BootsOn(s, a + b + c, s3, d, s4);
    var e, s5 := RecoverRun(s4, s4.disk.Keys);
    BootsOn(s, a + b + c + d, s4, e, s5);
    var f, s6 := Advance(s5);
    BootsOn(s, a + b + c + d + e, s5, f, s6);
    evs, t := a + b + c + d + e + f, s6;
  }

  lemma Advance(s: Sys) returns (evs: seq<Event>, t: Sys)
    requires Inv(s) && Enabled(s, NextPhase)
    ensures Boots(s, evs, t) && t == Apply(s, NextPhase) && Inv(t)
  {
    evs, t := [NextPhase], Apply(s, NextPhase);
    StepKeepsInv(s, NextPhase);
    BootsOne(s, NextPhase);
  }
}
