/** Saving the station's credentials (identity.rs): three sibling directories and the steps of `save`, with a crash or an
    I/O error possible between any two of them. */
module Identity {
  import opened Queue

  datatype Credentials = Credentials(cert: string, chain: string, key: string, identity: string)

  /** A file being written is Partial until its contents are complete. */
  datatype File = Missing | Partial | Whole(text: string)

  /** station.crt, ca_chain.pem, station.key and identity.json, in the order they are written. */
  type Dir = d: seq<File> | |d| == 4 witness [Missing, Missing, Missing, Missing]

  const EMPTY: Dir := [Missing, Missing, Missing, Missing]

  function Text(c: Credentials, k: nat): string
    requires k < 4
  {
    if k == 0 then c.cert else if k == 1 then c.chain else if k == 2 then c.key else c.identity
  }

  function Full(c: Credentials): Dir { [Whole(c.cert), Whole(c.chain), Whole(c.key), Whole(c.identity)] }

  /** The next call that `save` makes. */
  datatype Pc =
    | Idle
    | SweepTmp | SweepOld          // remove_dir_all, one entry at a time
    | MakeTmp
    | Write(k: nat)
    | Rotate
    | Promote(existed: bool)
    | Restore
    | Cleanup

  /** `current` is the last set that credentials/ held and `exposed` tells that a save has begun while credentials/ was
      missing; both are history, no step reads them. */
  datatype Station = Station(creds: Option<Dir>, tmp: Option<Dir>, rotated: Option<Dir>, pc: Pc, incoming: Credentials,
                             current: Option<Credentials>, exposed: bool)

  datatype Event =
    | Save(incoming: Credentials, overwrite: bool)
    | Unlink(k: nat)      // one file of the directory being removed
    | Removed             // that directory itself, or it was not there
    | Make
    | Open                // a staged file is created
    | Fill                // and completed
    | RotateAway
    | PromoteNew
    | PromoteFails
    | RestoreOld(ok: bool)
    | Fail                // any other call returns an error
    | Crash

  /** Without `overwrite`, an identity file that is there, readable or not, ends the save at once. */
  predicate Refuses(creds: Option<Dir>, overwrite: bool) { !overwrite && creds.Some? && !creds.value[3].Missing? }

  function Sweeping(s: Station): Option<Dir> {
    match s.pc
    case SweepTmp => s.tmp
    case SweepOld => s.rotated
    case Cleanup => s.rotated
    case _ => None
  }

  predicate Enabled(s: Station, ev: Event) {
    match ev
    case Save(_, _) => s.pc.Idle?
    case Unlink(k) => k < 4 && Sweeping(s).Some?
    case Removed => (s.pc.SweepTmp? || s.pc.SweepOld? || s.pc.Cleanup?) && (Sweeping(s).None? || Sweeping(s).value == EMPTY)
    case Make => s.pc.MakeTmp? && s.tmp.None?
    case Open => s.pc.Write? && s.pc.k < 4 && s.tmp.Some? && s.tmp.value[s.pc.k].Missing?
    case Fill => s.pc.Write? && s.pc.k < 4 && s.tmp.Some? && s.tmp.value[s.pc.k].Partial?
    case RotateAway => s.pc.Rotate? && (s.creds.Some? ==> s.rotated.None?)
    case PromoteNew => s.pc.Promote? && s.creds.None? && s.tmp.Some?
    case PromoteFails => s.pc.Promote?
    case RestoreOld(ok) => s.pc.Restore? && (ok ==> s.rotated.Some? && s.creds.None?)
    case Fail => !s.pc.Promote? && !s.pc.Restore?
    case Crash => true
  }

  function Apply(s: Station, ev: Event): Station
    requires Enabled(s, ev)
  {
    match ev
    case Save(incoming, overwrite) =>
      if Refuses(s.creds, overwrite) then s
      else s.(pc := SweepTmp, incoming := incoming, exposed := s.exposed || s.creds.None?)
    case Unlink(k) =>
      var d: Dir := Sweeping(s).value[k := Missing];
      if s.pc.SweepTmp? then s.(tmp := Some(d)) else s.(rotated := Some(d))
    case Removed =>
      if s.pc.SweepTmp? then s.(tmp := None, pc := SweepOld)
      else s.(rotated := None, pc := if s.pc.SweepOld? then MakeTmp else Idle)
    case Make => s.(tmp := Some(EMPTY), pc := Write(0))
    case Open => s.(tmp := Some(s.tmp.value[s.pc.k := Partial]))
    case Fill =>
      s.(tmp := Some(s.tmp.value[s.pc.k := Whole(Text(s.incoming, s.pc.k))]),
         pc := if s.pc.k == 3 then Rotate else Write(s.pc.k + 1))
    case RotateAway =>
      if s.creds.Some? then s.(creds := None, rotated := s.creds, pc := Promote(true)) else s.(pc := Promote(false))
    case PromoteNew =>
      s.(creds := s.tmp, tmp := None, pc := if s.pc.existed then Cleanup else Idle, current := Some(s.incoming), exposed := false)
    case PromoteFails => s.(pc := if s.pc.existed then Restore else Idle)
    case RestoreOld(ok) => if ok then s.(creds := s.rotated, rotated := None, pc := Idle) else s.(pc := Idle)
    case Fail => s.(pc := Idle)
    case Crash => s.(pc := Idle)
  }

  predicate Valid(s: Station, evs: seq<Event>)
    decreases |evs|
  {
    evs == [] || (Enabled(s, evs[0]) && Valid(Apply(s, evs[0]), evs[1..]))
  }

  function Run(s: Station, evs: seq<Event>): Station
    requires Valid(s, evs)
    decreases |evs|
  {
    if evs == [] then s else Run(Apply(s, evs[0]), evs[1..])
  }

  /** A station between saves, with a complete credentials/ or none, and any leftovers beside it. */
  predicate Start(s: Station) {
    && s.pc.Idle? && !s.exposed
    && s.creds == (if s.current.Some? then Some(Full(s.current.value)) else None)
  }

  /** Both complete sets are still there, under the other two names. */
  predicate BothSurvive(s: Station) {
    s.current.Some? && s.rotated == Some(Full(s.current.value)) && s.tmp == Some(Full(s.incoming))
  }

  /** The staged files written so far. */
  predicate Staged(d: Dir, c: Credentials, k: nat) {
    && k <= 4 && (k < 4 ==> !d[k].Whole?)
    && forall j | 0 <= j < 4 :: if j < k then d[j] == Whole(Text(c, j)) else j > k ==> d[j].Missing?
  }

  predicate PcOk(s: Station) {
    match s.pc
    case MakeTmp => s.tmp.None? && s.rotated.None?
    case Write(k) => k < 4 && s.tmp.Some? && Staged(s.tmp.value, s.incoming, k) && s.rotated.None?
    case Rotate => s.tmp == Some(Full(s.incoming)) && s.rotated.None?
    case Promote(existed) => s.creds.None? && s.tmp == Some(Full(s.incoming)) && (existed ==> BothSurvive(s) && !s.exposed)
    case Restore => s.creds.None? && BothSurvive(s) && !s.exposed
    case SweepOld => s.tmp.None?
    case Cleanup => s.creds.Some?
    case _ => true
  }

  predicate Inv(s: Station) {
    && PcOk(s)
    && (s.creds.Some? ==> s.current.Some? && s.creds == Some(Full(s.current.value)) && !s.exposed)
    && (s.creds.None? && s.current.Some? && !s.exposed ==> BothSurvive(s))
    && (s.creds.None? && !s.exposed ==> s.pc.Idle? || s.pc.Restore? || s.pc == Promote(true))
  }

  lemma StepKeepsInv(s: Station, ev: Event)
    requires Inv(s) == true && Enabled(s, ev)
    ensures Inv(Apply(s, ev)) == true
  {
    match ev {
      case Fill =>
        var t := Apply(s, ev);
        assert s.pc.k == 3 ==> t.tmp.value == Full(s.incoming);
      case _ =>
    }
  }

  lemma {:induction false} RunKeepsInv(s: Station, evs: seq<Event>)
    requires Inv(s) == true && Valid(s, evs)
    ensures Inv(Run(s, evs)) == true
    decreases |evs|
  {
    if evs != [] {
      StepKeepsInv(s, evs[0]);
      RunKeepsInv(Apply(s, evs[0]), evs[1..]);
    }
  }

  /** At every crash point of every run, credentials/ is absent or one complete set: the last one it held. */
  lemma NeverTorn(s: Station, evs: seq<Event>)
    requires Start(s) && Valid(s, evs)
    ensures var t := Run(s, evs);
            t.creds.None? || (t.current.Some? && t.creds == Some(Full(t.current.value)))
  {
    RunKeepsInv(s, evs);
  }

  /** When a set existed, credentials/ is absent only after the first rename of an overwriting save and before the
      second, or after a crash or a failed restore there; then both complete sets survive under the other two names,
      until another save begins to sweep them. */
  lemma AbsentOnlyBetweenRenames(s: Station, evs: seq<Event>)
    requires Start(s) && Valid(s, evs)
    ensures var t := Run(s, evs);
            t.creds.None? && t.current.Some? && !t.exposed ==> BothSurvive(t) && (t.pc == Promote(true) || t.pc.Restore? || t.pc.Idle?)
    ensures var t := Run(s, evs); t.creds.Some? ==> !t.exposed
  {
    RunKeepsInv(s, evs);
  }

  /** Each step leaves credentials/ alone or is one of the three renames, which move complete sets only. */
  lemma OnlyRenamesTouchCreds(s: Station, evs: seq<Event>, ev: Event)
    requires Start(s) && Valid(s, evs) && Enabled(Run(s, evs), ev)
    ensures var t := Run(s, evs);
            var u := Apply(t, ev);
            || u.creds == t.creds
            || (ev.RotateAway? && t.creds.Some? && u.creds.None? && u.rotated == t.creds && u.tmp == Some(Full(t.incoming)))
            || (ev.PromoteNew? && t.creds.None? && u.creds == Some(Full(t.incoming)))
            || (ev == RestoreOld(true) && t.creds.None? && t.current.Some? && u.creds == Some(Full(t.current.value)))
  {
    RunKeepsInv(s, evs);
  }

  /** Without an overwriting save, a complete set stays for ever. */
  lemma {:induction false} RefusedWithoutOverwrite(s: Station, evs: seq<Event>)
    requires s.pc.Idle? && s.creds.Some? && !s.creds.value[3].Missing?
    requires Valid(s, evs) && forall i | 0 <= i < |evs| && evs[i].Save? :: !evs[i].overwrite
    ensures Run(s, evs) == s
    decreases |evs|
  {
    if evs != [] {
      assert Apply(s, evs[0]) == s;
      RefusedWithoutOverwrite(s, evs[1..]);
    }
  }

  predicate HoldsAny(s: Station) {
    Complete(s.creds) || Complete(s.tmp) || Complete(s.rotated)
  }

  predicate Complete(d: Option<Dir>) { d.Some? && forall k | 0 <= k < 4 :: d.value[k].Whole? }

  /** The removal of credentials.tmp, from file k on. */
  function TmpGoneFrom(k: nat): seq<Event>
    requires k <= 4
    decreases 4 - k
  {
    if k == 4 then [Removed] else [Unlink(k)] + TmpGoneFrom(k + 1)
  }

  lemma {:induction false} RunConcat(s: Station, first: seq<Event>, second: seq<Event>)
    requires Valid(s, first) && Valid(Run(s, first), second)
    ensures Valid(s, first + second) && Run(s, first + second) == Run(Run(s, first), second)
    decreases |first|
  {
    if first == [] {
      assert first + second == second;
    } else {
      RunConcat(Apply(s, first[0]), first[1..], second);
      assert (first + second)[1..] == first[1..] + second;
    }
  }

  lemma {:induction false} TmpGone(s: Station, k: nat)
    requires k <= 4 && s.pc.SweepTmp? && s.tmp.Some? && forall j | 0 <= j < k :: s.tmp.value[j].Missing?
    ensures Valid(s, TmpGoneFrom(k)) && Run(s, TmpGoneFrom(k)) == s.(tmp := None, pc := SweepOld)
    decreases 4 - k
  {
    var evs := TmpGoneFrom(k);
    var t := s.(tmp := None, pc := SweepOld);
    if k == 4 {
      assert s.tmp.value == EMPTY;
      assert Apply(s, Removed) == t;
      assert Valid(t, evs[1..]) && Run(t, evs[1..]) == t;
    } else {
      TmpGone(Apply(s, Unlink(k)), k + 1);
      assert evs[1..] == TmpGoneFrom(k + 1);
    }
  }

  lemma OneUnlink(s: Station)
    requires s.pc.SweepOld? && s.creds.None? && s.tmp.None? && s.rotated.Some?
    ensures var end := [Unlink(0), Crash]; Valid(s, end) && !HoldsAny(Run(s, end))
  {
    var t := Apply(s, Unlink(0));
    RunSteps(s, [Unlink(0), Crash], [s, t, Apply(t, Crash)]);
    assert t.rotated.value[0].Missing?;
  }

  /** The next save deletes the survivors before it has staged anything, so a crash during its sweep leaves no complete
      set at all. */
  lemma SurvivorsSweptFirst(s: Station, c: Credentials, overwrite: bool) returns (evs: seq<Event>)
    requires Inv(s) == true && s.pc.Idle? && s.creds.None? && s.current.Some? && !s.exposed
    ensures BothSurvive(s) && Loses(s, c, overwrite, evs)
  {
    var save, end := [Save(c, overwrite)], [Unlink(0), Crash];
    var t := Apply(s, Save(c, overwrite));
    RunSteps(s, save, [s, t]);
    TmpGone(t, 0);
    OneUnlink(Run(t, TmpGoneFrom(0)));
    evs := TmpGoneFrom(0) + end;
    RunConcat(t, TmpGoneFrom(0), end);
    RunConcat(s, save, evs);
    NoSaveIn(0);
  }

  lemma {:induction false} NoSaveIn(k: nat)
    requires k <= 4
    ensures forall i | 0 <= i < |TmpGoneFrom(k)| :: !TmpGoneFrom(k)[i].Save?
    decreases 4 - k
  {
    if k < 4 {
      NoSaveIn(k + 1);
    }
  }

  /** One save, interrupted or not, ends with no complete set under any of the three names. */
  ghost predicate Loses(s: Station, c: Credentials, overwrite: bool, evs: seq<Event>) {
    && (forall i | 0 <= i < |evs| :: !evs[i].Save?)
    && Valid(s, [Save(c, overwrite)] + evs) && !HoldsAny(Run(s, [Save(c, overwrite)] + evs))
  }

  lemma {:induction false} StaysUnexposed(s: Station, evs: seq<Event>)
    requires Inv(s) == true && s.current.Some? && !s.exposed && Valid(s, evs) && forall i | 0 <= i < |evs| :: !evs[i].Save?
    ensures HoldsAny(Run(s, evs))
    decreases |evs|
  {
    if evs == [] {
      FullIsComplete(s.current.value);
      FullIsComplete(s.incoming);
    } else {
      StepKeepsInv(s, evs[0]);
      StaysUnexposed(Apply(s, evs[0]), evs[1..]);
    }
  }

  lemma FullIsComplete(c: Credentials)
    ensures Complete(Some(Full(c)))
  {
  }

  /** A save can lose every complete set exactly when credentials/ is missing as it begins: with credentials/ there, a
      complete set survives every crash and every failing call; without it, some run loses both survivors. */
  lemma SaveIsSafeExactly(s: Station)
    requires Inv(s) == true && s.pc.Idle? && s.current.Some? && !s.exposed
    ensures s.creds.Some? <==> !exists c, overwrite, evs :: Loses(s, c, overwrite, evs)
  {
    if s.creds.Some? {
      forall c, overwrite, evs | Loses(s, c, overwrite, evs) ensures false {
        var save := Save(c, overwrite);
        assert ([save] + evs)[1..] == evs;
        StepKeepsInv(s, save);
        StaysUnexposed(Apply(s, save), evs);
      }
    } else {
      var c := Credentials("", "", "", "");
      var evs := SurvivorsSweptFirst(s, c, true);
      assert Loses(s, c, true, evs);
    }
  }

  lemma {:induction false} StagingRun(s: Station) returns (evs: seq<Event>)
    requires s.pc.Write? && s.pc.k < 4 && s.tmp.Some? && Staged(s.tmp.value, s.incoming, s.pc.k) && s.tmp.value[s.pc.k].Missing?
    ensures Valid(s, evs) && Run(s, evs) == s.(tmp := Some(Full(s.incoming)), pc := Rotate)
    decreases 4 - s.pc.k
  {
    var s1 := Apply(s, Open);
    var s2 := Apply(s1, Fill);
    RunSteps(s, [Open, Fill], [s, s1, s2]);
    if s.pc.k == 3 {
      evs := [Open, Fill];
      assert s2.tmp.value == Full(s.incoming);
    } else {
      var rest := StagingRun(s2);
      RunConcat(s, [Open, Fill], rest);
      evs := [Open, Fill] + rest;
    }
  }

  /** The state in which a save is not safe does occur: an overwriting save of a tidy station, crashed between its
      renames, leaves credentials/ missing and both sets under the other names. */
  lemma InterruptedRotation(s: Station, c: Credentials) returns (evs: seq<Event>)
    requires Start(s) && s.creds.Some? && s.tmp.None? && s.rotated.None?
    ensures Valid(s, evs)
    ensures var t := Run(s, evs); Inv(t) && t.pc.Idle? && t.creds.None? && t.current == s.current && !t.exposed && BothSurvive(t)
  {
    var first := [Save(c, true), Removed, Removed, Make];
    var s1 := Apply(s, Save(c, true));
    var s2 := Apply(s1, Removed);
    var s3 := Apply(s2, Removed);
    var s4 := Apply(s3, Make);
    RunSteps(s, first, [s, s1, s2, s3, s4]);
    var staging := StagingRun(s4);
    RunConcat(s, first, staging);
    var s5 := Run(s4, staging);
    var s6 := Apply(s5, RotateAway);
    RunSteps(s5, [RotateAway, Crash], [s5, s6, Apply(s6, Crash)]);
    RunConcat(s, first + staging, [RotateAway, Crash]);
    evs := first + staging + [RotateAway, Crash];
  }

  /** A run given with its states. */
  lemma {:induction false} RunSteps(s: Station, evs: seq<Event>, states: seq<Station>)
    requires |states| == |evs| + 1 && states[0] == s
    requires forall i | 0 <= i < |evs| :: Enabled(states[i], evs[i]) && states[i + 1] == Apply(states[i], evs[i])
    ensures Valid(s, evs) && Run(s, evs) == states[|evs|]
    decreases |evs|
  {
    if evs != [] {
      assert states[1] == Apply(states[0], evs[0]);
      RunSteps(states[1], evs[1..], states[1..]);
    }
  }

  /** The calls of a save that can fail. */
  datatype SaveCall =
    | SweepStaging | SweepRotated | MakeStaging | StageFile(k: nat) | SyncStaging
    | RotateCreds | PromoteStaging | RestoreCreds | SyncParent | RemoveRotated | Reload

  type SaveFaults = SaveCall -> bool

  datatype Saved = SavedOk | AlreadyExists | IdentityUnreadable | SaveFailed(at: SaveCall)

  /** A call fails before the first rename. */
  predicate StagingFails(fails: SaveFaults) {
    || fails(SweepStaging) || fails(SweepRotated) || fails(MakeStaging) || fails(SyncStaging)
    || exists k | 0 <= k < 4 :: fails(StageFile(k))
  }

  /** The three directories as `save` changes them. */
  class CredentialStore {
    var creds: Option<Dir>
    var tmp: Option<Dir>
    var rotated: Option<Dir>

    constructor (c: Option<Dir>, t: Option<Dir>, r: Option<Dir>)
      ensures creds == c && tmp == t && rotated == r
    {
      creds, tmp, rotated := c, t, r;
    }

    /** Sweep the leftovers and stage the new set; `left` is what a failing removal or write leaves in its directory. */
    method Stage(c: Credentials, fails: SaveFaults, left: Dir) returns (failed: Option<SaveCall>)
      modifies this
      ensures creds == old(creds)
      ensures failed.None? <==> !StagingFails(fails)
      ensures failed.None? ==> tmp == Some(Full(c)) && rotated == None
      ensures failed.Some? ==> fails(failed.value)
    {
      if fails(SweepStaging) {
        tmp := Some(left);
        return Some(SweepStaging);
      }
      tmp := None;
      if fails(SweepRotated) {
        rotated := Some(left);
        return Some(SweepRotated);
      }
      rotated := None;
      if fails(MakeStaging) {
        return Some(MakeStaging);
      }
      var staged: Dir := EMPTY;
      for k := 0 to 4
        invariant Staged(staged, c, k) && creds == old(creds) && rotated == None
        invariant !fails(SweepStaging) && !fails(SweepRotated) && !fails(MakeStaging)
        invariant forall j | 0 <= j < k :: !fails(StageFile(j))
      {
        if fails(StageFile(k)) {
          tmp := Some(staged[k := Partial]);
          return Some(StageFile(k));
        }
        staged := staged[k := Whole(Text(c, k))];
      }
      assert staged == Full(c);
      tmp := Some(staged);
      failed := if fails(SyncStaging) then Some(SyncStaging) else None;
    }

    /** One whole save. A refusal changes nothing; a call that fails before the renames leaves credentials/ as it was; a
        failed promotion puts the old set back if it can; from the promotion on, credentials/ is the new set whatever
        fails; and success leaves only the new set, but for a leftover that could not be removed. */
    method Save(c: Credentials, overwrite: bool, fails: SaveFaults, left: Dir) returns (r: Saved)
      modifies this
      ensures r.AlreadyExists? || r.IdentityUnreadable? <==> Refuses(old(creds), overwrite)
      ensures r.AlreadyExists? ==> old(creds).value[3].Whole?
      ensures Refuses(old(creds), overwrite) ==> creds == old(creds) && tmp == old(tmp) && rotated == old(rotated)
      ensures r.SaveFailed? ==> fails(r.at)
      ensures var staged := !Refuses(old(creds), overwrite) && !StagingFails(fails);
              var rotates := staged && !(old(creds).Some? && fails(RotateCreds));
              && (!Refuses(old(creds), overwrite) && !rotates ==> r.SaveFailed? && creds == old(creds))
              && (rotates && fails(PromoteStaging) ==>
                    && r.SaveFailed? && tmp == Some(Full(c))
                    && creds == (if fails(RestoreCreds) then None else old(creds))
                    && rotated == (if fails(RestoreCreds) then old(creds) else None))
              && (rotates && !fails(PromoteStaging) ==>
                    && creds == Some(Full(c)) && tmp == None
                    && (r.SavedOk? <==> !fails(SyncParent) && !fails(Reload))
                    && (fails(SyncParent) ==> rotated == old(creds))
                    && (!fails(SyncParent) ==> rotated == if old(creds).Some? && fails(RemoveRotated) then Some(left) else None))
    {
      if Refuses(creds, overwrite) {
        return if creds.value[3].Whole? then AlreadyExists else IdentityUnreadable;
      }
      var failed := Stage(c, fails, left);
      if failed.Some? {
        return SaveFailed(failed.value);
      }
      var existed := creds.Some?;
      if existed {
        if fails(RotateCreds) {
          return SaveFailed(RotateCreds);
        }
        rotated, creds := creds, None;
      }
      if fails(PromoteStaging) {
        if existed && !fails(RestoreCreds) {
          creds, rotated := rotated, None;
        }
        return SaveFailed(PromoteStaging);
      }
      creds, tmp := tmp, None;
      if fails(SyncParent) {
        return SaveFailed(SyncParent);
      }
      if existed {
        rotated := if fails(RemoveRotated) then Some(left) else None;
      }
      r := if fails(Reload) then SaveFailed(Reload) else SavedOk;
    }
  }
}
