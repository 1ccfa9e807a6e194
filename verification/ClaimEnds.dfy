/**
 How attempts end, over every run: nothing stays staged once an attempt is past its publication, an
 attempt gives up only after all its publications were contended, a record is its holder's unless a
 release was refused, and the last to release or clear leaves no set behind.
 */
module ClaimEnds {
  import opened Options
  import opened ClaimModel
  import opened ClaimBase
  import opened ClaimSafety
  import opened ClaimRuns
  import opened ClaimLate
  import opened ClaimLive

  // ---------------------------------------------------------------- what is staged

  /** The calls between which an attempt may have something staged. */
  ghost predicate MayStage(pc: PC) {
    pc.StageRecord? || pc.RenameDir? || pc.RenameFile? || pc.Unstage?
  }

  ghost predicate Stages(s: State, c: Id) {
    Known(s, c) && c == Cur(s, c.t) && MayStage(s.threads[c.t].pc)
  }

  ghost predicate StagedOk(s: State) {
    forall c | c in s.fs.staging :: Stages(s, c)
  }

  lemma PublishStages(s: State, t: nat, ch: Choice)
    requires t < |s.threads| && Publishing(s.threads[t].pc)
    requires Cur(s, t) in s.fs.staging ==> MayStage(s.threads[t].pc)
    ensures var r := StepPublish(s, t, ch); Cur(s, t) in r.fs.staging ==> MayStage(r.pc) && r.n == s.threads[t].n
  {
  }

  /** No call but its own stages a claim. */
  lemma MoveStages(s: State, t: nat, ch: Choice, c: Id)
    requires t < |s.threads|
    ensures var f' := StepThread(s, t, ch).fs;
            c in f'.staging && (c != Cur(s, t) || !Publishing(s.threads[t].pc)) ==> c in s.fs.staging
  {
    var pc := s.threads[t].pc;
    if pc.Inspect? {
      SurveyFs(s, t, pc.why, pc.survey, ch);
    } else if pc.Release? {
      ReleaseStaging(s, t, pc.rel, pc.out, ch);
    } else if Publishing(pc) && c != Cur(s, t) {
      PublishStaging(s, t, ch, c);
    }
  }

  lemma MoveStagedOk(s: State, t: nat, ch: Choice)
    requires StagedOk(s) && t < |s.threads| && s.threads[t].proc !in s.gone
    ensures StagedOk(Step(s, Move(t, ch)))
  {
    var s' := Step(s, Move(t, ch));
    forall c | c in s'.fs.staging ensures Stages(s', c) {
      MoveStages(s, t, ch, c);
      if c == Cur(s, t) && Publishing(s.threads[t].pc) { PublishStages(s, t, ch); }
    }
  }

  lemma {:induction false} RunStagedOk(s: State, acts: seq<Action>)
    requires StagedOk(s)
    ensures StagedOk(Run(s, acts))
    decreases |acts|
  {
    if acts != [] {
      var a := acts[0];
      if a.Move? && a.t < |s.threads| && s.threads[a.t].proc !in s.gone { MoveStagedOk(s, a.t, a.choice); }
      RunStagedOk(Step(s, a), acts[1..]);
    }
  }

  /**
   In every run, whatever is staged is what the current attempt of its thread is about to rename or to remove: an
   attempt that published, gave up, failed or goes on under another id has left nothing staged.
   */
  lemma StagedByPublisher(acts: seq<Action>, c: Id)
    requires c in Run(Init, acts).fs.staging
    ensures var s := Run(Init, acts);
            Known(s, c) && c.n == s.threads[c.t].n && Publishing(s.threads[c.t].pc) && !s.threads[c.t].pc.MakeRoot?
  {
    RunStagedOk(Init, acts);
  }

  // ---------------------------------------------------------------- how often a publication is tried

  ghost predicate TriesOk(th: Thread) {
    || (th.n < PUBLISH_ATTEMPTS && !(th.pc.Inspect? && th.pc.why.Last?))
    || (th.n == PUBLISH_ATTEMPTS && (th.pc.Done? || (th.pc.Inspect? && th.pc.why.Last?)))
  }

  lemma MoveTries(s: State, t: nat, ch: Choice)
    requires t < |s.threads| && TriesOk(s.threads[t])
    ensures var r := StepThread(s, t, ch); TriesOk(s.threads[t].(n := r.n, pc := r.pc))
  {
    var pc := s.threads[t].pc;
    if pc.Inspect? { SurveyTries(s, t, pc.why, pc.survey, ch); }
  }

  lemma SurveyTries(s: State, t: nat, why: Why, v: Survey, ch: Choice)
    requires t < |s.threads| && s.threads[t].pc == Inspect(why, v)
    ensures var r := StepSurvey(s, t, why, v, ch);
            r.n == s.threads[t].n && (if r.pc.Inspect? then r.pc.why == why else why.Last? ==> r.pc.Done?)
  {
    ReadGoesOn(s, why, v, ch);
    SweepGoesOn(s, t, why, v, ch);
  }

  lemma {:induction false} RunTries(s: State, acts: seq<Action>)
    requires forall t: nat | t < |s.threads| :: TriesOk(s.threads[t])
    ensures forall t: nat | t < |Run(s, acts).threads| :: TriesOk(Run(s, acts).threads[t])
    decreases |acts|
  {
    if acts != [] {
      var a, s' := acts[0], Step(s, acts[0]);
      if a.Move? && a.t < |s.threads| { MoveTries(s, a.t, a.choice); }
      RunTries(s', acts[1..]);
    }
  }

  /**
   In every run an attempt makes its last inspection exactly after all of its publications were contended, and after
   it nothing but an answer follows; no attempt publishes under a later id.
   */
  lemma GivesUpAfterAll(acts: seq<Action>, t: nat)
    requires t < |Run(Init, acts).threads|
    ensures var th := Run(Init, acts).threads[t];
            && th.n <= PUBLISH_ATTEMPTS
            && (th.pc.Inspect? && th.pc.why.Last? ==> th.n == PUBLISH_ATTEMPTS)
            && (th.n == PUBLISH_ATTEMPTS ==> th.pc.Done? || (th.pc.Inspect? && th.pc.why.Last?))
  {
    RunTries(Init, acts);
  }

  /** A claim of this mode may not be had beside it. */
  ghost predicate Conflicts(s: State, c: Id, m: Mode) {
    Known(s, c) && (m == Exclusive || ModeOf(s, c) == Exclusive)
  }

  /**
   From every state any run reaches in which all can be judged: by its own calls the last inspection ends the attempt,
   held exactly if some claim that is not dead stands in its way, and otherwise failed.
   */
  lemma LastLookAnswers(acts: seq<Action>, t: nat) returns (s': State)
    requires var s := Run(Init, acts);
             && t < |s.threads| && s.threads[t].proc !in s.gone && s.threads[t].pc == Inspect(Last, NewSurvey)
             && Answerable(s)
    ensures var s := Run(Init, acts);
            && Leads(s, t, s') && t < |s'.threads|
            && s'.threads[t].pc == Done(if exists c :: Standing(s, c) && Conflicts(s, c, s.threads[t].mode) then Held
                                        else Failed)
  {
    var s := Run(Init, acts);
    AlwaysBase(acts);
    s' := InspectionFinds(s, t, Last);
    forall c ensures c in Living(s) <==> Standing(s, c) { LivingStands(s, c); }
    var e, h := OfMode(s, Living(s), Exclusive), OfMode(s, Living(s), Shared);
    if c :| Standing(s, c) && Conflicts(s, c, s.threads[t].mode) {
      assert c in e || c in h;
    } else {
      forall c ensures c !in e && (s.threads[t].mode == Exclusive ==> c !in h) {
        if c in e + h { assert Standing(s, c); }
      }
    }
  }

  lemma LivingStands(s: State, c: Id)
    requires Base(s)
    ensures c in Living(s) <==> Standing(s, c)
  {
    assert DirOk(s, Exclusive) && DirOk(s, Shared);
  }

  // ---------------------------------------------------------------- records have holders

  /** The thread's record is to stay, or its release has yet to unlink it. */
  ghost predicate Keeps(pc: PC) {
    Published(pc) || (pc.Release? && (pc.rel.RelRead? || pc.rel.RelChild? || pc.rel.RelClaim?))
  }

  ghost predicate HeldRecords(s: State) {
    forall c | OnRecord(s, c) :: c == Cur(s, c.t) && Keeps(s.threads[c.t].pc)
  }

  /** No call of a release is refused. */
  ghost predicate ReleasesAnswered(s: State, acts: seq<Action>)
    decreases |acts|
  {
    acts == [] ||
    (&& (var a := acts[0];
         a.Move? && a.t < |s.threads| && s.threads[a.t].pc.Release? ==> !a.choice.Refuse?)
     && ReleasesAnswered(Step(s, acts[0]), acts[1..]))
  }

  lemma ReleaseHolds(s: State, t: nat, at: ReleaseAt, out: Outcome, ch: Choice)
    requires t < |s.threads| && s.threads[t].pc == Release(at, out) && !ch.Refuse?
    requires Cur(s, t) in Claims(s.fs, s.threads[t].mode) ==> Keeps(Release(at, out))
    ensures var r := StepRelease(s, t, at, out, ch);
            r.n == s.threads[t].n && (Cur(s, t) in Claims(r.fs, s.threads[t].mode) ==> Keeps(r.pc))
  {
    ReleaseChanges(s, t, at, out, ch, Cur(s, t), s.threads[t].mode);
  }

  lemma SurveyHolds(s: State, t: nat, why: Why, v: Survey, ch: Choice)
    requires t < |s.threads| && s.threads[t].pc == Inspect(why, v) && Published(Inspect(why, v))
    ensures var r := StepSurvey(s, t, why, v, ch); r.n == s.threads[t].n && Keeps(r.pc)
  {
    ReadGoesOn(s, why, v, ch);
    SweepGoesOn(s, t, why, v, ch);
  }

  lemma HoldHolds(s: State, t: nat, ch: Choice)
    requires t < |s.threads| && (s.threads[t].pc.Pending? || InUse(s.threads[t].pc))
    ensures var r := StepHold(s, t, ch); r.n == s.threads[t].n && Keeps(r.pc)
  {
  }

  lemma OwnHolds(s: State, t: nat, ch: Choice)
    requires Moves(s, t) && !(s.threads[t].pc.Release? && ch.Refuse?)
    requires Cur(s, t) in Claims(s.fs, s.threads[t].mode) ==> Keeps(s.threads[t].pc)
    ensures var r := StepThread(s, t, ch);
            Cur(s, t) in Claims(r.fs, s.threads[t].mode) ==> r.n == s.threads[t].n && Keeps(r.pc)
  {
    var pc := s.threads[t].pc;
    if pc.Inspect? && Published(pc) {
      SurveyHolds(s, t, pc.why, pc.survey, ch);
    } else if pc.Release? {
      ReleaseHolds(s, t, pc.rel, pc.out, ch);
    } else if pc.Pending? || InUse(pc) {
      HoldHolds(s, t, ch);
    } else {
      MoveGains(s, t, ch, Cur(s, t), s.threads[t].mode);
      MoveGoesOn(s, t, ch);
    }
  }

  lemma MoveHolds(s: State, t: nat, ch: Choice)
    requires Moves(s, t) && HeldRecords(s) && !(s.threads[t].pc.Release? && ch.Refuse?)
    ensures HeldRecords(Step(s, Move(t, ch)))
  {
    var s' := Step(s, Move(t, ch));
    OwnHolds(s, t, ch) by {
      if Cur(s, t) in Claims(s.fs, s.threads[t].mode) { assert OnRecord(s, Cur(s, t)); }
    }
    forall c | OnRecord(s', c) ensures c == Cur(s', c.t) && Keeps(s'.threads[c.t].pc) {
      MoveGains(s, t, ch, c, ModeOf(s', c));
      if c != Cur(s, t) {
        assert OnRecord(s, c);
      }
    }
  }

  lemma {:induction false} RunHolds(s: State, acts: seq<Action>)
    requires Base(s) && HeldRecords(s) && ReleasesAnswered(s, acts)
    ensures HeldRecords(Run(s, acts))
    decreases |acts|
  {
    if acts != [] {
      var a := acts[0];
      BaseKeeps(s, a);
      if a.Move? && a.t < |s.threads| && s.threads[a.t].proc !in s.gone { MoveHolds(s, a.t, a.choice); }
      assert HeldRecords(Step(s, a)) by {
        if !a.Move? { QuietHolds(s, a); }
      }
      RunHolds(Step(s, a), acts[1..]);
    }
  }

  lemma QuietHolds(s: State, a: Action)
    requires Base(s) && HeldRecords(s) && !a.Move?
    ensures HeldRecords(Step(s, a))
  {
    var s' := Step(s, a);
    forall c | OnRecord(s', c) ensures c == Cur(s', c.t) && Keeps(s'.threads[c.t].pc) {
      assert DirOk(s, Exclusive) && DirOk(s, Shared);
      assert OnRecord(s, c);
    }
  }

  /**
   In every run in which no call of a release is refused, each record on disk is of an attempt that has not ended: its
   thread has it published, or has yet to unlink it. Whatever throws or gives way after publication takes its
   record with it.
   */
  lemma RecordsHaveHolders(acts: seq<Action>, c: Id)
    requires ReleasesAnswered(Init, acts) && OnRecord(Run(Init, acts), c)
    ensures var s := Run(Init, acts); c.n == s.threads[c.t].n && !s.threads[c.t].pc.Done?
  {
    RunHolds(Init, acts);
  }

  // ---------------------------------------------------------------- the last one out

  /** No claim but this one has an entry on disk. */
  ghost predicate Alone(f: Fs, c: Id) {
    forall m: Mode :: Claims(f, m) <= {c} && Children(f, m).Keys <= {c}
  }

  const Nothing := Fs(false, Absent, Absent, map[])

  /** The store after a release unlinked a claim's child record and its record. */
  ghost function Unlinked(f: Fs, m: Mode, c: Id): Fs {
    UnlinkClaim(UnlinkChild(f, m, c), m, c)
  }

  lemma UnlinkedIsEmpty(f: Fs, m: Mode, c: Id)
    requires Alone(f, c) && c in Claims(f, m)
    requires forall d: Mode | d != m :: Claims(f, d) == {} && Children(f, d) == map[]
    ensures var f' := Tidy(Unlinked(f, m, c), m);
            && DirOf(f', m).Absent? && f'.staging == f.staging && f'.root == f.root
            && forall d: Mode | d != m :: DirOf(f', d) == DirOf(f, d)
  {
    var f2 := Unlinked(f, m, c);
    assert DirOf(f2, m).claims == {};
    assert DirOf(f2, m).children == map[];
  }

  /** One call of a release, before what follows it. */
  lemma Hop(s: State, t: nat, f: Fs, at: ReleaseAt, out: Outcome, s': State)
    requires t < |s.threads| && s.threads[t].proc !in s.gone
    requires var s1 := After(s, t, Call(f, s.threads[t].n, Release(at, out)));
             Leads(After(s, t, StepRelease(s1, t, at, out, Go)), t, s')
    ensures Leads(After(s, t, Call(f, s.threads[t].n, Release(at, out))), t, s')
  {
    var s1 := After(s, t, Call(f, s.threads[t].n, Release(at, out)));
    assert Step(s1, Move(t, Go)) == After(s, t, StepRelease(s1, t, at, out, Go));
    LeadsOn(s1, t, Go, s');
  }

  lemma TidiedIsNothing(f: Fs)
    requires f.staging == map[] && forall m: Mode :: Claims(f, m) == {} && Children(f, m) == map[]
    ensures TidyRoot(Tidy(Tidy(f, Exclusive), Shared)) == Nothing
  {
    assert Claims(f, Exclusive) == {} && Children(f, Exclusive) == map[];
    assert Claims(f, Shared) == {} && Children(f, Shared) == map[];
    assert f.excl.Absent? || EmptyDir(f.excl);
    assert f.shar.Absent? || EmptyDir(f.shar);
  }

  /** The tidying that ends a clearing leaves nothing of an empty set. */
  lemma TidiesSet(s: State, t: nat, f: Fs, out: Outcome)
    requires t < |s.threads| && s.threads[t].proc !in s.gone && f.staging == map[]
    requires forall m: Mode :: Claims(f, m) == {} && Children(f, m) == map[]
    ensures var n := s.threads[t].n;
            Leads(After(s, t, Call(f, n, Release(RelTidySet(3), out))), t, After(s, t, Call(Nothing, n, Done(out))))
  {
    var s' := After(s, t, Call(Nothing, s.threads[t].n, Done(out)));
    var f1 := Tidy(f, Exclusive);
    var f2 := Tidy(f1, Shared);
    TidiedIsNothing(f);
    LeadsNowhere(s', t);
    Hop(s, t, Nothing, RelTidySet(0), out, s');
    Hop(s, t, f2, RelTidySet(1), out, s');
    Hop(s, t, f1, RelTidySet(2), out, s');
    Hop(s, t, f, RelTidySet(3), out, s');
  }

  /** After its record is unlinked, the last claim's release has only to tidy. */
  lemma TidiesAfter(s: State, t: nat, f: Fs, out: Outcome)
    requires t < |s.threads| && s.threads[t].proc !in s.gone && f.staging == map[]
    requires DirOf(f, s.threads[t].mode).Absent? && forall m: Mode :: Claims(f, m) == {} && Children(f, m) == map[]
    requires (s.threads[t].clear && out.Released?) || (f.excl.Absent? && f.shar.Absent?)
    ensures var n := s.threads[t].n;
            Leads(After(s, t, Call(f, n, Release(RelTidyRoot, out))), t, After(s, t, Call(Nothing, n, Done(out))))
  {
    var s' := After(s, t, Call(Nothing, s.threads[t].n, Done(out)));
    var f1 := TidyRoot(f);
    if s.threads[t].clear && out.Released? {
      assert forall m: Mode :: Claims(f1, m) == {} && Children(f1, m) == map[];
      TidiesSet(s, t, f1, out);
    } else {
      LeadsNowhere(s', t);
    }
    Hop(s, t, f, RelTidyRoot, out, s');
  }

  /**
   From every state: the release of the last claim on disk, with nothing staged, leads by its own calls to its end with
   no set left at all, root and directories gone. After a clearing the other directory may be there, empty; else
   it must be gone.
   */
  lemma LastReleaseLeavesNothing(s: State, t: nat, out: Outcome)
    requires t < |s.threads| && s.threads[t].proc !in s.gone && s.threads[t].pc == Release(RelRead, out)
    requires OnRecord(s, Cur(s, t)) && Alone(s.fs, Cur(s, t)) && s.fs.staging == map[]
    requires forall m: Mode | m != s.threads[t].mode ::
               if s.threads[t].clear && out.Released? then Claims(s.fs, m) == {} && Children(s.fs, m) == map[]
               else DirOf(s.fs, m).Absent?
    ensures Leads(s, t, After(s, t, Call(Nothing, s.threads[t].n, Done(out))))
  {
    var m, c, n := s.threads[t].mode, Cur(s, t), s.threads[t].n;
    var s' := After(s, t, Call(Nothing, n, Done(out)));
    var f1 := UnlinkChild(s.fs, m, c);
    var f2 := UnlinkClaim(f1, m, c);
    var f3 := Tidy(f2, m);
    UnlinkedIsEmpty(s.fs, m, c);
    assert forall d: Mode :: Claims(f3, d) == {} && Children(f3, d) == map[] by {
      assert forall d: Mode | d != m :: DirOf(f3, d) == DirOf(s.fs, d);
    }
    assert !(s.threads[t].clear && out.Released?) ==> f3.excl.Absent? && f3.shar.Absent? by {
      assert forall d: Mode | d != m :: DirOf(f3, d) == DirOf(s.fs, d);
      assert f3.excl == DirOf(f3, Exclusive) && f3.shar == DirOf(f3, Shared);
    }
    TidiesAfter(s, t, f3, out);
    Hop(s, t, f2, RelTidyDir, out, s');
    Hop(s, t, f1, RelClaim, out, s');
    Hop(s, t, s.fs, RelChild, out, s');
    Hop(s, t, s.fs, RelRead, out, s');
    assert s == After(s, t, Call(s.fs, n, Release(RelRead, out)));
  }

  /**
   In every run: a clearing call that holds the only claim leads, by its own calls, to the set being gone, whatever
   others had staged.
   */
  lemma ClearedSetIsGone(acts: seq<Action>, t: nat) returns (s': State)
    requires var s := Run(Init, acts);
             && t < |s.threads| && s.threads[t].proc !in s.gone && s.threads[t].clear && s.threads[t].pc.Acquired?
             && OnRecord(s, Cur(s, t)) && Alone(s.fs, Cur(s, t))
    ensures Leads(Run(Init, acts), t, s') && s'.fs == Nothing && t < |s'.threads| && s'.threads[t].pc == Done(Released)
  {
    var s := Run(Init, acts);
    AlwaysBase(acts);
    assert Local(s, t) && DirOk(s, Shared);
    var s3 := ClearsStaged(s, t);
    assert Cur(s3, t) == Cur(s, t) && Alone(s3.fs, Cur(s, t));
    assert Claims(s.fs, Shared) == {} && Children(s.fs, Shared) == map[] by {
      assert Cur(s, t) !in Claims(s.fs, Shared) && Cur(s, t) !in Children(s.fs, Shared).Keys;
    }
    LastReleaseLeavesNothing(s3, t, Released);
    s' := After(s3, t, Call(Nothing, s3.threads[t].n, Done(Released)));
    LeadsChain(s, s3, s', t);
  }

  /**
   In every run: a clearing call that finds the set in use, and so is left pending, leads by its own calls to the
   answer that it is held, its record and child record gone and what others have staged untouched.
   */
  lemma BusySetIsLeft(acts: seq<Action>, t: nat) returns (s': State)
    requires var s := Run(Init, acts);
             && t < |s.threads| && s.threads[t].proc !in s.gone && s.threads[t].clear && s.threads[t].pc.Pending?
             && OnRecord(s, Cur(s, t))
    ensures var s, m := Run(Init, acts), Run(Init, acts).threads[t].mode;
            && Leads(s, t, s') && t < |s'.threads| && s'.threads[t].pc == Done(Held) && s'.fs.staging == s.fs.staging
            && Cur(s, t) !in Claims(s'.fs, m) && Cur(s, t) !in Children(s'.fs, m)
  {
    var s := Run(Init, acts);
    var s1 := Step(s, Move(t, Go));
    assert s1 == Goto(s, t, Release(RelRead, Held));
    var ends := ReleaseEnds(s1, t);
    RunFrees(s1, ends, t);
    EndedKeeps(s1, ends, t);
    ReleaseLeaves(s1, t, ends, Held);
    s' := Run(s1, ends);
    assert Leads(s1, t, s');
    LeadsOn(s, t, Go, s');
  }
}
