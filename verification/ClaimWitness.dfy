/**
 Three runs that mark the edge of what the claim protocol guarantees. They are built from whole
 inspections, each proved to be the fixed number of calls it takes.
 */
module ClaimWitness {
  import opened ClaimModel
  import opened ClaimBase
  import opened ClaimRuns

  ghost predicate Reaches(s: State, s': State) {
    exists acts: seq<Action> :: Run(s, acts) == s'
  }

  lemma One(s: State, a: Action)
    ensures Reaches(s, Step(s, a))
  {
    assert Run(s, [a]) == Step(s, a);
  }

  lemma Chain(a: State, b: State, c: State)
    requires Reaches(a, b) && Reaches(b, c)
    ensures Reaches(a, c)
  {
    var p :| Run(a, p) == b;
    var q :| Run(b, q) == c;
    RunAppend(a, p, q);
  }

  /** Thread `t` is alive and makes its next call. */
  lemma Next(a: State, s: State, t: nat, ch: Choice, s': State)
    requires Reaches(a, s) && t < |s.threads| && s.threads[t].proc !in s.gone
    requires s' == Step(s, Move(t, ch))
    ensures Reaches(a, s')
  {
    One(s, Move(t, ch));
    Chain(a, s, s');
  }

  ghost predicate Bare(f: Fs, m: Mode) {
    Claims(f, m) == {} && Children(f, m) == map[]
  }

  function OnDisk(s: State, f: Fs): State {
    s.(fs := f)
  }

  /** An inspection that has listed and judged everything, with nothing to remove. */
  function Counted(live: set<Id>): Survey {
    Survey(AtOrphans, {}, live, {}, {})
  }

  function Settled(s: State, live: set<Id>): Fs {
    var f := if OfMode(s, live, Exclusive) == {} then Tidy(s.fs, Exclusive) else s.fs;
    if OfMode(s, live, Shared) == {} then Tidy(f, Shared) else f
  }

  ghost predicate AtWork(s: State, t: nat, why: Why, v: Survey) {
    t < |s.threads| && s.threads[t].proc !in s.gone && s.threads[t].pc == Inspect(why, v)
  }

  function Concluded(s: State, t: nat, why: Why, live: set<Id>): State
    requires t < |s.threads|
  {
    After(s, t, Call(Settled(s, live), s.threads[t].n, Conclude(s, s.threads[t].mode, why, live)))
  }

  lemma ToTidy(s: State, t: nat, why: Why, live: set<Id>)
    requires AtWork(s, t, why, Counted(live))
    ensures Reaches(s, Goto(s, t, Inspect(why, Counted(live).(at := AtTidyExclusive))))
  {
    One(s, Move(t, Go));
    Next(s, Goto(s, t, Inspect(why, Counted(live).(at := AtReap))), t, Go,
         Goto(s, t, Inspect(why, Counted(live).(at := AtTidyExclusive))));
  }

  lemma SameThreadsSameModes(s: State, t: nat, r: Call, live: set<Id>)
    requires t < |s.threads|
    ensures forall m: Mode :: OfMode(After(s, t, r), live, m) == OfMode(s, live, m)
  {
  }

  lemma TidyTwice(s: State, t: nat, why: Why, live: set<Id>)
    requires AtWork(s, t, why, Counted(live).(at := AtTidyExclusive))
    ensures Reaches(s, Concluded(s, t, why, live))
  {
    var f := if OfMode(s, live, Exclusive) == {} then Tidy(s.fs, Exclusive) else s.fs;
    var r := Call(f, s.threads[t].n, Inspect(why, Counted(live).(at := AtTidyShared)));
    One(s, Move(t, Go));
    SameThreadsSameModes(s, t, r, live);
    assert Sweep(After(s, t, r), t, why, Counted(live).(at := AtTidyShared), Go)
        == Call(Settled(s, live), s.threads[t].n, Conclude(s, s.threads[t].mode, why, live));
    Next(s, After(s, t, r), t, Go, Concluded(s, t, why, live));
  }

  /** From there the inspection tidies and concludes. */
  lemma Finish(s: State, t: nat, why: Why, live: set<Id>)
    requires AtWork(s, t, why, Counted(live))
    ensures Reaches(s, Concluded(s, t, why, live))
  {
    var r := Call(s.fs, s.threads[t].n, Inspect(why, Counted(live).(at := AtTidyExclusive)));
    ToTidy(s, t, why, live);
    TidyTwice(After(s, t, r), t, why, live);
    SameThreadsSameModes(s, t, r, live);
    assert Concluded(After(s, t, r), t, why, live) == Concluded(s, t, why, live);
    Chain(s, After(s, t, r), Concluded(s, t, why, live));
  }

  /** Listing a bare directory takes two calls. */
  lemma ListBare(s: State, t: nat, why: Why, v: Survey, d: Mode)
    requires t < |s.threads| && s.threads[t].proc !in s.gone && s.threads[t].pc == Inspect(why, v)
    requires v.at == AtList(d) && v.todo == {} && v.orphans == {} && Bare(s.fs, d)
    ensures Reaches(s, Goto(s, t, Inspect(why, v.(at := if d == Exclusive then AtList(Shared) else AtOrphans))))
  {
    One(s, Move(t, Go));
    assert v.orphans + (Children(s.fs, d).Keys - Claims(s.fs, d)) == {};
    Next(s, Goto(s, t, Inspect(why, v.(at := AtNext(d)))), t, Go,
         Goto(s, t, Inspect(why, v.(at := if d == Exclusive then AtList(Shared) else AtOrphans))));
  }

  /** Listing a directory with one claim of a live owner takes four. */
  lemma ListLive(s: State, t: nat, why: Why, v: Survey, d: Mode, c: Id)
    requires t < |s.threads| && s.threads[t].proc !in s.gone && s.threads[t].pc == Inspect(why, v)
    requires v.at == AtList(d) && v.todo == {} && v.orphans == {} && Claims(s.fs, d) == {c}
             && Children(s.fs, d) == map[]
    requires Known(s, c) && s.threads[c.t].proc !in s.gone
    ensures Reaches(s,
                    Goto(s, t, Inspect(why,
                                       v.(at := if d == Exclusive then AtList(Shared) else AtOrphans,
                                          live := v.live + {c}))))
  {
    var s1 := Goto(s, t, Inspect(why, v.(at := AtNext(d), todo := {c})));
    var s2 := Goto(s, t, Inspect(why, v.(at := AtOwner(d, c))));
    var s3 := Goto(s, t, Inspect(why, v.(at := AtNext(d), live := v.live + {c})));
    assert v.orphans + (Children(s.fs, d).Keys - Claims(s.fs, d)) == {};
    One(s, Move(t, Go));
    assert {c} - {c} == v.todo;
    Next(s, s1, t, Take(c), s2);
    Next(s, s2, t, Go, s3);
    Next(s, s3, t, Go,
         Goto(s, t, Inspect(why,
                            v.(at := if d == Exclusive then AtList(Shared) else AtOrphans, live := v.live + {c}))));
  }

  ghost predicate OneLive(s: State, live: set<Id>) {
    live == {} || exists c :: live == {c} && Known(s, c) && s.threads[c.t].proc !in s.gone
  }

  lemma ListEither(s: State, t: nat, why: Why, v: Survey, d: Mode)
    requires AtWork(s, t, why, v) && v.at == AtList(d) && v.todo == {} && v.orphans == {}
    requires Children(s.fs, d) == map[] && OneLive(s, Claims(s.fs, d))
    ensures Reaches(s,
                    Goto(s, t, Inspect(why,
                                       v.(at := if d == Exclusive then AtList(Shared) else AtOrphans,
                                          live := v.live + Claims(s.fs, d)))))
  {
    if Claims(s.fs, d) == {} {
      assert v.live + Claims(s.fs, d) == v.live;
      ListBare(s, t, why, v, d);
    } else {
      var c :| Claims(s.fs, d) == {c} && Known(s, c) && s.threads[c.t].proc !in s.gone;
      ListLive(s, t, why, v, d, c);
    }
  }

  ghost predicate Calm(s: State) {
    && s.fs.root && Children(s.fs, Exclusive) == map[] && Children(s.fs, Shared) == map[]
    && OneLive(s, Claims(s.fs, Exclusive)) && OneLive(s, Claims(s.fs, Shared))
  }

  lemma GotoTwice(s: State, t: nat, a: PC, b: PC)
    requires t < |s.threads|
    ensures Goto(Goto(s, t, a), t, b) == Goto(s, t, b)
    ensures Calm(s) ==> Calm(Goto(s, t, a))
  {
    var s' := Goto(s, t, a);
    if Calm(s) {
      assert forall c :: Known(s', c) == Known(s, c);
      assert forall live :: OneLive(s, live) ==> OneLive(s', live);
    }
  }

  lemma Listing(s: State, t: nat, why: Why)
    requires AtWork(s, t, why, NewSurvey) && Calm(s)
    ensures Reaches(s, Goto(s, t, Inspect(why, Counted(Claims(s.fs, Exclusive) + Claims(s.fs, Shared)))))
  {
    var e, h := Claims(s.fs, Exclusive), Claims(s.fs, Shared);
    var v := NewSurvey.(at := AtList(Exclusive));
    var w := v.(at := AtList(Shared), live := e);
    var s1, s2 := Goto(s, t, Inspect(why, v)), Goto(s, t, Inspect(why, w));
    One(s, Move(t, Go));
    GotoTwice(s, t, Inspect(why, v), Inspect(why, w));
    assert v.live + e == e;
    ListEither(s1, t, why, v, Exclusive);
    Chain(s, s1, s2);
    GotoTwice(s, t, Inspect(why, w), Inspect(why, Counted(e + h)));
    ListEither(s2, t, why, w, Shared);
    Chain(s, s2, Goto(s, t, Inspect(why, Counted(e + h))));
  }

  /** A whole inspection of a set with at most one claim in each directory, all of live owners. */
  lemma Inspection(s: State, t: nat, why: Why, live: set<Id>)
    requires AtWork(s, t, why, NewSurvey) && Calm(s)
    requires live == Claims(s.fs, Exclusive) + Claims(s.fs, Shared)
    ensures Reaches(s, Concluded(s, t, why, live))
  {
    var r := Call(s.fs, s.threads[t].n, Inspect(why, Counted(live)));
    Listing(s, t, why);
    Finish(After(s, t, r), t, why, live);
    SameThreadsSameModes(s, t, r, live);
    assert Concluded(After(s, t, r), t, why, live) == Concluded(s, t, why, live);
    Chain(s, After(s, t, r), Concluded(s, t, why, live));
  }

  // ---------------------------------------------------------------- publications

  lemma PublishExclusiveAlone(s: State, t: nat)
    requires t < |s.threads| && s.threads[t].proc !in s.gone && s.threads[t].pc == StageDir
    requires (s.fs.excl.Absent? || EmptyDir(s.fs.excl)) && Cur(s, t) !in s.fs.staging
    ensures Reaches(s,
                    After(s, t, Call(s.fs.(root := true, excl := Present({Cur(s, t)}, map[])), s.threads[t].n,
                                     Inspect(Settling, NewSurvey))))
  {
    var c, n := Cur(s, t), s.threads[t].n;
    var s1 := After(s, t, Call(s.fs.(root := true, staging := s.fs.staging[c := StagedDir(false)]), n, StageRecord));
    var s2 := After(s, t, Call(s.fs.(root := true, staging := s.fs.staging[c := StagedDir(true)]), n, RenameDir));
    One(s, Move(t, Go));
    assert s1.fs.staging[c := StagedDir(true)] == s2.fs.staging;
    Next(s, s1, t, Go, s2);
    assert s2.fs.staging - {c} == s.fs.staging;
    Next(s, s2, t, Go,
         After(s, t, Call(s.fs.(root := true, excl := Present({c}, map[])), n, Inspect(Settling, NewSurvey))));
  }

  lemma PublishSharedAlone(s: State, t: nat)
    requires t < |s.threads| && s.threads[t].proc !in s.gone && s.threads[t].pc == MakeShared
    requires s.fs.shar.Absent? && Cur(s, t) !in s.fs.staging
    ensures Reaches(s,
                    After(s, t, Call(s.fs.(root := true, shar := Present({Cur(s, t)}, map[])), s.threads[t].n,
                                     Inspect(Settling, NewSurvey))))
  {
    var c, n := Cur(s, t), s.threads[t].n;
    var f := s.fs.(root := true, shar := Present({}, map[]));
    var s1 := After(s, t, Call(f, n, StageFile));
    var s2 := After(s, t, Call(f.(staging := s.fs.staging[c := StagedFile]), n, RenameFile));
    One(s, Move(t, Go));
    Next(s, s1, t, Go, s2);
    assert s2.fs.staging - {c} == s.fs.staging;
    assert {} + {c} == {c};
    Next(s, s2, t, Go,
         After(s, t, Call(s.fs.(root := true, shar := Present({c}, map[])), n, Inspect(Settling, NewSurvey))));
  }

  /** A fresh thread inspects a calm set without a held exclusive claim and comes to publish. */
  lemma Arrive(s: State, t: nat)
    requires t < |s.threads| && s.threads[t].proc !in s.gone && s.threads[t].pc == MakeRoot
    requires Calm(OnDisk(s, s.fs.(root := true))) && Claims(s.fs, Exclusive) == {}
    requires forall c <- Claims(s.fs, Shared) :: Known(s, c) && ModeOf(s, c) == Shared
    ensures var f := Tidy(s.fs.(root := true), Exclusive);
            var g := if Claims(s.fs, Shared) == {} then Tidy(f, Shared) else f;
            Reaches(s, After(s, t,
                             Call(g, s.threads[t].n, if s.threads[t].mode == Shared then MakeShared else StageDir)))
  {
    var live := Claims(s.fs, Shared);
    var r := Call(s.fs.(root := true), s.threads[t].n, Inspect(First, NewSurvey));
    var s1 := After(s, t, r);
    One(s, Move(t, Go));
    assert Calm(s1) by { GotoTwice(OnDisk(s, s.fs.(root := true)), t, Inspect(First, NewSurvey), MakeRoot); }
    assert Claims(s1.fs, Exclusive) + Claims(s1.fs, Shared) == live;
    Inspection(s1, t, First, live);
    SameThreadsSameModes(s, t, r, live);
    assert OfMode(s, live, Exclusive) == {} && OfMode(s, live, Shared) == live;
    Chain(s, s1, Concluded(s1, t, First, live));
  }

  // ---------------------------------------------------------------- the first run

  const A := Id(0, 0)
  const B := Id(1, 0)
  const JustListed := Survey(AtNext(Exclusive), {}, {}, {}, {})
  const OneShared := Fs(true, Absent, Present({A}, map[]), map[])

  function Late(f: Fs, h: PC): State {
    State(f, {}, {}, [Thread(1, Shared, false, 0, h)])
  }

  function Race(f: Fs, h: PC, e: PC): State {
    State(f, {}, {}, [Thread(1, Shared, false, 0, h), Thread(2, Exclusive, false, 0, e)])
  }

  lemma LatePublishes()
    ensures Reaches(Init, Late(OneShared, Inspect(Settling, NewSurvey)))
  {
    var s0, s1 := Late(Init.fs, MakeRoot), Late(Fs(true, Absent, Absent, map[]), MakeShared);
    One(Init, Spawn(1, Shared));
    Arrive(s0, 0);
    Chain(Init, s0, s1);
    PublishSharedAlone(s1, 0);
    Chain(Init, s1, Late(OneShared, Inspect(Settling, NewSurvey)));
  }

  lemma LateLists()
    ensures Reaches(Init, Late(OneShared, Inspect(Settling, JustListed)))
  {
    LatePublishes();
    var s1 := Late(OneShared, Inspect(Settling, NewSurvey.(at := AtList(Exclusive))));
    Next(Init, Late(OneShared, Inspect(Settling, NewSurvey)), 0, Go, s1);
    assert NewSurvey.orphans + (Children(OneShared, Exclusive).Keys - Claims(OneShared, Exclusive)) == {};
    Next(Init, s1, 0, Go, Late(OneShared, Inspect(Settling, JustListed)));
  }

  lemma ExclusivePublishes()
    ensures Reaches(Init,
                    Race(OneShared.(excl := Present({B}, map[])), Inspect(Settling, JustListed),
                         Inspect(Settling, NewSurvey)))
  {
    LateLists();
    var h := Inspect(Settling, JustListed);
    var s0, s1 := Race(OneShared, h, MakeRoot), Race(OneShared, h, StageDir);
    One(Late(OneShared, h), Spawn(2, Exclusive));
    Chain(Init, Late(OneShared, h), s0);
    assert OneLive(s0, {A});
    Arrive(s0, 1);
    Chain(Init, s0, s1);
    PublishExclusiveAlone(s1, 1);
    Chain(Init, s1, Race(OneShared.(excl := Present({B}, map[])), h, Inspect(Settling, NewSurvey)));
  }

  lemma LateAcquires()
    ensures var f := OneShared.(excl := Present({B}, map[]));
            Reaches(Race(f, Inspect(Settling, JustListed), Inspect(Settling, NewSurvey)),
                    Race(f, Acquired, Inspect(Settling, NewSurvey)))
  {
    var f, e := OneShared.(excl := Present({B}, map[])), Inspect(Settling, NewSurvey);
    var v := JustListed.(at := AtList(Shared));
    var s, s1, s2 := Race(f, Inspect(Settling, JustListed), e), Race(f, Inspect(Settling, v), e),
                     Race(f, Inspect(Settling, Counted({A})), e);
    One(s, Move(0, Go));
    assert v.live + {A} == {A};
    ListLive(s1, 0, Settling, v, Shared, A);
    Chain(s, s1, s2);
    Finish(s2, 0, Settling, {A});
    assert OfMode(s2, {A}, Exclusive) == {} && A in OfMode(s2, {A}, Shared);
    Chain(s, s2, Race(f, Acquired, e));
  }

  /**
   The set of acquired shared holders can still grow after an exclusive claim is published: an
   attempt that listed `exclusive/` just before the publication returns `acquired` after it.
   */
  lemma SharedMayReturnLate()
    ensures exists s: State, s': State, c: Id ::
              && Reaches(Init, s) && Reaches(s, s') && s'.hollow == {}
              && Needed(s, c) && ModeOf(s, c) == Exclusive && Needed(s', c)
              && |s.threads| == 2 && |s'.threads| == 2 && s'.threads[0].mode == Shared
              && !InUse(s.threads[0].pc) && InUse(s'.threads[0].pc)
  {
    var f, e := OneShared.(excl := Present({B}, map[])), Inspect(Settling, NewSurvey);
    ExclusivePublishes();
    LateAcquires();
    assert Needed(Race(f, Inspect(Settling, JustListed), e), B);
    assert Needed(Race(f, Acquired, e), B);
  }

  // ---------------------------------------------------------------- two runs that land hollow

  const C := Id(2, 0)

  /** Threads 0 and 2 take the set, thread 1 clears it. */
  function Clash(f: Fs, gone: set<Proc>, hollow: set<Id>, pcs: seq<PC>): State
    requires 1 <= |pcs| <= 3
  {
    var ths := [Thread(1, Exclusive, false, 0, pcs[0])]
             + (if |pcs| > 1 then [Thread(2, Exclusive, true, 0, pcs[1])] else [])
             + (if |pcs| > 2 then [Thread(3, Exclusive, false, 0, pcs[2])] else []);
    State(f, gone, hollow, ths)
  }

  function Before(f: Fs, pcs: seq<PC>): State
    requires 1 <= |pcs| <= 3
  {
    Clash(f, {}, {}, pcs)
  }

  const Staged0 := Fs(true, Absent, Absent, map[A := StagedDir(true)])

  /** Thread 0 stages its record and pauses before the rename. */
  lemma VictimStages()
    ensures Reaches(Init, Before(Staged0, [RenameDir]))
  {
    var s0, s1 := Before(Init.fs, [MakeRoot]), Before(Fs(true, Absent, Absent, map[]), [StageDir]);
    One(Init, Spawn(1, Exclusive));
    Arrive(s0, 0);
    Chain(Init, s0, s1);
    var s2 := Before(Fs(true, Absent, Absent, map[A := StagedDir(false)]), [StageRecord]);
    Next(Init, s1, 0, Go, s2);
    Next(Init, s2, 0, Go, Before(Staged0, [RenameDir]));
  }

  /** Thread 1, a clearing call, takes the exclusive claim. */
  lemma ClearerAcquires()
    ensures Reaches(Init, Before(Staged0.(excl := Present({B}, map[])), [RenameDir, Acquired]))
  {
    VictimStages();
    var s0, s1 := Before(Staged0, [RenameDir, MakeRoot]), Before(Staged0, [RenameDir, StageDir]);
    One(Before(Staged0, [RenameDir]), SpawnClear(2));
    Chain(Init, Before(Staged0, [RenameDir]), s0);
    Arrive(s0, 1);
    Chain(Init, s0, s1);
    PublishExclusiveAlone(s1, 1);
    var s2 := Before(Staged0.(excl := Present({B}, map[])), [RenameDir, Inspect(Settling, NewSurvey)]);
    Chain(Init, s1, s2);
    assert OneLive(s2, {B});
    Inspection(s2, 1, Settling, {B});
    assert OfMode(s2, {B}, Shared) == {} && B in OfMode(s2, {B}, Exclusive);
    Chain(Init, s2, Before(Staged0.(excl := Present({B}, map[])), [RenameDir, Acquired]));
  }

  const Hollow0 := Fs(true, Present({B}, map[]), Absent, map[A := StagedDir(false)])
  const Freed0 := Hollow0.(excl := Absent)

  /** It unlinks the staged record of thread 0 and has yet to remove the directory. */
  lemma ClearerUnlinks()
    ensures Reaches(Init, Before(Hollow0, [RenameDir, ClearUnlinked({}, A)]))
  {
    ClearerAcquires();
    var f := Staged0.(excl := Present({B}, map[]));
    Next(Init, Before(f, [RenameDir, Acquired]), 1, Go, Before(f, [RenameDir, ClearList]));
    assert f.staging.Keys == {A};
    Next(Init, Before(f, [RenameDir, ClearList]), 1, Go, Before(f, [RenameDir, Clearing({A})]));
    assert {A} - {A} == {};
    Next(Init, Before(f, [RenameDir, Clearing({A})]), 1, Take(A), Before(Hollow0, [RenameDir, ClearUnlinked({}, A)]));
  }

  // ---- it dies there, and thread 2 reaps its claim

  function AtReaper(f: Fs, v: Survey): State {
    Clash(f, {2}, {}, [RenameDir, ClearUnlinked({}, A), Inspect(First, v)])
  }

  const CountedB := Survey(AtReap, {}, {}, {B}, {})

  lemma ReaperAsks()
    ensures Reaches(AtReaper(Hollow0, NewSurvey), AtReaper(Hollow0, NewSurvey.(at := AtOwner(Exclusive, B))))
  {
    var s, v := AtReaper(Hollow0, NewSurvey), NewSurvey;
    var s1, s2 := AtReaper(Hollow0, v.(at := AtList(Exclusive))),
                  AtReaper(Hollow0, v.(at := AtNext(Exclusive), todo := {B}));
    assert v.orphans + (Children(Hollow0, Exclusive).Keys - Claims(Hollow0, Exclusive)) == {};
    assert {B} - {B} == {};
    One(s, Move(2, Go));
    Next(s, s1, 2, Go, s2);
    Next(s, s2, 2, Take(B), AtReaper(Hollow0, v.(at := AtOwner(Exclusive, B))));
  }

  lemma ReaperHears()
    ensures Reaches(AtReaper(Hollow0, NewSurvey), AtReaper(Hollow0, NewSurvey.(at := AtNext(Exclusive), dead := {B})))
  {
    var s, v := AtReaper(Hollow0, NewSurvey), NewSurvey;
    var s1, s2 := AtReaper(Hollow0, v.(at := AtOwner(Exclusive, B))),
                  AtReaper(Hollow0, v.(at := AtChild(Exclusive, B)));
    ReaperAsks();
    assert v.dead + {B} == {B};
    Next(s, s1, 2, Go, s2);
    Next(s, s2, 2, Go, AtReaper(Hollow0, v.(at := AtNext(Exclusive), dead := {B})));
  }

  /** Thread 2 finds the clearing claim dead. */
  lemma ReaperJudges()
    ensures Reaches(AtReaper(Hollow0, NewSurvey), AtReaper(Hollow0, CountedB))
  {
    var s, v := AtReaper(Hollow0, NewSurvey), NewSurvey.(dead := {B});
    var s1, s2 := AtReaper(Hollow0, v.(at := AtList(Shared))), AtReaper(Hollow0, v.(at := AtOrphans));
    ReaperHears();
    Next(s, AtReaper(Hollow0, v.(at := AtNext(Exclusive))), 2, Go, s1);
    ListBare(s1, 2, First, v.(at := AtList(Shared)), Shared);
    assert Goto(s1, 2, Inspect(First, v.(at := AtOrphans))) == s2;
    Chain(s, s1, s2);
    Next(s, s2, 2, Go, AtReaper(Hollow0, CountedB));
  }

  const Emptied0 := Hollow0.(excl := Present({}, map[]))

  /** It removes that claim. */
  lemma ReaperUnlinks()
    ensures Reaches(AtReaper(Hollow0, CountedB), AtReaper(Emptied0, CountedB.(dead := {})))
  {
    var s, v := AtReaper(Hollow0, CountedB), CountedB.(dead := {});
    assert {B} - {B} == {} && Hollow0.excl.children - {B} == map[];
    One(s, Move(2, Take(B)));
    Next(s, AtReaper(Hollow0, v.(at := AtUnlinkChild(B))), 2, Go, AtReaper(Hollow0, v.(at := AtUnlinkClaim(B))));
    Next(s, AtReaper(Hollow0, v.(at := AtUnlinkClaim(B))), 2, Go, AtReaper(Emptied0, v));
  }

  /** And comes to stage its own. */
  lemma ReaperReaps()
    ensures Reaches(AtReaper(Hollow0, CountedB), Clash(Freed0, {2}, {}, [RenameDir, ClearUnlinked({}, A), StageDir]))
  {
    var s, s1 := AtReaper(Hollow0, CountedB), AtReaper(Emptied0, Counted({}).(at := AtTidyExclusive));
    ReaperUnlinks();
    Next(s, AtReaper(Emptied0, CountedB.(dead := {})), 2, Go, s1);
    TidyTwice(s1, 2, First, {});
    assert OfMode(s1, {}, Exclusive) == {} && OfMode(s1, {}, Shared) == {};
    Chain(s, s1, Clash(Freed0, {2}, {}, [RenameDir, ClearUnlinked({}, A), StageDir]));
  }

  lemma ReaperArrives()
    ensures Reaches(Init, Clash(Freed0, {2}, {}, [RenameDir, ClearUnlinked({}, A), StageDir]))
  {
    var x := ClearUnlinked({}, A);
    var s0, s1 := Clash(Hollow0, {2}, {}, [RenameDir, x]), Clash(Hollow0, {2}, {}, [RenameDir, x, MakeRoot]);
    ClearerUnlinks();
    One(Before(Hollow0, [RenameDir, x]), Die(2));
    Chain(Init, Before(Hollow0, [RenameDir, x]), s0);
    One(s0, Spawn(3, Exclusive));
    Chain(Init, s0, s1);
    Next(Init, s1, 2, Go, AtReaper(Hollow0, NewSurvey));
    ReaperJudges();
    Chain(Init, AtReaper(Hollow0, NewSurvey), AtReaper(Hollow0, CountedB));
    ReaperReaps();
    Chain(Init, AtReaper(Hollow0, CountedB), Clash(Freed0, {2}, {}, [RenameDir, x, StageDir]));
  }

  // ---- or its removal throws there, and it releases its claim

  function AtRelease(f: Fs, at: ReleaseAt): State {
    Before(f, [RenameDir, Release(at, Failed)])
  }

  lemma ClearerThrows()
    ensures Reaches(Init, AtRelease(Hollow0, RelClaim))
  {
    ClearerUnlinks();
    assert Hollow0.excl.children - {B} == map[];
    Next(Init, Before(Hollow0, [RenameDir, ClearUnlinked({}, A)]), 1, Refuse, AtRelease(Hollow0, RelRead));
    Next(Init, AtRelease(Hollow0, RelRead), 1, Go, AtRelease(Hollow0, RelChild));
    Next(Init, AtRelease(Hollow0, RelChild), 1, Go, AtRelease(Hollow0, RelClaim));
  }

  lemma ClearerUnlinksOwn()
    ensures Reaches(Init, AtRelease(Freed0, RelTidyRoot))
  {
    var f := Hollow0.(excl := Present({}, map[]));
    ClearerThrows();
    assert {B} - {B} == {};
    Next(Init, AtRelease(Hollow0, RelClaim), 1, Go, AtRelease(f, RelTidyDir));
    Next(Init, AtRelease(f, RelTidyDir), 1, Go, AtRelease(Freed0, RelTidyRoot));
  }

  /** The root stays: it still holds the victim's staging directory. */
  lemma ClearerReleases()
    ensures Reaches(Init, Before(Freed0, [RenameDir, Done(Failed)]))
  {
    ClearerUnlinksOwn();
    assert A in Freed0.staging;
    assert TidyRoot(Freed0) == Freed0;
    Next(Init, AtRelease(Freed0, RelTidyRoot), 1, Go, Before(Freed0, [RenameDir, Done(Failed)]));
  }

  lemma ThirdArrives()
    ensures Reaches(Init, Before(Freed0, [RenameDir, Done(Failed), StageDir]))
  {
    var s0, s1 := Before(Freed0, [RenameDir, Done(Failed)]), Before(Freed0, [RenameDir, Done(Failed), MakeRoot]);
    ClearerReleases();
    One(s0, Spawn(3, Exclusive));
    Chain(Init, s0, s1);
    Arrive(s1, 2);
    Chain(Init, s1, Before(Freed0, [RenameDir, Done(Failed), StageDir]));
  }

  // ---- either way two processes come to hold the exclusive claim

  /** Thread 0 renames its emptied staging directory into place and takes a claim that has no record. */
  lemma VictimAcquires(gone: set<Proc>, x: PC)
    requires Reaches(Init, Clash(Freed0, gone, {}, [RenameDir, x, StageDir])) && gone <= {2}
    ensures Reaches(Init, Clash(Fs(true, Absent, Absent, map[]), gone, {A}, [Acquired, x, StageDir]))
  {
    var f := Fs(true, Present({}, map[]), Absent, map[]);
    var s := Clash(f, gone, {A}, [Inspect(Settling, NewSurvey), x, StageDir]);
    assert Freed0.staging - {A} == map[];
    Next(Init, Clash(Freed0, gone, {}, [RenameDir, x, StageDir]), 0, Go, s);
    Inspection(s, 0, Settling, {});
    assert OfMode(s, {}, Exclusive) == {} && OfMode(s, {}, Shared) == {};
    Chain(Init, s, Clash(Fs(true, Absent, Absent, map[]), gone, {A}, [Acquired, x, StageDir]));
  }

  lemma ThirdAcquires(gone: set<Proc>, x: PC)
    requires Reaches(Init, Clash(Freed0, gone, {}, [RenameDir, x, StageDir])) && gone <= {2}
    ensures Reaches(Init, Clash(Fs(true, Present({C}, map[]), Absent, map[]), gone, {A}, [Acquired, x, Acquired]))
  {
    VictimAcquires(gone, x);
    var s0 := Clash(Fs(true, Absent, Absent, map[]), gone, {A}, [Acquired, x, StageDir]);
    var s1 := Clash(Fs(true, Present({C}, map[]), Absent, map[]), gone, {A},
                    [Acquired, x, Inspect(Settling, NewSurvey)]);
    PublishExclusiveAlone(s0, 2);
    Chain(Init, s0, s1);
    assert OneLive(s1, {C});
    Inspection(s1, 2, Settling, {C});
    assert OfMode(s1, {C}, Shared) == {} && C in OfMode(s1, {C}, Exclusive);
    Chain(Init, s1, Clash(Fs(true, Present({C}, map[]), Absent, map[]), gone, {A}, [Acquired, x, Acquired]));
  }

  /** Two live processes hold the exclusive claim. */
  ghost predicate BothHold(s: State) {
    && |s.threads| == 3 && Holding(s, 0) && Holding(s, 2) && s.threads[0].mode == Exclusive
    && s.threads[2].mode == Exclusive
    && s.threads[0].proc !in s.gone && s.threads[2].proc !in s.gone && s.threads[0].proc != s.threads[2].proc
  }

  /**
   When a clearing process dies between unlinking another attempt's staged record and removing its
   directory, a run reaches two live processes that both hold the exclusive claim.
   */
  lemma DeathInClearingBreaksExclusion()
    ensures exists s: State :: Reaches(Init, s) && BothHold(s) && s.gone == {2} && s.hollow == {A}
  {
    ReaperArrives();
    ThirdAcquires({2}, ClearUnlinked({}, A));
    var s := Clash(Fs(true, Present({C}, map[]), Absent, map[]), {2}, {A}, [Acquired, ClearUnlinked({}, A), Acquired]);
    assert BothHold(s);
  }

  /** So does a run without any death, in which that removal throws there and the clearing call releases its claim. */
  lemma ThrowInClearingBreaksExclusion()
    ensures exists s: State :: Reaches(Init, s) && BothHold(s) && s.gone == {} && s.hollow == {A}
  {
    ThirdArrives();
    ThirdAcquires({}, Done(Failed));
    var s := Clash(Fs(true, Present({C}, map[]), Absent, map[]), {}, {A}, [Acquired, Done(Failed), Acquired]);
    assert BothHold(s);
  }
}
