/**
 What a process can bring about by its own calls, from every state any run reaches: an inspection ends
 with exactly the claims that are not dead, the dead ones reaped; an attempt gets its claim exactly when
 nothing that is not dead stands in its way; a release frees it, and a clearing leaves nothing staged.
 */
module ClaimLive {
  import opened Options
  import opened ClaimModel
  import opened ClaimBase
  import opened ClaimSafety
  import opened ClaimRuns
  import opened ClaimLate

  // ---------------------------------------------------------------- a thread's own calls

  ghost predicate OwnMoves(acts: seq<Action>, t: nat) {
    forall i | 0 <= i < |acts| :: acts[i].Move? && acts[i].t == t
  }

  /** The thread's own calls lead from one state to the other. */
  ghost predicate Leads(s: State, t: nat, s': State) {
    exists acts: seq<Action> :: OwnMoves(acts, t) && Run(s, acts) == s'
  }

  lemma LeadsNowhere(s: State, t: nat)
    ensures Leads(s, t, s)
  {
    assert OwnMoves([], t) && Run(s, []) == s;
  }

  lemma LeadsOn(s: State, t: nat, ch: Choice, s': State)
    requires Leads(Step(s, Move(t, ch)), t, s')
    ensures Leads(s, t, s')
  {
    var acts: seq<Action> :| OwnMoves(acts, t) && Run(Step(s, Move(t, ch)), acts) == s';
    var all := [Move(t, ch)] + acts;
    assert all[1..] == acts;
    assert OwnMoves(all, t) && Run(s, all) == s';
  }

  lemma LeadsChain(a: State, b: State, c: State, t: nat)
    requires Leads(a, t, b) && Leads(b, t, c)
    ensures Leads(a, t, c)
  {
    var p: seq<Action> :| OwnMoves(p, t) && Run(a, p) == b;
    var q: seq<Action> :| OwnMoves(q, t) && Run(b, q) == c;
    RunAppend(a, p, q);
    assert OwnMoves(p + q, t);
  }

  lemma LeadsBase(s: State, t: nat, s': State)
    requires Base(s) && Leads(s, t, s')
    ensures Base(s')
  {
    var acts: seq<Action> :| OwnMoves(acts, t) && Run(s, acts) == s';
    RunBase(s, acts);
  }

  // ---------------------------------------------------------------- reading

  /** The claims with a record that are not dead. */
  ghost function Living(s: State): set<Id> {
    set c | c in Claims(s.fs, Exclusive) + Claims(s.fs, Shared) && !Dead(s, c)
  }

  /** No record is of a dead owner with a child declared, so that every inspection can judge all of them. */
  ghost predicate Answerable(s: State) {
    forall c | c in Claims(s.fs, Exclusive) + Claims(s.fs, Shared) && OwnerGone(s, c) :: ChildOf(s, c) != Some(Declared)
  }

  /** What an inspection that nobody disturbed has listed and judged so far. */
  ghost predicate Reads(s: State, v: Survey) {
    && (forall c | c in v.live :: OnRecord(s, c) && !Dead(s, c))
    && (forall c | c in v.dead :: OnRecord(s, c) && Dead(s, c))
    && (forall c | c in v.todo :: OnRecord(s, c))
    && (forall c | Checking(v.at, c) :: OnRecord(s, c))
    && (v.at.AtGroup? && Known(s, v.at.c) ==> ChildOf(s, v.at.c) == Some(Recorded(v.at.k)))
    && (forall c | OnRecord(s, c) ::
          Unlisted(v.at, ModeOf(s, c)) || c in v.todo || Checking(v.at, c) || c in v.live || c in v.dead)
    && (forall m: Mode, c | c in Children(s.fs, m) && c !in Claims(s.fs, m) :: Unlisted(v.at, m) || c in v.orphans)
  }

  function ReadPhase(at: At): nat {
    match at
    case AtRoot => 5
    case AtList(d) => if d == Exclusive then 4 else 2
    case AtNext(d) => if d == Exclusive then 3 else 1
    case AtOwner(d, _) => if d == Exclusive then 3 else 1
    case AtChild(d, _) => if d == Exclusive then 3 else 1
    case AtGroup(d, _, _) => if d == Exclusive then 3 else 1
    case _ => 0
  }

  /** One call nearer the end of the reading half. */
  ghost predicate Nearer1(v: Survey, v': Survey) {
    || ReadPhase(v'.at) < ReadPhase(v.at)
    || (ReadPhase(v'.at) == ReadPhase(v.at) && |v'.todo| < |v.todo|)
    || (ReadPhase(v'.at) == ReadPhase(v.at) && v'.todo == v.todo && ReadRank(v'.at) < ReadRank(v.at))
  }

  /** A directory is listed. */
  lemma ReadsListed(s: State, v: Survey, v': Survey)
    requires Base(s) && Reads(s, v) && v.at.AtList? && v.todo == {}
    requires v' == v.(at := AtNext(v.at.d), todo := Claims(s.fs, v.at.d),
                      orphans := v.orphans + (Children(s.fs, v.at.d).Keys - Claims(s.fs, v.at.d)))
    ensures Reads(s, v')
  {
    assert DirOk(s, v.at.d);
  }

  lemma ReadsRoot(s: State, v: Survey)
    requires Base(s) && Reads(s, v) && v.at.AtRoot?
    ensures Reads(s, v.(at := if s.fs.root then AtList(Exclusive) else AtOrphans))
  {
  }

  lemma ReadsList(s: State, t: nat, why: Why, v: Survey)
    requires Inspecting(s, t, why, v) && Reads(s, v) && (v.at.AtRoot? || v.at.AtList?)
    ensures var pc := Read(s, why, v, Go);
            pc.Inspect? && pc.why == why && Reads(s, pc.survey) && Nearer1(v, pc.survey)
  {
    assert Local(s, t) && SurveyOk(s, v);
    if v.at.AtRoot? { ReadsRoot(s, v); } else { ReadsListed(s, v, Read(s, why, v, Go).survey); }
  }

  lemma ReadsOut(s: State, v: Survey, v': Survey)
    requires Reads(s, v) && v.at.AtNext? && v.todo == {}
    requires v' == v.(at := if v.at.d == Exclusive then AtList(Shared) else AtOrphans)
    ensures Reads(s, v')
  {
  }

  lemma ReadsTaken(s: State, v: Survey, x: Id)
    requires Reads(s, v) && v.at.AtNext? && x in v.todo && ModeOf(s, x) == v.at.d
    ensures Reads(s, v.(todo := v.todo - {x}, at := AtOwner(v.at.d, x)))
  {
  }

  lemma ReadsNext(s: State, t: nat, why: Why, v: Survey)
    requires Inspecting(s, t, why, v) && Reads(s, v) && v.at.AtNext?
    ensures var pc := Read(s, why, v, NextRead(v));
            pc.Inspect? && pc.why == why && Reads(s, pc.survey) && Nearer1(v, pc.survey)
  {
    assert Local(s, t) && SurveyOk(s, v);
    if v.todo != {} {
      var x := NextRead(v).c;
      assert |v.todo - {x}| < |v.todo|;
      assert OnRecord(s, x) && ModeOf(s, x) == v.at.d;
      ReadsTaken(s, v, x);
    } else {
      ReadsOut(s, v, v.(at := if v.at.d == Exclusive then AtList(Shared) else AtOrphans));
    }
  }

  /** The claim asked after is alive, or dead, or to be asked further. */
  lemma ReadsJudged(s: State, v: Survey, v': Survey)
    requires Reads(s, v) && (v.at.AtOwner? || v.at.AtChild? || v.at.AtGroup?) && Known(s, v.at.c)
    requires || (v' == v.(at := AtNext(v.at.d), live := v.live + {v.at.c}) && !Dead(s, v.at.c))
             || (v' == v.(at := AtNext(v.at.d), dead := v.dead + {v.at.c}) && Dead(s, v.at.c))
             || v' == v.(at := AtChild(v.at.d, v.at.c))
             || exists k :: v' == v.(at := AtGroup(v.at.d, v.at.c, k)) && ChildOf(s, v.at.c) == Some(Recorded(k))
    ensures Reads(s, v')
  {
    assert Checking(v.at, v.at.c);
  }

  lemma ReadsAsk(s: State, t: nat, why: Why, v: Survey)
    requires Inspecting(s, t, why, v) && Reads(s, v) && Answerable(s)
             && (v.at.AtOwner? || v.at.AtChild? || v.at.AtGroup?)
    ensures var pc := Read(s, why, v, Go);
            pc.Inspect? && pc.why == why && Reads(s, pc.survey) && Nearer1(v, pc.survey)
  {
    assert Local(s, t) && AtOk(s, v.at);
    assert Checking(v.at, v.at.c);
    AskedGoesOn(s, why, v);
    ReadsJudged(s, v, Read(s, why, v, Go).survey);
  }

  lemma AskedGoesOn(s: State, why: Why, v: Survey)
    requires AtOk(s, v.at) && Answerable(s) && (v.at.AtOwner? || v.at.AtChild? || v.at.AtGroup?) && OnRecord(s, v.at.c)
    requires v.at.AtGroup? ==> ChildOf(s, v.at.c) == Some(Recorded(v.at.k))
    ensures var pc := Read(s, why, v, Go);
            && pc.Inspect? && pc.why == why && Nearer1(v, pc.survey)
            && var v' := pc.survey;
            || (v' == v.(at := AtNext(v.at.d), live := v.live + {v.at.c}) && !Dead(s, v.at.c))
            || (v' == v.(at := AtNext(v.at.d), dead := v.dead + {v.at.c}) && Dead(s, v.at.c))
            || v' == v.(at := AtChild(v.at.d, v.at.c))
            || exists k :: v' == v.(at := AtGroup(v.at.d, v.at.c, k)) && ChildOf(s, v.at.c) == Some(Recorded(k))
  {
  }

  /** The choice that brings the reading half on. */
  ghost function ReadChoice(v: Survey): Choice {
    if v.at.AtNext? then NextRead(v) else Go
  }

  lemma ReadsOnce(s: State, t: nat, why: Why, v: Survey)
    requires Inspecting(s, t, why, v) && Reads(s, v) && Answerable(s) && !Sweeping(v.at)
    ensures var pc := Read(s, why, v, ReadChoice(v));
            pc.Inspect? && pc.why == why && Reads(s, pc.survey) && Nearer1(v, pc.survey)
  {
    if v.at.AtNext? {
      ReadsNext(s, t, why, v);
    } else if v.at.AtRoot? || v.at.AtList? {
      ReadsList(s, t, why, v);
    } else {
      ReadsAsk(s, t, why, v);
    }
  }

  /** A thread's program counter enters nothing else of the state that counts here. */
  lemma GotoSame(s: State, t: nat, pc: PC)
    requires t < |s.threads|
    ensures var s' := Goto(s, t, pc);
            forall c :: (OnRecord(s', c) <==> OnRecord(s, c)) && (Dead(s', c) <==> Dead(s, c))
                        && (OwnerGone(s', c) <==> OwnerGone(s, c))
                        && (Known(s, c) ==> ModeOf(s', c) == ModeOf(s, c) && ChildOf(s', c) == ChildOf(s, c))
  {
  }

  lemma ReadsSame(s: State, t: nat, pc: PC, v: Survey)
    requires t < |s.threads| && Reads(s, v)
    ensures Reads(Goto(s, t, pc), v)
  {
    GotoSame(s, t, pc);
  }

  lemma ReadOrOrphans(s: State, why: Why, v: Survey, ch: Choice)
    requires !Sweeping(v.at)
    ensures var pc := Read(s, why, v, ch); pc.Inspect? ==> !Sweeping(pc.survey.at) || pc.survey.at.AtOrphans?
  {
  }

  lemma ReadStep(s: State, t: nat, why: Why, v: Survey) returns (ch: Choice, v': Survey)
    requires Inspecting(s, t, why, v) && Reads(s, v) && Answerable(s) && !Sweeping(v.at)
    ensures var s' := Goto(s, t, Inspect(why, v'));
            Step(s, Move(t, ch)) == s' && Inspecting(s', t, why, v') && Reads(s', v') && Answerable(s')
    ensures Nearer1(v, v') && (!Sweeping(v'.at) || v'.at.AtOrphans?)
  {
    ch := ReadChoice(v);
    ReadsOnce(s, t, why, v);
    ReadOrOrphans(s, why, v, ch);
    var pc := Read(s, why, v, ch);
    v' := pc.survey;
    assert Step(s, Move(t, ch)) == Goto(s, t, pc);
    ReadsSame(s, t, pc, v');
    AnswersSame(s, t, pc);
    BaseKeeps(s, Move(t, ch));
  }

  lemma GotoTwice(s: State, t: nat, a: PC, b: PC)
    requires t < |s.threads|
    ensures Goto(Goto(s, t, a), t, b) == Goto(s, t, b)
  {
  }

  /** By its own calls the inspection comes to the end of its reading half, and nothing else has changed. */
  lemma {:induction false} ReadThrough(s: State, t: nat, why: Why, v: Survey) returns (v': Survey)
    requires Inspecting(s, t, why, v) && Reads(s, v) && Answerable(s)
    requires !Sweeping(v.at) || v.at.AtOrphans?
    ensures Leads(s, t, Goto(s, t, Inspect(why, v'))) && v'.at.AtOrphans? && Reads(Goto(s, t, Inspect(why, v')), v')
    decreases ReadPhase(v.at), |v.todo|, ReadRank(v.at)
  {
    if v.at.AtOrphans? {
      v' := v;
      assert Goto(s, t, Inspect(why, v)) == s;
      LeadsNowhere(s, t);
    } else {
      var ch, v1 := ReadStep(s, t, why, v);
      var s1 := Goto(s, t, Inspect(why, v1));
      v' := ReadThrough(s1, t, why, v1);
      GotoTwice(s, t, Inspect(why, v1), Inspect(why, v'));
      LeadsOn(s, t, ch, Goto(s, t, Inspect(why, v')));
    }
  }

  lemma AnswersSame(s: State, t: nat, pc: PC)
    requires t < |s.threads| && Answerable(s)
    ensures Answerable(Goto(s, t, pc))
  {
    GotoSame(s, t, pc);
  }

  // ---------------------------------------------------------------- sweeping

  /** The claim being removed. */
  function Removing(at: At): set<Id> {
    if at.AtUnlinkChild? || at.AtUnlinkClaim? then {at.c} else {}
  }

  /**
   What is on disk while an inspection that nobody disturbs sweeps: what it counted, and what it has
   still to remove.
   */
  ghost predicate Sweeps(s: State, v: Survey) {
    && (forall m: Mode :: Claims(s.fs, m) == OfMode(s, v.live + v.dead + Removing(v.at), m))
    && (forall c | c in v.live + v.dead + Removing(v.at) :: Known(s, c))
    && (forall m: Mode, c | c in Children(s.fs, m) && c !in Claims(s.fs, m) :: c in v.orphans)
    && (v.at.AtUnlinkClaim? ==> forall m: Mode :: v.at.c !in Children(s.fs, m))
    && v.live !! v.dead + Removing(v.at) && v.dead !! Removing(v.at)
  }

  /** Only thread `t`'s program counter and the two directories differ; the child records of `live` do not. */
  ghost predicate Within(s: State, s': State, t: nat, live: set<Id>) {
    && t < |s.threads| && |s'.threads| == |s.threads|
    && s' == s.(fs := s'.fs, threads := s.threads[t := s.threads[t].(pc := s'.threads[t].pc)])
    && s'.fs.staging == s.fs.staging && s'.fs.root == s.fs.root
    && forall m: Mode, c | c in live ::
         (c in Children(s'.fs, m) <==> c in Children(s.fs, m))
         && (c in Children(s.fs, m) ==> Children(s'.fs, m)[c] == Children(s.fs, m)[c])
  }

  lemma WithinChain(a: State, b: State, c: State, t: nat, live: set<Id>)
    requires Within(a, b, t, live) && Within(b, c, t, live)
    ensures Within(a, c, t, live)
  {
  }

  /** Everything is judged when the reading half ends. */
  lemma ReadSweeps(s: State, t: nat, why: Why, v: Survey)
    requires Inspecting(s, t, why, v) && v.at.AtOrphans? && Reads(s, v)
    ensures v.live == Living(s) && Sweeps(s, v)
  {
    assert Local(s, t) && SurveyOk(s, v);
    assert v.todo == {};
    forall m: Mode, c ensures c in Claims(s.fs, m) <==> c in OfMode(s, v.live + v.dead, m) {
      if c in Claims(s.fs, m) { assert Issued(s, c) && ModeOf(s, c) == m && OnRecord(s, c); }
    }
    forall c ensures c in v.live <==> c in Living(s) {
      if c in Living(s) { assert OnRecord(s, c); }
    }
  }

  /** The child record of `x` is gone, and no other entry. */
  ghost predicate ChildGone(s: State, f: Fs, x: Id) {
    && (forall m: Mode :: Claims(f, m) == Claims(s.fs, m))
    && (forall m: Mode :: Children(f, m) == Children(s.fs, m) - {x}) && f.staging == s.fs.staging && f.root == s.fs.root
  }

  lemma UnlinkChildIs(s: State, x: Id)
    requires Base(s) && Known(s, x)
    ensures ChildGone(s, UnlinkChild(s.fs, ModeOf(s, x), x), x)
  {
    UnlinkEntries(s.fs, ModeOf(s, x), x, Exclusive);
    UnlinkEntries(s.fs, ModeOf(s, x), x, Shared);
    forall m: Mode | m != ModeOf(s, x) ensures Children(s.fs, m) - {x} == Children(s.fs, m) {
      assert DirOk(s, m);
    }
  }

  lemma OrphanGone(s: State, t: nat, why: Why, v: Survey, x: Id, f: Fs)
    requires t < |s.threads| && v.at.AtOrphans? && Sweeps(s, v) && x in v.orphans && !OnRecord(s, x) && Known(s, x)
    requires ChildGone(s, f, x)
    ensures var v' := v.(orphans := v.orphans - {x});
            var s' := After(s, t, Call(f, s.threads[t].n, Inspect(why, v')));
            Sweeps(s', v') && Within(s, s', t, v.live)
  {
    var v' := v.(orphans := v.orphans - {x});
    var s' := After(s, t, Call(f, s.threads[t].n, Inspect(why, v')));
    assert x !in OfMode(s, v.live + v.dead + Removing(v.at), ModeOf(s, x));
    assert forall m: Mode :: OfMode(s', v.live + v.dead, m) == OfMode(s, v.live + v.dead, m);
  }

  lemma OrphanStep(s: State, t: nat, why: Why, v: Survey, x: Id)
    requires Inspecting(s, t, why, v) && v.at.AtOrphans? && Sweeps(s, v) && x in v.orphans
    ensures var s', v' := Step(s, Move(t, Take(x))), v.(orphans := v.orphans - {x});
            Inspecting(s', t, why, v') && Sweeps(s', v') && Within(s, s', t, v.live)
  {
    assert Local(s, t) && SurveyOk(s, v);
    BaseKeeps(s, Move(t, Take(x)));
    UnlinkChildIs(s, x);
    OrphanGone(s, t, why, v, x, UnlinkChild(s.fs, ModeOf(s, x), x));
  }

  lemma NoOrphans(s: State, t: nat, why: Why, v: Survey)
    requires Inspecting(s, t, why, v) && v.at.AtOrphans? && Sweeps(s, v) && v.orphans == {}
    ensures var s', v' := Step(s, Move(t, Go)), v.(at := AtReap, orphans := {});
            Leads(s, t, s') && Inspecting(s', t, why, v') && Sweeps(s', v') && Within(s, s', t, v.live)
  {
    var v' := v.(at := AtReap);
    BaseKeeps(s, Move(t, Go));
    assert Step(s, Move(t, Go)) == Goto(s, t, Inspect(why, v')) && v' == v.(at := AtReap, orphans := {});
    SweepsSame(s, t, why, v');
    LeadsNowhere(Step(s, Move(t, Go)), t);
    LeadsOn(s, t, Go, Step(s, Move(t, Go)));
  }

  /** By its own calls the inspection removes the orphans it found. */
  lemma {:induction false} OrphansThrough(s: State, t: nat, why: Why, v: Survey) returns (s': State)
    requires Inspecting(s, t, why, v) && v.at.AtOrphans? && Sweeps(s, v)
    ensures var v' := v.(at := AtReap, orphans := {});
            Leads(s, t, s') && Inspecting(s', t, why, v') && Sweeps(s', v') && Within(s, s', t, v.live)
    decreases |v.orphans|
  {
    if v.orphans == {} {
      s' := Step(s, Move(t, Go));
      NoOrphans(s, t, why, v);
    } else {
      var x :| x in v.orphans;
      OrphanStep(s, t, why, v, x);
      var s1, v1 := Step(s, Move(t, Take(x))), v.(orphans := v.orphans - {x});
      assert |v1.orphans| < |v.orphans|;
      s' := OrphansThrough(s1, t, why, v1);
      LeadsOn(s, t, Take(x), s');
      WithinChain(s, s1, s', t, v.live);
    }
  }

  /** Going on without removing anything. */
  lemma SweepsSame(s: State, t: nat, why: Why, v: Survey)
    requires t < |s.threads| && Sweeps(s, v)
    ensures Sweeps(Goto(s, t, Inspect(why, v)), v) && Within(s, Goto(s, t, Inspect(why, v)), t, v.live)
  {
    var s' := Goto(s, t, Inspect(why, v));
    assert forall ids: set<Id>, m: Mode :: OfMode(s', ids, m) == OfMode(s, ids, m);
  }

  // ---- the dead claims

  lemma TakeDead(s: State, t: nat, why: Why, v: Survey, x: Id)
    requires Inspecting(s, t, why, v) && v.at.AtReap? && Sweeps(s, v) && x in v.dead
    ensures var v' := v.(dead := v.dead - {x}, at := AtUnlinkChild(x));
            var s' := Goto(s, t, Inspect(why, v'));
            Step(s, Move(t, Take(x))) == s' && Inspecting(s', t, why, v') && Sweeps(s', v') && Within(s, s', t, v.live)
  {
    var v' := v.(dead := v.dead - {x}, at := AtUnlinkChild(x));
    assert x in OfMode(s, v.live + v.dead + Removing(v.at), ModeOf(s, x));
    assert v'.live + v'.dead + Removing(v'.at) == v.live + v.dead + Removing(v.at);
    BaseKeeps(s, Move(t, Take(x)));
    SweepsSame(s, t, why, v');
  }

  lemma ChildOfDeadGone(s: State, t: nat, why: Why, v: Survey, x: Id)
    requires Inspecting(s, t, why, v) && v.at == AtUnlinkChild(x) && Sweeps(s, v)
    ensures var s', v' := Step(s, Move(t, Go)), v.(at := AtUnlinkClaim(x));
            Inspecting(s', t, why, v') && Sweeps(s', v') && Within(s, s', t, v.live)
  {
    assert Local(s, t) && AtOk(s, v.at);
    BaseKeeps(s, Move(t, Go));
    UnlinkChildIs(s, x);
    DeadChildGone(s, t, why, v, x, UnlinkChild(s.fs, ModeOf(s, x), x));
  }

  lemma DeadChildGone(s: State, t: nat, why: Why, v: Survey, x: Id, f: Fs)
    requires t < |s.threads| && v.at == AtUnlinkChild(x) && Sweeps(s, v) && ChildGone(s, f, x)
    ensures var v' := v.(at := AtUnlinkClaim(x));
            var s' := After(s, t, Call(f, s.threads[t].n, Inspect(why, v')));
            Sweeps(s', v') && Within(s, s', t, v.live)
  {
    var s' := After(s, t, Call(f, s.threads[t].n, Inspect(why, v.(at := AtUnlinkClaim(x)))));
    assert forall m: Mode :: OfMode(s', v.live + v.dead + {x}, m) == OfMode(s, v.live + v.dead + {x}, m);
  }

  /** The record of `x` is gone, and no other entry. */
  ghost predicate ClaimGone(s: State, f: Fs, x: Id) {
    && (forall m: Mode :: Claims(f, m) == Claims(s.fs, m) - {x})
    && (forall m: Mode :: Children(f, m) == Children(s.fs, m)) && f.staging == s.fs.staging && f.root == s.fs.root
  }

  lemma UnlinkClaimIs(s: State, x: Id)
    requires Base(s) && Known(s, x)
    ensures ClaimGone(s, UnlinkClaim(s.fs, ModeOf(s, x), x), x)
  {
    UnlinkEntries(s.fs, ModeOf(s, x), x, Exclusive);
    UnlinkEntries(s.fs, ModeOf(s, x), x, Shared);
    forall m: Mode | m != ModeOf(s, x) ensures Claims(s.fs, m) - {x} == Claims(s.fs, m) {
      assert DirOk(s, m);
    }
  }

  lemma DeadClaimGone(s: State, t: nat, why: Why, v: Survey, x: Id, f: Fs)
    requires t < |s.threads| && v.at == AtUnlinkClaim(x) && Sweeps(s, v) && ClaimGone(s, f, x)
    ensures var v' := v.(at := AtReap);
            var s' := After(s, t, Call(f, s.threads[t].n, Inspect(why, v')));
            Sweeps(s', v') && Within(s, s', t, v.live)
  {
    var s' := After(s, t, Call(f, s.threads[t].n, Inspect(why, v.(at := AtReap))));
    forall m: Mode ensures Claims(f, m) == OfMode(s', v.live + v.dead, m) {
      assert Claims(s.fs, m) == OfMode(s, v.live + v.dead + {x}, m);
    }
  }

  lemma ClaimOfDeadGone(s: State, t: nat, why: Why, v: Survey, x: Id)
    requires Inspecting(s, t, why, v) && v.at == AtUnlinkClaim(x) && Sweeps(s, v)
    ensures var s', v' := Step(s, Move(t, Go)), v.(at := AtReap);
            Inspecting(s', t, why, v') && Sweeps(s', v') && Within(s, s', t, v.live)
  {
    assert Local(s, t) && AtOk(s, v.at);
    BaseKeeps(s, Move(t, Go));
    UnlinkClaimIs(s, x);
    DeadClaimGone(s, t, why, v, x, UnlinkClaim(s.fs, ModeOf(s, x), x));
  }

  /** One dead claim is reaped. */
  lemma ReapOne(s: State, t: nat, why: Why, v: Survey, x: Id) returns (s': State)
    requires Inspecting(s, t, why, v) && v.at.AtReap? && Sweeps(s, v) && x in v.dead
    ensures var v' := v.(dead := v.dead - {x});
            Leads(s, t, s') && Inspecting(s', t, why, v') && Sweeps(s', v') && Within(s, s', t, v.live)
  {
    var v1 := v.(dead := v.dead - {x}, at := AtUnlinkChild(x));
    TakeDead(s, t, why, v, x);
    var s1 := Step(s, Move(t, Take(x)));
    ChildOfDeadGone(s1, t, why, v1, x);
    var s2 := Step(s1, Move(t, Go));
    ClaimOfDeadGone(s2, t, why, v1.(at := AtUnlinkClaim(x)), x);
    s' := Step(s2, Move(t, Go));
    LeadsNowhere(s', t);
    LeadsOn(s2, t, Go, s');
    LeadsOn(s1, t, Go, s');
    LeadsOn(s, t, Take(x), s');
    WithinChain(s, s1, s2, t, v.live);
    WithinChain(s, s2, s', t, v.live);
  }

  /** By its own calls the inspection reaps all it found dead. */
  lemma {:induction false} ReapThrough(s: State, t: nat, why: Why, v: Survey) returns (s': State)
    requires Inspecting(s, t, why, v) && v.at.AtReap? && Sweeps(s, v)
    ensures var v' := v.(at := AtTidyExclusive, dead := {});
            Leads(s, t, s') && Inspecting(s', t, why, v') && Sweeps(s', v') && Within(s, s', t, v.live)
    decreases |v.dead|
  {
    if v.dead == {} {
      s' := Step(s, Move(t, Go));
      BaseKeeps(s, Move(t, Go));
      assert s' == Goto(s, t, Inspect(why, v.(at := AtTidyExclusive)));
      assert v.(at := AtTidyExclusive, dead := {}) == v.(at := AtTidyExclusive);
      SweepsSame(s, t, why, v.(at := AtTidyExclusive));
      LeadsNowhere(s', t);
      LeadsOn(s, t, Go, s');
    } else {
      var x :| x in v.dead;
      var s1 := ReapOne(s, t, why, v, x);
      var v1 := v.(dead := v.dead - {x});
      assert |v1.dead| < |v.dead|;
      s' := ReapThrough(s1, t, why, v1);
      LeadsChain(s, s1, s', t);
      WithinChain(s, s1, s', t, v.live);
    }
  }

  // ---------------------------------------------------------------- a whole inspection

  /** The inspection has ended, counting these: on disk are their records and no others, and no stray child record. */
  ghost predicate Found(s: State, s': State, t: nat, why: Why, live: set<Id>) {
    && Within(s, s', t, live) && s'.threads[t].pc == Conclude(s, s.threads[t].mode, why, live)
    && (forall m: Mode :: Claims(s'.fs, m) == OfMode(s, live, m))
    && (forall m: Mode :: Children(s'.fs, m).Keys <= Claims(s'.fs, m))
    && (forall m: Mode :: OfMode(s, live, m) == {} ==> DirOf(s'.fs, m).Absent?)
  }

  /** Tidying a directory that is empty, or none. */
  lemma TidyIs(f: Fs, d: Mode)
    requires Children(f, d).Keys <= Claims(f, d)
    ensures var f' := if Claims(f, d) == {} then Tidy(f, d) else f;
            && (forall m: Mode :: Claims(f', m) == Claims(f, m) && Children(f', m) == Children(f, m))
            && f'.staging == f.staging && f'.root == f.root && (Claims(f, d) == {} ==> DirOf(f', d).Absent?)
            && forall m: Mode | m != d :: DirOf(f', m) == DirOf(f, m)
  {
    TidyEntries(f, d, Exclusive);
    TidyEntries(f, d, Shared);
    if Claims(f, d) == {} { assert Children(f, d) == map[]; }
  }

  lemma TidyFirst(s: State, t: nat, why: Why, v: Survey)
    requires Inspecting(s, t, why, v) && v.at.AtTidyExclusive?
             && Claims(s.fs, Exclusive) == OfMode(s, v.live, Exclusive)
    ensures var f := if Claims(s.fs, Exclusive) == {} then Tidy(s.fs, Exclusive) else s.fs;
            Step(s, Move(t, Go)) == After(s, t, Call(f, s.threads[t].n, Inspect(why, v.(at := AtTidyShared))))
  {
  }

  lemma TidySecond(s: State, t: nat, why: Why, v: Survey)
    requires Inspecting(s, t, why, v) && v.at.AtTidyShared? && Claims(s.fs, Shared) == OfMode(s, v.live, Shared)
    ensures var f := if Claims(s.fs, Shared) == {} then Tidy(s.fs, Shared) else s.fs;
            Step(s, Move(t, Go)) == After(s, t, Call(f, s.threads[t].n, Conclude(s, s.threads[t].mode, why, v.live)))
  {
  }

  lemma TidyFound(s: State, t: nat, why: Why, live: set<Id>, f: Fs)
    requires t < |s.threads| && (forall m: Mode :: Claims(f, m) == Claims(s.fs, m) == OfMode(s, live, m))
    requires (forall m: Mode :: Children(f, m) == Children(s.fs, m) && Children(f, m).Keys <= Claims(f, m))
    requires f.staging == s.fs.staging && f.root == s.fs.root && forall m: Mode | Claims(f, m) == {} ::
                                                                   DirOf(f, m).Absent?
    ensures Found(s, After(s, t, Call(f, s.threads[t].n, Conclude(s, s.threads[t].mode, why, live))), t, why, live)
  {
  }

  lemma SameModes(s: State, t: nat, r: Call, ids: set<Id>, m: Mode)
    requires t < |s.threads|
    ensures OfMode(After(s, t, r), ids, m) == OfMode(s, ids, m)
  {
  }

  lemma SweptClean(s: State, v: Survey)
    requires v.at.AtTidyExclusive? && v.dead == {} && v.orphans == {} && Sweeps(s, v)
    ensures forall m: Mode :: Claims(s.fs, m) == OfMode(s, v.live, m) && Children(s.fs, m).Keys <= Claims(s.fs, m)
  {
    assert v.live + v.dead + Removing(v.at) == v.live;
  }

  lemma TidyEnds(s: State, t: nat, why: Why, v: Survey) returns (s': State)
    requires Inspecting(s, t, why, v) && v.at.AtTidyExclusive? && v.dead == {} && v.orphans == {} && Sweeps(s, v)
    ensures Leads(s, t, s') && Found(s, s', t, why, v.live)
  {
    var n, f := s.threads[t].n, if Claims(s.fs, Exclusive) == {} then Tidy(s.fs, Exclusive) else s.fs;
    var v1 := v.(at := AtTidyShared);
    SweptClean(s, v);
    TidyIs(s.fs, Exclusive);
    TidyFirst(s, t, why, v);
    var s1 := Step(s, Move(t, Go));
    BaseKeeps(s, Move(t, Go));
    SameModes(s, t, Call(f, n, Inspect(why, v1)), v.live, Exclusive);
    SameModes(s, t, Call(f, n, Inspect(why, v1)), v.live, Shared);
    TidyIs(f, Shared);
    TidySecond(s1, t, why, v1);
    var f' := if Claims(f, Shared) == {} then Tidy(f, Shared) else f;
    s' := Step(s1, Move(t, Go));
    assert s' == After(s, t, Call(f', n, Conclude(s, s.threads[t].mode, why, v.live)));
    TidyFound(s, t, why, v.live, f');
    LeadsNowhere(s', t);
    LeadsOn(s1, t, Go, s');
    LeadsOn(s, t, Go, s');
  }

  lemma FoundFrom(s: State, s1: State, s': State, t: nat, why: Why, live: set<Id>)
    requires Within(s, s1, t, live) && Found(s1, s', t, why, live)
    ensures Found(s, s', t, why, live)
  {
    WithinChain(s, s1, s', t, live);
    assert forall m: Mode :: OfMode(s1, live, m) == OfMode(s, live, m);
    assert Conclude(s1, s.threads[t].mode, why, live) == Conclude(s, s.threads[t].mode, why, live);
  }

  lemma LivingSame(s: State, t: nat, pc: PC)
    requires t < |s.threads|
    ensures Living(Goto(s, t, pc)) == Living(s)
  {
    GotoSame(s, t, pc);
  }

  /**
   From every state of the base invariant in which all can be judged: by its thread's own calls an inspection ends with
   exactly the claims that have a record and are not dead, and the records of all others, and stray child
   records, are gone.
   */
  lemma InspectionFinds(s: State, t: nat, why: Why) returns (s': State)
    requires Inspecting(s, t, why, NewSurvey) && Answerable(s)
    ensures Leads(s, t, s') && Base(s') && Found(s, s', t, why, Living(s))
  {
    assert Reads(s, NewSurvey);
    var v := ReadThrough(s, t, why, NewSurvey);
    var s1 := Goto(s, t, Inspect(why, v));
    LeadsBase(s, t, s1);
    ReadSweeps(s1, t, why, v);
    LivingSame(s, t, Inspect(why, v));
    var s2 := OrphansThrough(s1, t, why, v);
    var s3 := ReapThrough(s2, t, why, v.(at := AtReap, orphans := {}));
    s' := TidyEnds(s3, t, why, v.(at := AtTidyExclusive, orphans := {}, dead := {}));
    LeadsChain(s, s1, s2, t);
    LeadsChain(s, s2, s3, t);
    LeadsChain(s, s3, s', t);
    LeadsBase(s, t, s');
    assert Within(s, s1, t, v.live);
    WithinChain(s, s1, s2, t, v.live);
    WithinChain(s, s2, s3, t, v.live);
    FoundFrom(s, s3, s', t, why, v.live);
  }

  // ---------------------------------------------------------------- settling a pending claim

  /** By its own calls alone the thread can come to hold its claim. */
  ghost predicate CanHold(s: State, t: nat) {
    exists acts: seq<Action> :: OwnMoves(acts, t) && Acquires(Run(s, acts), t)
  }

  lemma HoldsThere(s: State, t: nat, s': State)
    requires Leads(s, t, s') && Acquires(s', t)
    ensures CanHold(s, t)
  {
    var acts: seq<Action> :| OwnMoves(acts, t) && Run(s, acts) == s';
    assert Acquires(Run(s, acts), t);
  }

  /** A live exclusive attempt that published and was left pending, with its record. */
  ghost predicate LeftPending(s: State, t: nat) {
    && t < |s.threads| && s.threads[t].proc !in s.gone && s.threads[t].mode == Exclusive && !s.threads[t].clear
    && s.threads[t].pc.Pending? && OnRecord(s, Cur(s, t))
  }

  ghost predicate AllDead(s: State, m: Mode) {
    forall c | c in Claims(s.fs, m) :: Dead(s, c)
  }

  lemma SettlesWhenFree(s: State, t: nat)
    requires Base(s) && LeftPending(s, t) && AllDead(s, Shared)
    ensures CanHold(s, t)
  {
    var s1 := Step(s, Move(t, Settle));
    assert s1 == Goto(s, t, Inspect(Resettling, NewSurvey));
    BaseKeeps(s, Move(t, Settle));
    GotoSame(s, t, Inspect(Resettling, NewSurvey));
    forall c | c in Claims(s.fs, Exclusive) ensures c == Cur(s, t) {
      assert Cur(s, t) in Claims(s.fs, Exclusive);
    }
    assert Answerable(s1);
    var s' := InspectionFinds(s1, t, Resettling);
    assert OfMode(s1, Living(s1), Shared) == {} by {
      forall c | c in OfMode(s1, Living(s1), Shared) ensures false {
        SharedRecord(s1, c);
      }
    }
    LeadsOn(s, t, Settle, s');
    HoldsThere(s, t, s');
  }

  lemma SharedRecord(s: State, c: Id)
    requires Base(s) && c in OfMode(s, Living(s), Shared)
    ensures c in Claims(s.fs, Shared) && !Dead(s, c)
  {
    assert DirOk(s, Exclusive);
  }

  /** A shared claim that is not dead keeps the thread waiting. */
  ghost predicate Waits(s: State, t: nat, c: Id) {
    && t < |s.threads| && s.threads[t].mode == Exclusive && !s.threads[t].clear && c.t != t
    && Standing(s, c) && ModeOf(s, c) == Shared
    && (Ended(s.threads[t].pc) || (Published(s.threads[t].pc) && Heeds(s, s.threads[t].pc, c)))
  }

  /** Another thread's call leaves a standing claim standing. */
  lemma StandsBy(s: State, t: nat, ch: Choice, c: Id)
    requires Base(s) && t < |s.threads| && Standing(s, c) && c.t != t
    ensures Standing(Step(s, Move(t, ch)), c) && ModeOf(Step(s, Move(t, ch)), c) == ModeOf(s, c)
  {
    var s' := Step(s, Move(t, ch));
    if s.threads[t].proc !in s.gone {
      MoveGains(s, t, ch, c, ModeOf(s, c));
      MoveLoses(s, t, ch, c, ModeOf(s, c));
      assert ChildOf(s', c) == ChildOf(s, c);
    }
  }

  lemma StepWaits(s: State, t: nat, ch: Choice, c: Id)
    requires Base(s) && Waits(s, t, c)
    ensures Waits(Step(s, Move(t, ch)), t, c)
  {
    var s', pc := Step(s, Move(t, ch)), s.threads[t].pc;
    StandsBy(s, t, ch, c);
    if s.threads[t].proc !in s.gone {
      MoveGoesOn(s, t, ch);
      if !Ended(pc) && Published(s'.threads[t].pc) { StepHeeds(s, Move(t, ch), t, c); }
    }
  }

  lemma {:induction false} RunWaits(s: State, acts: seq<Action>, t: nat, c: Id)
    requires Base(s) && Waits(s, t, c) && OwnMoves(acts, t)
    ensures Waits(Run(s, acts), t, c)
    decreases |acts|
  {
    if acts != [] {
      BaseKeeps(s, acts[0]);
      StepWaits(s, t, acts[0].choice, c);
      RunWaits(Step(s, acts[0]), acts[1..], t, c);
    }
  }

  lemma WaitingHoldsNothing(s: State, t: nat, c: Id)
    requires Waits(s, t, c)
    ensures !Acquires(s, t)
  {
  }

  /**
   From every state any run reaches, an exclusive claim left pending with its record is acquired by its own
   settling calls if and only if every shared claim on record is dead: a live reader, a live child or a
   declared one keeps it waiting, and nothing else does.
   */
  lemma SettlesExactly(acts: seq<Action>, t: nat)
    requires LeftPending(Run(Init, acts), t)
    ensures var s := Run(Init, acts); CanHold(s, t) <==> AllDead(s, Shared)
  {
    var s := Run(Init, acts);
    AlwaysBase(acts);
    if AllDead(s, Shared) {
      SettlesWhenFree(s, t);
    } else {
      var c :| c in Claims(s.fs, Shared) && !Dead(s, c);
      assert DirOk(s, Shared);
      assert Waits(s, t, c);
      forall more: seq<Action> | OwnMoves(more, t) ensures !Acquires(Run(s, more), t) {
        RunWaits(s, more, t, c);
        WaitingHoldsNothing(Run(s, more), t, c);
      }
    }
  }

  /**
   In every run, a call of settleClaim's inspection goes on, returns to pending on a refusal, or ends: acquired if
   it counted no shared claim, and else pending.
   */
  lemma ResettlingEnds(acts: seq<Action>, t: nat, v: Survey, ch: Choice)
    requires var s := Run(Init, acts);
             t < |s.threads| && s.threads[t].proc !in s.gone && s.threads[t].pc == Inspect(Resettling, v)
    ensures var s, s' := Run(Init, acts), Run(Init, acts + [Move(t, ch)]);
            && t < |s'.threads|
            && var pc := s'.threads[t].pc;
            || (pc.Inspect? && pc.why == Resettling)
            || (pc == Pending && (ch.Refuse? || v.at.AtChild?))
            || (v.at.AtTidyShared? && pc == if OfMode(s, v.live, Shared) == {} then Acquired else Pending)
  {
    var s := Run(Init, acts);
    RunAppend(Init, acts, [Move(t, ch)]);
    assert Run(s, [Move(t, ch)]) == Step(s, Move(t, ch));
    ReadGoesOn(s, Resettling, v, ch);
    SweepGoesOn(s, t, Resettling, v, ch);
  }

  // ---------------------------------------------------------------- a new attempt

  /** A live attempt at its first call. */
  ghost predicate Arriving(s: State, t: nat) {
    t < |s.threads| && s.threads[t].proc !in s.gone && !s.threads[t].clear && s.threads[t].pc.MakeRoot?
  }

  /** A claim of a dead owner whose child is declared and not recorded. */
  ghost predicate Undecided(s: State, c: Id) {
    OwnerGone(s, c) && ChildOf(s, c) == Some(Declared)
  }

  /** Nothing that is not dead stands in the way of a claim of this mode. */
  ghost predicate Free(s: State, m: Mode) {
    && AllDead(s, Exclusive)
    && if m == Exclusive then AllDead(s, Shared) else forall c | c in Claims(s.fs, Shared) :: !Undecided(s, c)
  }

  // ---- it gets its claim

  lemma RootStep(s: State, t: nat)
    requires Base(s) && Arriving(s, t) && Answerable(s)
    ensures var s' := Step(s, Move(t, Go));
            && s' == After(s, t, Call(s.fs.(root := true), s.threads[t].n, Inspect(First, NewSurvey)))
            && Inspecting(s', t, First, NewSurvey) && Answerable(s') && Living(s') == Living(s)
  {
    BaseKeeps(s, Move(t, Go));
    RootedSame(s, t, Inspect(First, NewSurvey));
  }

  /** Where a first inspection that can judge all leads. */
  lemma FirstLookEnds(s: State, t: nat) returns (s': State)
    requires Base(s) && Arriving(s, t) && Answerable(s)
    ensures Leads(s, t, s') && Base(s') && s'.gone == s.gone && s'.fs.staging == s.fs.staging && s'.fs.root
    ensures s'.threads == s.threads[t := s.threads[t].(pc := Conclude(s, s.threads[t].mode, First, Living(s)))]
    ensures forall m: Mode ::
              Claims(s'.fs, m) == OfMode(s, Living(s), m) && (Claims(s'.fs, m) == {} ==> DirOf(s'.fs, m).Absent?)
    ensures forall m: Mode, c | c in Claims(s'.fs, m) ::
              Known(s', c) && ModeOf(s', c) == m && !Undecided(s', c) && !Dead(s', c)
  {
    var s1, th := Step(s, Move(t, Go)), s.threads[t];
    var r := Call(s.fs.(root := true), th.n, Inspect(First, NewSurvey));
    RootStep(s, t);
    s' := InspectionFinds(s1, t, First);
    SameModes(s, t, r, Living(s), Exclusive);
    SameModes(s, t, r, Living(s), Shared);
    LeadsOn(s, t, Go, s');
    LivingDecided(s1, s', t, First);
  }

  /** The first inspection, on a set that is free. */
  lemma FirstLook(s: State, t: nat) returns (s': State)
    requires Base(s) && Arriving(s, t) && Free(s, s.threads[t].mode)
    ensures Leads(s, t, s') && Base(s')
            && s'.threads ==
              s.threads[t := s.threads[t].(pc := if s.threads[t].mode == Shared then MakeShared else StageDir)]
    ensures s'.gone == s.gone && s'.fs.root && s'.fs.excl.Absent?
            && (s.threads[t].mode == Exclusive ==> s'.fs.shar.Absent?)
    ensures forall c | c in Claims(s'.fs, Shared) :: Known(s', c) && !Undecided(s', c)
  {
    s' := FirstLookEnds(s, t);
    NoneLiving(s);
  }

  lemma NoneLiving(s: State)
    requires Base(s)
    ensures AllDead(s, Exclusive) ==> OfMode(s, Living(s), Exclusive) == {}
    ensures AllDead(s, Shared) ==> OfMode(s, Living(s), Shared) == {}
  {
    assert DirOk(s, Exclusive) && DirOk(s, Shared);
  }

  /** Making the root changes nothing that is asked of claims. */
  lemma RootedSame(s: State, t: nat, pc: PC)
    requires t < |s.threads|
    ensures var s' := After(s, t, Call(s.fs.(root := true), s.threads[t].n, pc));
            && (forall m: Mode :: Claims(s'.fs, m) == Claims(s.fs, m) && Children(s'.fs, m) == Children(s.fs, m))
            && forall c :: (Dead(s', c) <==> Dead(s, c)) && (OwnerGone(s', c) <==> OwnerGone(s, c))
                           && (Known(s, c) ==> ChildOf(s', c) == ChildOf(s, c))
  {
  }

  lemma ExclusiveRecord(s: State, c: Id)
    requires Base(s) && c in OfMode(s, Living(s), Exclusive)
    ensures c in Claims(s.fs, Exclusive) && !Dead(s, c)
  {
    assert DirOk(s, Shared);
  }

  /** What an inspection leaves on record can be judged again, and is not dead. */
  lemma LivingDecided(s: State, s': State, t: nat, why: Why)
    requires Base(s) && Answerable(s) && Found(s, s', t, why, Living(s))
    ensures forall m: Mode, c | c in Claims(s'.fs, m) ::
              Known(s', c) && ModeOf(s', c) == m && !Undecided(s', c) && !Dead(s', c)
  {
    forall m: Mode, c | c in Claims(s'.fs, m)
      ensures Known(s', c) && ModeOf(s', c) == m && !Undecided(s', c) && !Dead(s', c)
    {
      assert c in Living(s) && ModeOf(s, c) == m;
      SameChild(s, s', t, Living(s), c);
    }
  }

  lemma SameChild(s: State, s': State, t: nat, live: set<Id>, c: Id)
    requires Within(s, s', t, live) && c in live && Known(s, c)
    ensures Known(s', c) && ModeOf(s', c) == ModeOf(s, c) && ChildOf(s', c) == ChildOf(s, c)
    ensures (OwnerGone(s', c) <==> OwnerGone(s, c)) && (Dead(s', c) <==> Dead(s, c))
  {
  }

  lemma LeadsThree(s: State, t: nat, s1: State, s2: State, s3: State)
    requires s1 == Step(s, Move(t, Go)) && s2 == Step(s1, Move(t, Go)) && s3 == Step(s2, Move(t, Go))
    ensures Leads(s, t, s3)
  {
    LeadsNowhere(s3, t);
    LeadsOn(s2, t, Go, s3);
    LeadsOn(s1, t, Go, s3);
    LeadsOn(s, t, Go, s3);
  }

  /** What a live thread's next publishing call does. */
  lemma PublishStep(s: State, t: nat)
    requires t < |s.threads| && s.threads[t].proc !in s.gone && Publishing(s.threads[t].pc)
    ensures var s', r := Step(s, Move(t, Go)), StepPublish(s, t, Go);
            s'.fs == r.fs && s'.gone == s.gone && s'.threads == s.threads[t := s.threads[t].(n := r.n, pc := r.pc)]
  {
  }

  lemma StagesExclusive(s: State, t: nat) returns (s': State)
    requires Base(s) && t < |s.threads| && s.threads[t].proc !in s.gone && s.threads[t].pc.StageDir?
             && s.fs.excl.Absent?
    ensures Leads(s, t, s') && Base(s')
            && s'.threads == s.threads[t := s.threads[t].(pc := Inspect(Settling, NewSurvey))]
    ensures s'.gone == s.gone && s'.fs.excl == Present({Cur(s, t)}, map[]) && s'.fs.shar == s.fs.shar
  {
    var s1 := Step(s, Move(t, Go));
    PublishStep(s, t);
    var s2 := Step(s1, Move(t, Go));
    PublishStep(s1, t);
    s' := Step(s2, Move(t, Go));
    PublishStep(s2, t);
    LeadsThree(s, t, s1, s2, s');
    LeadsBase(s, t, s');
  }

  lemma StagesShared(s: State, t: nat) returns (s': State)
    requires Base(s) && t < |s.threads| && s.threads[t].proc !in s.gone && s.threads[t].pc.MakeShared?
    ensures Leads(s, t, s') && Base(s')
            && s'.threads == s.threads[t := s.threads[t].(pc := Inspect(Settling, NewSurvey))]
    ensures s'.gone == s.gone && s'.fs.excl == s.fs.excl
    ensures Claims(s'.fs, Shared) == Claims(s.fs, Shared) + {Cur(s, t)}
            && Children(s'.fs, Shared) == Children(s.fs, Shared)
  {
    var s1 := Step(s, Move(t, Go));
    PublishStep(s, t);
    var s2 := Step(s1, Move(t, Go));
    PublishStep(s1, t);
    s' := Step(s2, Move(t, Go));
    PublishStep(s2, t);
    LeadsThree(s, t, s1, s2, s');
    LeadsBase(s, t, s');
  }

  /** The settling inspection of a claim nothing stands against. */
  lemma SettlesAtOnce(s: State, t: nat)
    requires Inspecting(s, t, Settling, NewSurvey) && Answerable(s)
    requires forall c | c in Living(s) && c.t < |s.threads| :: ModeOf(s, c) == s.threads[t].mode
    ensures CanHold(s, t)
  {
    var s' := InspectionFinds(s, t, Settling);
    var other := if s.threads[t].mode == Shared then Exclusive else Shared;
    assert OfMode(s, Living(s), other) == {};
    HoldsThere(s, t, s');
  }

  lemma HoldsFrom(s: State, t: nat, s': State)
    requires Leads(s, t, s') && CanHold(s', t)
    ensures CanHold(s, t)
  {
    var acts: seq<Action> :| OwnMoves(acts, t) && Acquires(Run(s', acts), t);
    assert Leads(s', t, Run(s', acts));
    LeadsChain(s, s', Run(s', acts), t);
    HoldsThere(s, t, Run(s', acts));
  }

  lemma AcquiresWhenFree(s: State, t: nat)
    requires Base(s) && Arriving(s, t) && Free(s, s.threads[t].mode)
    ensures CanHold(s, t)
  {
    var s1 := FirstLook(s, t);
    var s2;
    if s.threads[t].mode == Exclusive {
      s2 := StagesExclusive(s1, t);
    } else {
      s2 := StagesShared(s1, t);
    }
    forall c | c in Claims(s2.fs, Exclusive) + Claims(s2.fs, Shared)
      ensures Known(s2, c) && ModeOf(s2, c) == s.threads[t].mode && !Undecided(s2, c)
    {
      assert DirOk(s2, Exclusive) && DirOk(s2, Shared);
    }
    SettlesAtOnce(s2, t);
    LeadsChain(s, s1, s2, t);
    HoldsFrom(s, t, s2);
  }

  // ---- it is told that the claim is held, or waits

  /**
   From every state any run reaches in which all on record can be judged: while an exclusive claim is not dead, a new
   attempt's own calls end with the answer that it is held, with nothing published or staged, and what was
   dead reaped.
   */
  lemma HeldIsReported(acts: seq<Action>, t: nat) returns (s': State)
    requires var s := Run(Init, acts); Arriving(s, t) && Answerable(s) && OfMode(s, Living(s), Exclusive) != {}
    ensures var s := Run(Init, acts);
            && Leads(s, t, s') && t < |s'.threads| && s'.threads[t].pc == Done(Held) && s'.fs.staging == s.fs.staging
            && forall m: Mode :: Claims(s'.fs, m) == OfMode(s, Living(s), m)
  {
    AlwaysBase(acts);
    s' := FirstLookEnds(Run(Init, acts), t);
  }

  /**
   While only shared claims are not dead, a new exclusive attempt's own calls end with its claim published, its record
   there, and pending.
   */
  lemma WaitsPublished(acts: seq<Action>, t: nat) returns (s': State)
    requires var s := Run(Init, acts);
             && Arriving(s, t) && Answerable(s) && s.threads[t].mode == Exclusive
             && OfMode(s, Living(s), Exclusive) == {} && OfMode(s, Living(s), Shared) != {}
    ensures var s := Run(Init, acts); Leads(s, t, s') && LeftPending(s', t) && Claims(s'.fs, Exclusive) == {Cur(s, t)}
  {
    var s := Run(Init, acts);
    AlwaysBase(acts);
    var s1 := FirstLookEnds(s, t);
    var s2 := StagesExclusive(s1, t);
    PublishedLiving(s1, s2, t);
    var c :| c in OfMode(s, Living(s), Shared);
    assert c in Claims(s1.fs, Shared);
    s' := SettlesPending(s2, t, c);
    LeadsChain(s, s1, s2, t);
    LeadsChain(s, s2, s', t);
  }

  lemma SettlesPending(s: State, t: nat, c: Id) returns (s': State)
    requires Inspecting(s, t, Settling, NewSurvey) && Answerable(s) && s.threads[t].mode == Exclusive
             && !s.threads[t].clear
    requires Claims(s.fs, Exclusive) == {Cur(s, t)} && c in Claims(s.fs, Shared) && !Dead(s, c)
    ensures Leads(s, t, s') && LeftPending(s', t) && Claims(s'.fs, Exclusive) == {Cur(s, t)}
  {
    assert DirOk(s, Exclusive) && DirOk(s, Shared);
    assert c in OfMode(s, Living(s), Shared) && Cur(s, t) in Living(s);
    s' := InspectionFinds(s, t, Settling);
    OwnOnly(s, s', t);
  }

  /** After an exclusive publication everything on record can be judged, and no shared claim is dead. */
  lemma PublishedLiving(s: State, s': State, t: nat)
    requires Base(s') && t < |s.threads| && s.threads[t].proc !in s.gone && s'.gone == s.gone
    requires s'.threads == s.threads[t := s.threads[t].(pc := Inspect(Settling, NewSurvey))]
             && s.threads[t].mode == Exclusive
    requires s'.fs.excl == Present({Cur(s, t)}, map[]) && s'.fs.shar == s.fs.shar
    requires forall m: Mode, c | c in Claims(s.fs, m) ::
               Known(s, c) && ModeOf(s, c) == m && !Undecided(s, c) && !Dead(s, c)
    ensures Answerable(s') && forall c | c in Claims(s'.fs, Shared) :: !Dead(s', c)
  {
    assert DirOk(s', Exclusive) && DirOk(s', Shared);
    forall c | c in Claims(s'.fs, Shared) ensures !Dead(s', c) && !Undecided(s', c) {
      assert c in Claims(s.fs, Shared);
      assert ModeOf(s', c) == Shared && ChildOf(s', c) == ChildOf(s, c);
    }
  }

  lemma OwnOnly(s: State, s': State, t: nat)
    requires Base(s) && t < |s.threads| && s.threads[t].mode == Exclusive && Claims(s.fs, Exclusive) == {Cur(s, t)}
    requires Cur(s, t) in Living(s) && Found(s, s', t, Settling, Living(s))
    ensures Claims(s'.fs, Exclusive) == {Cur(s, t)}
  {
    forall c ensures c in OfMode(s, Living(s), Exclusive) <==> c == Cur(s, t) {
      if c in OfMode(s, Living(s), Exclusive) { ExclusiveRecord(s, c); }
    }
  }

  // ---- it does not get it

  /** A claim of the other mode that is not dead: once published, the thread heeds it. */
  ghost predicate Minded(s: State, t: nat, c: Id) {
    && t < |s.threads| && Standing(s, c) && ModeOf(s, c) != s.threads[t].mode
    && (Published(s.threads[t].pc) ==> Heeds(s, s.threads[t].pc, c))
  }

  /** An exclusive claim that is not dead: the thread, exclusive too, is not published. */
  ghost predicate ShutOut(s: State, t: nat, c: Id) {
    && t < |s.threads| && Standing(s, c) && ModeOf(s, c) == Exclusive == s.threads[t].mode
    && (c.t != t || c.n < s.threads[t].n) && !Published(s.threads[t].pc)
  }

  /** A shared claim that cannot be judged: once published, the thread, shared too, has still to ask about it. */
  ghost predicate Stopped(s: State, t: nat, x: Id) {
    && t < |s.threads| && s.threads[t].mode == Shared && Unresolved(s, x)
    && (Published(s.threads[t].pc) ==>
          s.threads[t].pc.Inspect? && s.threads[t].pc.why.Settling? && ToAsk(s.threads[t].pc.survey, x))
  }

  lemma StepMinded(s: State, t: nat, ch: Choice, c: Id)
    requires Base(s) && Minded(s, t, c)
    ensures Minded(Step(s, Move(t, ch)), t, c)
  {
    var s' := Step(s, Move(t, ch));
    StandsBy(s, t, ch, c);
    if s.threads[t].proc !in s.gone {
      MoveGoesOn(s, t, ch);
      if Published(s'.threads[t].pc) {
        if Published(s.threads[t].pc) { StepHeeds(s, Move(t, ch), t, c); } else { NewlyPublished(s, t, ch); }
      }
    }
  }

  lemma FullDirHoldsOut(s: State, t: nat, ch: Choice)
    requires t < |s.threads| && Publishing(s.threads[t].pc) && Typed(s.threads[t]) && s.threads[t].mode == Exclusive
    requires Claims(s.fs, Exclusive) != {}
    ensures !Published(StepPublish(s, t, ch).pc)
  {
  }

  lemma StaysOut(s: State, t: nat, ch: Choice)
    requires Moves(s, t) && s.threads[t].mode == Exclusive && !Published(s.threads[t].pc)
             && Claims(s.fs, Exclusive) != {}
    ensures !Published(StepThread(s, t, ch).pc)
  {
    var pc := s.threads[t].pc;
    assert Local(s, t);
    MoveGoesOn(s, t, ch);
    if pc.Inspect? {
      FirstLookPublishesNothing(s, t, pc.why, pc.survey, ch);
    } else if Publishing(pc) {
      FullDirHoldsOut(s, t, ch);
    }
  }

  lemma StandsApart(s: State, t: nat, ch: Choice, c: Id)
    requires Base(s) && t < |s.threads| && Standing(s, c) && (c.t != t || c.n < s.threads[t].n)
    ensures Standing(Step(s, Move(t, ch)), c) && ModeOf(Step(s, Move(t, ch)), c) == ModeOf(s, c)
  {
    var s' := Step(s, Move(t, ch));
    if s.threads[t].proc !in s.gone {
      MoveGains(s, t, ch, c, ModeOf(s, c));
      MoveLoses(s, t, ch, c, ModeOf(s, c));
      assert ChildOf(s', c) == ChildOf(s, c);
    }
  }

  lemma StepShutOut(s: State, t: nat, ch: Choice, c: Id)
    requires Base(s) && ShutOut(s, t, c)
    ensures ShutOut(Step(s, Move(t, ch)), t, c)
  {
    StandsApart(s, t, ch, c);
    if s.threads[t].proc !in s.gone {
      MoveGoesOn(s, t, ch);
      assert c in Claims(s.fs, Exclusive);
      StaysOut(s, t, ch);
    }
  }

  lemma StepStopped(s: State, t: nat, ch: Choice, x: Id)
    requires Base(s) && Stopped(s, t, x)
    ensures Stopped(Step(s, Move(t, ch)), t, x)
  {
    var s', pc := Step(s, Move(t, ch)), s.threads[t].pc;
    OrphanedStep(s, Move(t, ch), x, Declared);
    if s.threads[t].proc !in s.gone {
      MoveGoesOn(s, t, ch);
      if Published(pc) {
        SurveyHeldUp(s, t, pc.survey, ch, x);
      } else if Published(s'.threads[t].pc) {
        NewlyPublished(s, t, ch);
      }
    }
  }

  lemma {:induction false} RunMinded(s: State, acts: seq<Action>, t: nat, c: Id)
    requires Base(s) && Minded(s, t, c) && OwnMoves(acts, t)
    ensures !Acquires(Run(s, acts), t)
    decreases |acts|
  {
    if acts != [] {
      BaseKeeps(s, acts[0]);
      StepMinded(s, t, acts[0].choice, c);
      RunMinded(Step(s, acts[0]), acts[1..], t, c);
    }
  }

  lemma {:induction false} RunShutOut(s: State, acts: seq<Action>, t: nat, c: Id)
    requires Base(s) && ShutOut(s, t, c) && OwnMoves(acts, t)
    ensures !Acquires(Run(s, acts), t)
    decreases |acts|
  {
    if acts != [] {
      BaseKeeps(s, acts[0]);
      StepShutOut(s, t, acts[0].choice, c);
      RunShutOut(Step(s, acts[0]), acts[1..], t, c);
    }
  }

  lemma {:induction false} RunStopped(s: State, acts: seq<Action>, t: nat, x: Id)
    requires Base(s) && Stopped(s, t, x) && OwnMoves(acts, t)
    ensures !Acquires(Run(s, acts), t)
    decreases |acts|
  {
    if acts != [] {
      BaseKeeps(s, acts[0]);
      StepStopped(s, t, acts[0].choice, x);
      RunStopped(Step(s, acts[0]), acts[1..], t, x);
    }
  }

  lemma NotFreeHolds(s: State, t: nat, acts: seq<Action>)
    requires Base(s) && Arriving(s, t) && !Free(s, s.threads[t].mode) && OwnMoves(acts, t)
    ensures !Acquires(Run(s, acts), t)
  {
    assert DirOk(s, Exclusive) && DirOk(s, Shared);
    if !AllDead(s, Exclusive) {
      var c :| c in Claims(s.fs, Exclusive) && !Dead(s, c);
      if s.threads[t].mode == Shared { RunMinded(s, acts, t, c); } else { RunShutOut(s, acts, t, c); }
    } else if s.threads[t].mode == Exclusive {
      var c :| c in Claims(s.fs, Shared) && !Dead(s, c);
      RunMinded(s, acts, t, c);
    } else {
      var x :| x in Claims(s.fs, Shared) && Undecided(s, x);
      RunStopped(s, acts, t, x);
    }
  }

  /**
   From every state any run reaches, whatever crashed before: a new attempt gets its claim by its own calls if and only
   if nothing that is not dead stands in its way. An exclusive one needs every claim on record to be dead;
   a shared one every exclusive claim, and no shared claim of a dead owner with a child declared.
   */
  lemma AcquiresExactly(acts: seq<Action>, t: nat)
    requires Arriving(Run(Init, acts), t)
    ensures var s := Run(Init, acts); CanHold(s, t) <==> Free(s, s.threads[t].mode)
  {
    var s := Run(Init, acts);
    AlwaysBase(acts);
    if Free(s, s.threads[t].mode) {
      AcquiresWhenFree(s, t);
    } else {
      forall more: seq<Action> | OwnMoves(more, t) ensures !Acquires(Run(s, more), t) {
        NotFreeHolds(s, t, more);
      }
    }
  }

  // ---------------------------------------------------------------- child records

  /** A holder with its record declares, records and clears its child, and no other claim's changes. */
  lemma ChildIsWritten(acts: seq<Action>, t: nat, ch: Choice)
    requires var s := Run(Init, acts);
             && t < |s.threads| && s.threads[t].proc !in s.gone && !s.threads[t].clear
             && (s.threads[t].pc.Acquired? || s.threads[t].pc.Pending?) && OnRecord(s, Cur(s, t))
    requires ch.DeclareChild? || ch.RecordChild? || ch.ClearChild?
    ensures var s := Run(Init, acts); var s' := Step(s, Move(t, ch));
            && ChildOf(s', Cur(s, t)) ==
              (if ch.DeclareChild? then Some(Declared) else if ch.RecordChild? then Some(Recorded(ch.k)) else None)
            && (forall c | Known(s, c) && c != Cur(s, t) :: ChildOf(s', c) == ChildOf(s, c))
            && forall m: Mode :: Claims(s'.fs, m) == Claims(s.fs, m)
  {
  }

  // ---------------------------------------------------------------- release

  ghost predicate Unrefused(acts: seq<Action>, t: nat) {
    OwnMoves(acts, t) && forall i | 0 <= i < |acts| :: !acts[i].choice.Refuse?
  }

  /** The release has still to unlink the record, or it is gone with its child record. */
  ghost predicate Frees(s: State, t: nat) {
    && t < |s.threads| && s.threads[t].proc !in s.gone && Ended(s.threads[t].pc)
    && var pc := s.threads[t].pc;
    var m := s.threads[t].mode;
    || (pc.Release? && pc.rel.RelRead? && OnRecord(s, Cur(s, t)))
    || (pc.Release? && pc.rel.RelChild?)
    || (pc.Release? && pc.rel.RelClaim? && Cur(s, t) !in Children(s.fs, m))
    || (Cur(s, t) !in Claims(s.fs, m) && Cur(s, t) !in Children(s.fs, m))
  }

  lemma StepFrees(s: State, t: nat, ch: Choice)
    requires Frees(s, t) && !ch.Refuse?
    ensures Frees(Step(s, Move(t, ch)), t)
  {
    if s.threads[t].pc.Release? { ReleaseFrees(s, t, s.threads[t].pc.rel, s.threads[t].pc.out, ch); }
  }

  lemma ReleaseFrees(s: State, t: nat, at: ReleaseAt, out: Outcome, ch: Choice)
    requires Frees(s, t) && s.threads[t].pc == Release(at, out) && !ch.Refuse?
    ensures Frees(Step(s, Move(t, ch)), t)
  {
    var m, c := s.threads[t].mode, Cur(s, t);
    UnlinkEntries(s.fs, m, c, m);
    TidyEntries(s.fs, m, m);
    TidyEntries(s.fs, Exclusive, m);
    TidyEntries(s.fs, Shared, m);
  }

  lemma {:induction false} RunFrees(s: State, acts: seq<Action>, t: nat)
    requires Frees(s, t) && Unrefused(acts, t)
    ensures Frees(Run(s, acts), t)
    decreases |acts|
  {
    if acts != [] {
      StepFrees(s, t, acts[0].choice);
      RunFrees(Step(s, acts[0]), acts[1..], t);
    }
  }

  /** The calls a release has before it, at most. */
  function ReleaseLeft(pc: PC): nat {
    if !pc.Release? then 0
    else match pc.rel
      case RelRead => 10
      case RelChild => 9
      case RelClaim => 8
      case RelTidyDir => 7
      case RelTidyRoot => 6
      case RelTidySet(left) => left + 1
  }

  ghost predicate Ends(s: State, t: nat, acts: seq<Action>) {
    Unrefused(acts, t) && t < |Run(s, acts).threads| && Run(s, acts).threads[t].pc.Done?
  }

  lemma {:induction false} ReleaseEnds(s: State, t: nat) returns (acts: seq<Action>)
    requires t < |s.threads| && s.threads[t].proc !in s.gone && Ended(s.threads[t].pc)
    requires s.threads[t].pc.Release? && s.threads[t].pc.rel.RelTidySet? ==> s.threads[t].pc.rel.left <= 3
    ensures Ends(s, t, acts)
    decreases ReleaseLeft(s.threads[t].pc)
  {
    if s.threads[t].pc.Done? {
      acts := [];
      assert Run(s, []) == s;
    } else {
      var s1 := Step(s, Move(t, Go));
      var rest := ReleaseEnds(s1, t);
      acts := [Move(t, Go)] + rest;
      assert acts[1..] == rest && acts[0] == Move(t, Go);
    }
  }

  /**
   In every run, a release of a claim with its record that no call refuses comes to its end, and at its end the record
   and the child record are gone.
   */
  lemma ReleasedIsGone(acts: seq<Action>, t: nat, more: seq<Action>)
    requires var s := Run(Init, acts);
             && t < |s.threads| && s.threads[t].proc !in s.gone && s.threads[t].pc.Release?
             && s.threads[t].pc.rel.RelRead?
             && OnRecord(s, Cur(s, t))
    ensures var s := Run(Init, acts); exists ends: seq<Action> :: Ends(s, t, ends)
    ensures var s := Run(Init, acts);
            Ends(s, t, more) ==>
              var s', m := Run(s, more), s.threads[t].mode;
              Cur(s', t) == Cur(s, t) && Cur(s, t) !in Claims(s'.fs, m) && Cur(s, t) !in Children(s'.fs, m)
  {
    var s := Run(Init, acts);
    var ends := ReleaseEnds(s, t);
    if Ends(s, t, more) {
      RunFrees(s, more, t);
      EndedKeeps(s, more, t);
    }
  }

  lemma {:induction false} EndedKeeps(s: State, acts: seq<Action>, t: nat)
    requires t < |s.threads| && Ended(s.threads[t].pc) && OwnMoves(acts, t)
    ensures var s' := Run(s, acts);
            t < |s'.threads| && s'.threads[t].n == s.threads[t].n && s'.threads[t].mode == s.threads[t].mode
    decreases |acts|
  {
    if acts != [] {
      MoveGoesOn(s, t, acts[0].choice);
      EndedKeeps(Step(s, acts[0]), acts[1..], t);
    }
  }

  // ---------------------------------------------------------------- clearing

  lemma VictimGone(s: State, t: nat, victims: set<Id>, x: Id)
    requires t < |s.threads| && s.threads[t].proc !in s.gone && s.threads[t].pc == Clearing(victims)
    requires x in victims && s.fs.staging.Keys <= victims
    ensures var s' := Step(Step(s, Move(t, Take(x))), Move(t, Go));
            && s'.gone == s.gone && s'.threads == s.threads[t := s.threads[t].(pc := Clearing(victims - {x}))]
            && s'.fs.staging.Keys <= victims - {x} && s'.fs.excl == s.fs.excl && s'.fs.shar == s.fs.shar
  {
    var s1 := Step(s, Move(t, Take(x)));
    assert s1.threads[t].pc == ClearUnlinked(victims - {x}, x);
  }

  /** By its own calls a clearing removes all that is staged, and comes to release its claim. */
  lemma {:induction false} ClearThrough(s: State, t: nat, victims: set<Id>) returns (s': State)
    requires t < |s.threads| && s.threads[t].proc !in s.gone && s.threads[t].pc == Clearing(victims)
    requires s.fs.staging.Keys <= victims
    ensures Leads(s, t, s') && s'.gone == s.gone && s'.fs.staging == map[]
    ensures s'.fs.excl == s.fs.excl && s'.fs.shar == s.fs.shar
    ensures s'.threads == s.threads[t := s.threads[t].(pc := Release(RelRead, Released))]
    decreases |victims|
  {
    if victims == {} {
      s' := Step(s, Move(t, Go));
      assert s.fs.staging == map[];
      LeadsNowhere(s', t);
      LeadsOn(s, t, Go, s');
    } else {
      var x :| x in victims;
      VictimGone(s, t, victims, x);
      var s1 := Step(s, Move(t, Take(x)));
      var s2 := Step(s1, Move(t, Go));
      assert |victims - {x}| < |victims|;
      s' := ClearThrough(s2, t, victims - {x});
      LeadsOn(s1, t, Go, s');
      LeadsOn(s, t, Take(x), s');
    }
  }

  /** A release touches nothing staged and ends with the outcome it began with. */
  lemma {:induction false} ReleaseLeaves(s: State, t: nat, acts: seq<Action>, out: Outcome)
    requires OwnMoves(acts, t) && t < |s.threads|
    requires s.threads[t].pc == Done(out) || (s.threads[t].pc.Release? && s.threads[t].pc.out == out)
    ensures var s' := Run(s, acts);
            && t < |s'.threads| && s'.fs.staging == s.fs.staging
            && (s'.threads[t].pc == Done(out) || (s'.threads[t].pc.Release? && s'.threads[t].pc.out == out))
    decreases |acts|
  {
    if acts != [] {
      var pc, ch := s.threads[t].pc, acts[0].choice;
      if pc.Release? { ReleaseStaging(s, t, pc.rel, pc.out, ch); }
      ReleaseLeaves(Step(s, acts[0]), t, acts[1..], out);
    }
  }

  lemma ClearsStaged(s: State, t: nat) returns (s3: State)
    requires t < |s.threads| && s.threads[t].proc !in s.gone && s.threads[t].clear && s.threads[t].pc.Acquired?
    ensures Leads(s, t, s3) && s3.gone == s.gone && s3.fs.staging == map[]
    ensures s3.fs.excl == s.fs.excl && s3.fs.shar == s.fs.shar
    ensures s3.threads == s.threads[t := s.threads[t].(pc := Release(RelRead, Released))]
  {
    var s1 := Step(s, Move(t, Go));
    var s2 := Step(s1, Move(t, Go));
    assert s2.threads[t].pc == Clearing(s.fs.staging.Keys) && s2.fs.staging == s.fs.staging;
    s3 := ClearThrough(s2, t, s.fs.staging.Keys);
    LeadsOn(s1, t, Go, s3);
    LeadsOn(s, t, Go, s3);
  }

  /**
   From every state in which a live clearing call holds its claim: by its own calls it ends, cleared, with nothing
   staged.
   */
  lemma ClearingClears(s: State, t: nat) returns (s': State)
    requires t < |s.threads| && s.threads[t].proc !in s.gone && s.threads[t].clear && s.threads[t].pc.Acquired?
    ensures Leads(s, t, s') && t < |s'.threads| && s'.threads[t].pc == Done(Released) && s'.fs.staging == map[]
  {
    var s3 := ClearsStaged(s, t);
    var acts := ReleaseEnds(s3, t);
    ReleaseLeaves(s3, t, acts, Released);
    s' := Run(s3, acts);
    assert Leads(s3, t, s');
    LeadsChain(s, s3, s', t);
  }
}
