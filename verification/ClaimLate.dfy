/**
 Which shared attempts still become acquired once an exclusive claim is published: the exact condition,
 over all continuations, from any point of their inspection but one.
 */
module ClaimLate {
  import opened Options
  import opened ClaimModel
  import opened ClaimBase
  import opened ClaimSafety
  import opened ClaimRuns

  // ---------------------------------------------------------------- a shared child record goes first

  /** Whoever is about to unlink a record has unlinked its child record, if it is a shared one. */
  ghost predicate Unchilded(s: State, t: nat)
    requires t < |s.threads|
  {
    var th := s.threads[t];
    && (th.pc.Inspect? && th.pc.survey.at.AtUnlinkClaim? ==> th.pc.survey.at.c !in Children(s.fs, Shared))
    && (th.pc.Release? && th.pc.rel.RelClaim? ==> Cur(s, t) !in Children(s.fs, Shared))
  }

  /** In `shared/` a child record has its claim's record beside it. */
  ghost predicate ChildrenFirst(s: State) {
    && Children(s.fs, Shared).Keys <= Claims(s.fs, Shared)
    && forall t: nat | t < |s.threads| :: Unchilded(s, t)
  }

  lemma ReleaseLosesLast(s: State, t: nat, at: ReleaseAt, out: Outcome, ch: Choice, c: Id, m: Mode)
    requires t < |s.threads| && LosesClaim(s.fs, StepRelease(s, t, at, out, ch).fs, c, m)
    ensures at == RelClaim && c == Cur(s, t)
  {
    ReleaseChanges(s, t, at, out, ch, c, m);
    TidySame(s.fs, s.threads[t].mode, c, m);
    TidySame(s.fs, Exclusive, c, m);
    TidySame(s.fs, Shared, c, m);
    UnlinkLoses(s.fs, s.threads[t].mode, Cur(s, t), c, m);
  }

  /** A shared record goes only after its child record. */
  lemma RecordGoesLast(s: State, t: nat, ch: Choice, c: Id)
    requires Moves(s, t) && Unchilded(s, t) && LosesClaim(s.fs, StepThread(s, t, ch).fs, c, Shared)
    ensures c !in Children(s.fs, Shared)
  {
    var pc := s.threads[t].pc;
    assert Local(s, t);
    if pc.Inspect? {
      SurveyChanges(s, t, pc.why, pc.survey, ch, c, Shared);
    } else if pc.Release? {
      ReleaseLosesLast(s, t, pc.rel, pc.out, ch, c, Shared);
    } else if Publishing(pc) {
      PublishChanges(s, t, ch, c, Shared);
    } else if !pc.Done? {
      HoldChanges(s, t, ch, c, Shared);
    }
  }

  lemma MoveChildren(s: State, t: nat, ch: Choice, c: Id)
    requires Inv(s) && ChildrenFirst(s) && Moves(s, t) && c in Children(StepThread(s, t, ch).fs, Shared)
    ensures c in Claims(StepThread(s, t, ch).fs, Shared)
  {
    MoveGains(s, t, ch, c, Shared);
    MoveLoses(s, t, ch, c, Shared);
    assert Unchilded(s, t);
    if c in Children(s.fs, Shared) {
      if LosesClaim(s.fs, StepThread(s, t, ch).fs, c, Shared) { RecordGoesLast(s, t, ch, c); }
    } else {
      NeededPresent(s, c);
    }
  }

  lemma SweepUnlinks(s: State, t: nat, why: Why, v: Survey, ch: Choice, c: Id)
    requires t < |s.threads| && s.threads[t].pc == Inspect(why, v) && Sweeping(v.at)
    requires v.at.AtUnlinkClaim? ==> Known(s, v.at.c)
    ensures var r := Sweep(s, t, why, v, ch);
            r.pc.Inspect? && r.pc.survey.at == AtUnlinkClaim(c) ==>
              v.at == AtUnlinkChild(c) && Known(s, c) && r.fs == UnlinkChild(s.fs, ModeOf(s, c), c)
  {
  }

  lemma ReadUnlinksNothing(s: State, why: Why, v: Survey, ch: Choice)
    requires !Sweeping(v.at)
    ensures var pc := Read(s, why, v, ch); pc.Inspect? ==> !pc.survey.at.AtUnlinkClaim?
  {
  }

  lemma SurveyReleasesFirst(s: State, t: nat, why: Why, v: Survey, ch: Choice)
    requires t < |s.threads| && s.threads[t].pc == Inspect(why, v)
    ensures var pc := StepSurvey(s, t, why, v, ch).pc; pc.Release? ==> pc.rel == RelRead
  {
    ReadGoesOn(s, why, v, ch);
    SweepGoesOn(s, t, why, v, ch);
    assert Refused(why).Release? ==> Refused(why).rel == RelRead;
  }

  lemma SurveyUnchilds(s: State, t: nat, why: Why, v: Survey, ch: Choice)
    requires Moves(s, t) && s.threads[t].pc == Inspect(why, v)
    ensures var r := StepSurvey(s, t, why, v, ch);
            r.pc.Inspect? && r.pc.survey.at.AtUnlinkClaim? ==> r.pc.survey.at.c !in Children(r.fs, Shared)
  {
    assert Local(s, t) && AtOk(s, v.at);
    if ch.Refuse? {
      assert !Refused(why).Inspect?;
    } else if Sweeping(v.at) {
      var pc := Sweep(s, t, why, v, ch).pc;
      if pc.Inspect? && pc.survey.at.AtUnlinkClaim? {
        SweepUnlinks(s, t, why, v, ch, pc.survey.at.c);
        UnlinkEntries(s.fs, ModeOf(s, v.at.c), v.at.c, Shared);
      }
    } else {
      ReadUnlinksNothing(s, why, v, ch);
    }
  }

  lemma ReleaseUnchilds(s: State, t: nat, at: ReleaseAt, out: Outcome, ch: Choice)
    requires Moves(s, t) && s.threads[t].pc == Release(at, out)
    ensures var r := StepRelease(s, t, at, out, ch);
            && r.n == s.threads[t].n && !r.pc.Inspect?
            && (r.pc.Release? && r.pc.rel.RelClaim? ==> Cur(s, t) !in Children(r.fs, Shared))
  {
    UnlinkEntries(s.fs, s.threads[t].mode, Cur(s, t), Shared);
  }

  lemma OthersUnchild(s: State, t: nat, ch: Choice)
    requires t < |s.threads| && !s.threads[t].pc.Inspect? && !s.threads[t].pc.Release?
    ensures var pc := StepThread(s, t, ch).pc;
            (pc.Inspect? ==> pc.survey == NewSurvey) && !(pc.Release? && pc.rel.RelClaim?)
  {
    MoveGoesOn(s, t, ch);
  }

  lemma MoveUnchilds(s: State, t: nat, ch: Choice)
    requires Moves(s, t)
    ensures Unchilded(Step(s, Move(t, ch)), t)
  {
    var pc := s.threads[t].pc;
    if pc.Inspect? {
      SurveyUnchilds(s, t, pc.why, pc.survey, ch);
      SurveyReleasesFirst(s, t, pc.why, pc.survey, ch);
    } else if pc.Release? {
      ReleaseUnchilds(s, t, pc.rel, pc.out, ch);
    } else {
      OthersUnchild(s, t, ch);
    }
  }

  lemma OtherUnchilded(s: State, t: nat, ch: Choice, u: nat)
    requires Moves(s, t) && u < |s.threads| && u != t && Unchilded(s, u)
    ensures Unchilded(Step(s, Move(t, ch)), u)
  {
    var pc := s.threads[u].pc;
    assert Local(s, u);
    MoveGains(s, t, ch, Cur(s, u), Shared);
    if pc.Inspect? && pc.survey.at.AtUnlinkClaim? { MoveGains(s, t, ch, pc.survey.at.c, Shared); }
  }

  lemma StepChildrenFirst(s: State, a: Action)
    requires Inv(s) && ChildrenFirst(s)
    ensures ChildrenFirst(Step(s, a))
  {
    if a.Move? && a.t < |s.threads| && s.threads[a.t].proc !in s.gone {
      var s' := Step(s, a);
      forall c | c in Children(s'.fs, Shared).Keys ensures c in Claims(s'.fs, Shared) {
        MoveChildren(s, a.t, a.choice, c);
      }
      forall u: nat | u < |s'.threads| ensures Unchilded(s', u) {
        if u == a.t { MoveUnchilds(s, u, a.choice); } else { OtherUnchilded(s, a.t, a.choice, u); }
      }
    } else {
      forall u: nat | u < |Step(s, a).threads| ensures Unchilded(Step(s, a), u) {
        if u < |s.threads| { assert Unchilded(s, u); }
      }
    }
  }

  lemma {:induction false} RunChildrenFirst(s: State, acts: seq<Action>)
    requires Inv(s) && ChildrenFirst(s)
    ensures ChildrenFirst(Run(s, acts))
    decreases |acts|
  {
    if acts != [] {
      StepKeeps(s, acts[0]);
      StepChildrenFirst(s, acts[0]);
      RunChildrenFirst(Step(s, acts[0]), acts[1..]);
    }
  }

  /** In every run, whoever removes a shared claim removes its child record first. */
  lemma SharedChildrenHaveRecords(acts: seq<Action>)
    ensures ChildrenFirst(Run(Init, acts))
  {
    Reached([]);
    RunChildrenFirst(Init, acts);
  }

  // ---------------------------------------------------------------- the attempt, and what holds it up

  /** A live, settling shared attempt. */
  ghost predicate Settles(s: State, h: nat, v: Survey) {
    && h < |s.threads| && s.threads[h].proc !in s.gone && s.threads[h].mode == Shared
    && s.threads[h].pc == Inspect(Settling, v)
  }

  /** It is asking whether an exclusive claim it listed is held; a claim it has yet to hear of. */
  ghost predicate AsksExclusive(at: At) {
    (at.AtOwner? || at.AtChild? || at.AtGroup?) && at.d == Exclusive
  }

  ghost predicate Acquires(s: State, h: nat) {
    h < |s.threads| && InUse(s.threads[h].pc)
  }

  ghost predicate CountedExclusive(s: State, v: Survey) {
    OfMode(s, v.live, Exclusive) != {}
  }

  /** It has still to ask about shared claim `x`. */
  ghost predicate ToAsk(v: Survey, x: Id) {
    Unlisted(v.at, Shared) || x in v.todo || v.at == AtOwner(Shared, x) || v.at == AtChild(Shared, x)
  }

  /** The owner of shared claim `x` died with a child declared and not recorded: whoever asks about it is refused. */
  ghost predicate Unresolved(s: State, x: Id) {
    Orphaned(s, x, Declared) && ModeOf(s, x) == Shared
  }

  ghost predicate Blocked(s: State, v: Survey) {
    exists x :: ToAsk(v, x) && Unresolved(s, x)
  }

  // ---------------------------------------------------------------- who cannot come through

  /** It has counted an exclusive claim, or has already begun to give way. */
  ghost predicate GivingWay(s: State, h: nat) {
    && h < |s.threads| && s.threads[h].mode == Shared
    && (Ended(s.threads[h].pc) ||
        (s.threads[h].pc.Inspect? && s.threads[h].pc.why.Settling? && CountedExclusive(s, s.threads[h].pc.survey)))
  }

  lemma ReadKeepsLive(s: State, why: Why, v: Survey, ch: Choice)
    ensures var pc := Read(s, why, v, ch);
            pc == Refused(why) || (pc.Inspect? && pc.why == why && v.live <= pc.survey.live)
  {
  }

  lemma SweepKeepsLive(s: State, t: nat, why: Why, v: Survey, ch: Choice)
    requires t < |s.threads| && s.threads[t].pc == Inspect(why, v)
    ensures var pc := Sweep(s, t, why, v, ch).pc;
            || pc == Conclude(s, s.threads[t].mode, why, v.live)
            || (pc.Inspect? && pc.why == why && pc.survey.live == v.live)
  {
  }

  lemma SurveyKeepsLive(s: State, h: nat, v: Survey, ch: Choice)
    requires Settles(s, h, v)
    ensures var pc := StepSurvey(s, h, Settling, v, ch).pc;
            || pc == Refused(Settling) || pc == Conclude(s, Shared, Settling, v.live)
            || (pc.Inspect? && pc.why == Settling && v.live <= pc.survey.live)
  {
    ReadKeepsLive(s, Settling, v, ch);
    SweepKeepsLive(s, h, Settling, v, ch);
  }

  lemma StepGivesWay(s: State, a: Action, h: nat)
    requires GivingWay(s, h)
    ensures GivingWay(Step(s, a), h)
  {
    var s', pc := Step(s, a), s.threads[h].pc;
    forall live: set<Id>, more: set<Id> | OfMode(s, live, Exclusive) != {} && live <= more
      ensures OfMode(s', more, Exclusive) != {}
    {
      var c :| c in OfMode(s, live, Exclusive);
      assert c in OfMode(s', more, Exclusive);
    }
    if a.Move? && a.t == h && s.threads[h].proc !in s.gone {
      MoveGoesOn(s, h, a.choice);
      if pc.Inspect? { SurveyKeepsLive(s, h, pc.survey, a.choice); }
    }
  }

  lemma {:induction false} RunGivesWay(s: State, acts: seq<Action>, h: nat)
    requires GivingWay(s, h)
    ensures GivingWay(Run(s, acts), h)
    decreases |acts|
  {
    if acts != [] {
      StepGivesWay(s, acts[0], h);
      RunGivesWay(Step(s, acts[0]), acts[1..], h);
    }
  }

  /** It has still to ask about `x`, or has already given up. */
  ghost predicate HeldUp(s: State, h: nat, x: Id) {
    && h < |s.threads| && s.threads[h].mode == Shared && Unresolved(s, x)
    && (Ended(s.threads[h].pc) ||
        (s.threads[h].pc.Inspect? && s.threads[h].pc.why.Settling? && ToAsk(s.threads[h].pc.survey, x)))
  }

  lemma ReadHeldUp(s: State, v: Survey, ch: Choice, x: Id)
    requires Rooted(s.fs) && SurveyOk(s, v) && Unresolved(s, x) && ToAsk(v, x) && !Sweeping(v.at)
    ensures var pc := Read(s, Settling, v, ch);
            pc == Refused(Settling) || (pc.Inspect? && pc.why == Settling && ToAsk(pc.survey, x))
  {
  }

  lemma SurveyHeldUp(s: State, h: nat, v: Survey, ch: Choice, x: Id)
    requires Base(s) && Settles(s, h, v) && Unresolved(s, x) && ToAsk(v, x)
    ensures var pc := StepSurvey(s, h, Settling, v, ch).pc;
            pc == Refused(Settling) || (pc.Inspect? && pc.why == Settling && ToAsk(pc.survey, x))
  {
    assert Local(s, h) && SurveyOk(s, v);
    ReadHeldUp(s, v, ch, x);
  }

  lemma StepHeldUp(s: State, a: Action, h: nat, x: Id)
    requires Base(s) && HeldUp(s, h, x)
    ensures HeldUp(Step(s, a), h, x)
  {
    var pc := s.threads[h].pc;
    OrphanedStep(s, a, x, Declared);
    if a.Move? && a.t == h && s.threads[h].proc !in s.gone {
      MoveGoesOn(s, h, a.choice);
      if pc.Inspect? { SurveyHeldUp(s, h, pc.survey, a.choice, x); }
    }
  }

  lemma {:induction false} RunHeldUp(s: State, acts: seq<Action>, h: nat, x: Id)
    requires Base(s) && HeldUp(s, h, x)
    ensures HeldUp(Run(s, acts), h, x)
    decreases |acts|
  {
    if acts != [] {
      BaseKeeps(s, acts[0]);
      StepHeldUp(s, acts[0], h, x);
      RunHeldUp(Step(s, acts[0]), acts[1..], h, x);
    }
  }

  // ---------------------------------------------------------------- who comes through

  /** A continuation through which `c` stays needed and at whose end `h` holds its claim. */
  ghost predicate ComesLate(s: State, more: seq<Action>, h: nat, c: Id) {
    NeededThroughout(s, more, c) && Acquires(Run(s, more), h)
  }

  /** One more step of the attempt in front of such a continuation. */
  lemma ComesLater(s: State, a: Action, rest: seq<Action>, h: nat, c: Id)
    requires Needed(s, c) && ComesLate(Step(s, a), rest, h, c)
    ensures ComesLate(s, [a] + rest, h, c)
  {
    assert ([a] + rest)[0] == a && ([a] + rest)[1..] == rest;
  }

  /** A step of another thread leaves a needed claim with its record needed. */
  lemma OthersLeaveNeeded(s: State, h: nat, ch: Choice, c: Id)
    requires Moves(s, h) && Stands(s, c) && c.t != h
    ensures Stands(Step(s, Move(h, ch)), c)
  {
    var s' := Step(s, Move(h, ch));
    MoveGains(s, h, ch, c, ModeOf(s, c));
    MoveLoses(s, h, ch, c, ModeOf(s, c));
    assert ChildOf(s', c) == ChildOf(s, c);
  }

  function Rank(at: At): nat {
    match at
    case AtOrphans => 6
    case AtUnlinkChild(_) => 5
    case AtUnlinkClaim(_) => 4
    case AtReap => 3
    case AtTidyExclusive => 2
    case _ => 1
  }

  /** The next call of such an attempt, chosen to bring it on. */
  ghost function NextSweep(v: Survey): Choice {
    if v.at.AtOrphans? && v.orphans != {} then var x :| x in v.orphans; Take(x)
    else if v.at.AtReap? && v.dead != {} then var x :| x in v.dead; Skip(x)
    else Go
  }

  /** The inspection is the same but nearer its end. */
  ghost predicate Nearer(v: Survey, v': Survey) {
    && v'.live == v.live && Sweeping(v'.at)
    && (|v'.orphans| < |v.orphans|
        || (v'.orphans == v.orphans && |v'.dead| < |v.dead|)
        || (v'.orphans == v.orphans && v'.dead == v.dead && Rank(v'.at) < Rank(v.at)))
  }

  lemma OrphansAdvance(s: State, h: nat, v: Survey)
    requires Base(s) && Settles(s, h, v) && Sweeping(v.at) && v.at.AtOrphans?
    ensures var pc := StepSurvey(s, h, Settling, v, NextSweep(v)).pc;
            pc.Inspect? && pc.why == Settling && Nearer(v, pc.survey)
  {
    assert Local(s, h) && SurveyOk(s, v);
    if v.orphans != {} {
      var x := NextSweep(v).c;
      assert Issued(s, x);
      assert |v.orphans - {x}| < |v.orphans|;
    }
  }

  lemma ReapAdvances(s: State, h: nat, v: Survey)
    requires Settles(s, h, v) && Sweeping(v.at) && v.at.AtReap?
    ensures var pc := StepSurvey(s, h, Settling, v, NextSweep(v)).pc;
            pc.Inspect? && pc.why == Settling && Nearer(v, pc.survey)
  {
    if v.dead != {} { assert |v.dead - {NextSweep(v).c}| < |v.dead|; }
  }

  lemma SweepAdvances(s: State, h: nat, v: Survey)
    requires Base(s) && Settles(s, h, v) && Sweeping(v.at) && !CountedExclusive(s, v)
    ensures var pc := StepSurvey(s, h, Settling, v, NextSweep(v)).pc;
            if v.at.AtTidyShared? then pc == Acquired else pc.Inspect? && pc.why == Settling && Nearer(v, pc.survey)
  {
    if v.at.AtOrphans? {
      OrphansAdvance(s, h, v);
    } else if v.at.AtReap? {
      ReapAdvances(s, h, v);
    } else if v.at.AtUnlinkChild? || v.at.AtUnlinkClaim? {
      assert Local(s, h) && AtOk(s, v.at);
    }
  }

  /** Left alone while it sweeps, the attempt becomes acquired. */
  lemma {:induction false} SweepsThrough(s: State, h: nat, v: Survey, c: Id) returns (more: seq<Action>)
    requires Base(s) && Settles(s, h, v) && Sweeping(v.at) && !CountedExclusive(s, v)
    requires Stands(s, c) && ModeOf(s, c) == Exclusive
    ensures ComesLate(s, more, h, c)
    decreases |v.orphans|, |v.dead|, Rank(v.at)
  {
    var a := Move(h, NextSweep(v));
    var s' := Step(s, a);
    SweepAdvances(s, h, v);
    OthersLeaveNeeded(s, h, NextSweep(v), c);
    BaseKeeps(s, a);
    var rest := [];
    if !v.at.AtTidyShared? {
      var v' := s'.threads[h].pc.survey;
      assert OfMode(s', v'.live, Exclusive) == OfMode(s, v.live, Exclusive);
      rest := SweepsThrough(s', h, v', c);
    } else {
      assert Run(s', []) == s';
    }
    ComesLater(s, a, rest, h, c);
    more := [a] + rest;
  }

  /** It has listed `exclusive/` without `c`, counted no exclusive claim, and nothing holds it up. */
  ghost predicate Unhindered(s: State, v: Survey, c: Id)
    requires Known(s, c)
  {
    !Minds(s, v, c) && !CountedExclusive(s, v) && !Blocked(s, v)
  }

  /** The parts of the reading half it has still before it. */
  function Phase(at: At): nat {
    match at
    case AtNext(Exclusive) => 3
    case AtList(_) => 2
    case AtNext(Shared) => 1
    case AtOwner(_, _) => 1
    case AtChild(_, _) => 1
    case AtGroup(_, _, _) => 1
    case _ => 0
  }

  function ReadRank(at: At): nat {
    match at
    case AtOwner(_, _) => 3
    case AtChild(_, _) => 2
    case AtGroup(_, _, _) => 1
    case _ => 0
  }

  ghost function NextRead(v: Survey): Choice {
    if v.at.AtNext? && v.todo != {} then var x :| x in v.todo; Take(x) else Go
  }

  ghost predicate ReadsOn(v: Survey, v': Survey) {
    && !AsksExclusive(v'.at)
    && (Phase(v'.at) < Phase(v.at)
        || (Phase(v'.at) == Phase(v.at) && |v'.todo| < |v.todo|)
        || (Phase(v'.at) == Phase(v.at) && v'.todo == v.todo && ReadRank(v'.at) < ReadRank(v.at)))
  }

  lemma NextAdvances(s: State, h: nat, v: Survey, c: Id)
    requires Base(s) && Settles(s, h, v) && v.at.AtNext?
    requires Stands(s, c) && ModeOf(s, c) == Exclusive && Unhindered(s, v, c)
    ensures var pc := Read(s, Settling, v, NextRead(v));
            pc.Inspect? && pc.why == Settling && ReadsOn(v, pc.survey) && Unhindered(s, pc.survey, c)
  {
    assert Local(s, h) && SurveyOk(s, v);
    if v.todo != {} {
      var x := NextRead(v).c;
      assert |v.todo - {x}| < |v.todo|;
      assert ToAsk(v, x);
      StillUnblocked(s, v, Read(s, Settling, v, NextRead(v)).survey);
    } else {
      StillUnblocked(s, v, Read(s, Settling, v, NextRead(v)).survey);
    }
  }

  lemma StillUnblocked(s: State, v: Survey, v': Survey)
    requires !Blocked(s, v) && forall x | Unresolved(s, x) && ToAsk(v', x) :: ToAsk(v, x)
    ensures !Blocked(s, v')
  {
  }

  lemma AskAdvances(s: State, h: nat, v: Survey, c: Id)
    requires Base(s) && ChildrenFirst(s) && Settles(s, h, v) && !v.at.AtNext? && !Sweeping(v.at) && !AsksExclusive(v.at)
    requires Stands(s, c) && ModeOf(s, c) == Exclusive && Unhindered(s, v, c)
    ensures var pc := Read(s, Settling, v, NextRead(v));
            pc.Inspect? && pc.why == Settling && ReadsOn(v, pc.survey) && Unhindered(s, pc.survey, c)
  {
    assert Local(s, h) && SurveyOk(s, v) && AtOk(s, v.at);
    if v.at.AtChild? && ChildOf(s, v.at.c) == Some(Declared) { assert ToAsk(v, v.at.c) && Unresolved(s, v.at.c); }
    var v' := Read(s, Settling, v, NextRead(v)).survey;
    StillUnblocked(s, v, v');
    assert OfMode(s, v'.live, Exclusive) == OfMode(s, v.live, Exclusive);
  }

  lemma ReadAdvances(s: State, h: nat, v: Survey, c: Id)
    requires Base(s) && ChildrenFirst(s) && Settles(s, h, v) && !Sweeping(v.at) && !AsksExclusive(v.at)
    requires Stands(s, c) && ModeOf(s, c) == Exclusive && Unhindered(s, v, c)
    ensures var pc := Read(s, Settling, v, NextRead(v));
            pc.Inspect? && pc.why == Settling && ReadsOn(v, pc.survey) && Unhindered(s, pc.survey, c)
  {
    if v.at.AtNext? { NextAdvances(s, h, v, c); } else { AskAdvances(s, h, v, c); }
  }

  /** Left alone, an unhindered attempt becomes acquired. */
  lemma {:induction false} ComesThrough(s: State, h: nat, v: Survey, c: Id) returns (more: seq<Action>)
    requires Inv(s) && ChildrenFirst(s) && Settles(s, h, v) && !AsksExclusive(v.at)
    requires Stands(s, c) && ModeOf(s, c) == Exclusive && Unhindered(s, v, c)
    ensures ComesLate(s, more, h, c)
    decreases Phase(v.at), |v.todo|, ReadRank(v.at)
  {
    if Sweeping(v.at) {
      more := SweepsThrough(s, h, v, c);
    } else {
      var a := Move(h, NextRead(v));
      var s' := Step(s, a);
      ReadAdvances(s, h, v, c);
      OthersLeaveNeeded(s, h, NextRead(v), c);
      StepKeeps(s, a);
      StepChildrenFirst(s, a);
      var v' := s'.threads[h].pc.survey;
      SameHindrance(s, s', v', c);
      var rest := ComesThrough(s', h, v', c);
      ComesLater(s, a, rest, h, c);
      more := [a] + rest;
    }
  }

  /** Reading changes no entry, no process and no claim's mode. */
  lemma SameHindrance(s: State, s': State, v: Survey, c: Id)
    requires s'.fs == s.fs && s'.gone == s.gone && |s'.threads| == |s.threads|
    requires forall t: nat | t < |s.threads| ::
               s'.threads[t].mode == s.threads[t].mode && s'.threads[t].proc == s.threads[t].proc
    requires Known(s, c) && Unhindered(s, v, c)
    ensures Unhindered(s', v, c)
  {
    assert OfMode(s', v.live, Exclusive) == OfMode(s, v.live, Exclusive);
    if Blocked(s', v) {
      var x :| ToAsk(v, x) && Unresolved(s', x);
      assert Unresolved(s, x);
    }
  }

  /**
   In every run, while a published exclusive claim with its record stays needed, a shared attempt can still
   become acquired only if it has listed `exclusive/` without that claim, counted no exclusive claim as
   held, and has no shared claim still to ask about whose owner died with a child declared. And then it
   can, unless it is just then asking about an older exclusive claim.
   */
  lemma LateExactly(acts: seq<Action>, h: nat, v: Survey, c: Id)
    requires Settles(Run(Init, acts), h, v)
    requires Stands(Run(Init, acts), c) && ModeOf(Run(Init, acts), c) == Exclusive
    ensures var s := Run(Init, acts); (exists more: seq<Action> :: ComesLate(s, more, h, c)) ==> Unhindered(s, v, c)
    ensures var s := Run(Init, acts);
            Unhindered(s, v, c) && !AsksExclusive(v.at) ==> exists more: seq<Action> :: ComesLate(s, more, h, c)
  {
    var s := Run(Init, acts);
    Reached(acts);
    if !Unhindered(s, v, c) {
      forall more: seq<Action> ensures !ComesLate(s, more, h, c) {
        NeverComes(s, more, h, v, c);
      }
    } else if !AsksExclusive(v.at) {
      SharedChildrenHaveRecords(acts);
      var more := ComesThrough(s, h, v, c);
    }
  }

  lemma NeverComes(s: State, more: seq<Action>, h: nat, v: Survey, c: Id)
    requires Base(s) && Settles(s, h, v) && Stands(s, c) && ModeOf(s, c) == Exclusive && !Unhindered(s, v, c)
    ensures !ComesLate(s, more, h, c)
  {
    if CountedExclusive(s, v) {
      RunGivesWay(s, more, h);
    } else if Blocked(s, v) {
      var x :| ToAsk(v, x) && Unresolved(s, x);
      RunHeldUp(s, more, h, x);
    } else if NeededThroughout(s, more, c) {
      RunDefers(s, more, h, c);
      RunMode(s, more, h);
    }
  }

  lemma {:induction false} RunMode(s: State, acts: seq<Action>, h: nat)
    requires h < |s.threads|
    ensures h < |Run(s, acts).threads| && Run(s, acts).threads[h].mode == s.threads[h].mode
    decreases |acts|
  {
    if acts != [] { RunMode(Step(s, acts[0]), acts[1..], h); }
  }
}
