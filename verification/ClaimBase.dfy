/**
 What every step of every run keeps, with no exception: the entries on disk belong to issued claims,
 running inspections know only what is so, and nobody removes what a claim with a record may need.
 */
module ClaimBase {
  import opened Options
  import opened ClaimModel

  /** The thread's current claim is published and its handle has not begun to be released. */
  ghost predicate Published(pc: PC) {
    (pc.Inspect? && (pc.why.Settling? || pc.why.Resettling?)) || pc.Pending? || InUse(pc)
  }

  /** The thread's call returned `acquired` and the handle is still held. */
  ghost predicate InUse(pc: PC) {
    pc.Acquired? || pc.Rewriting? || pc.ClearList? || pc.Clearing? || pc.ClearUnlinked?
  }

  ghost predicate Ended(pc: PC) {
    pc.Release? || pc.Done?
  }

  ghost predicate Known(s: State, c: Id) {
    c.t < |s.threads|
  }

  /** `c` is the published claim of its thread. */
  ghost predicate Current(s: State, c: Id) {
    Known(s, c) && c.n == s.threads[c.t].n && Published(s.threads[c.t].pc)
  }

  /** `c` is given up for good: its thread is releasing it, is done, or has moved on to a later id. */
  ghost predicate Over(s: State, c: Id) {
    Known(s, c) && (c.n < s.threads[c.t].n || (c.n == s.threads[c.t].n && Ended(s.threads[c.t].pc)))
  }

  ghost predicate Issued(s: State, c: Id) {
    Current(s, c) || Over(s, c)
  }

  ghost predicate OnRecord(s: State, c: Id) {
    Known(s, c) && c in Claims(s.fs, ModeOf(s, c))
  }

  ghost function ChildOf(s: State, c: Id): Option<Child>
    requires Known(s, c)
  {
    if c in Children(s.fs, ModeOf(s, c)) then Some(Children(s.fs, ModeOf(s, c))[c]) else None
  }

  ghost predicate OwnerGone(s: State, c: Id) {
    Known(s, c) && s.threads[c.t].proc in s.gone
  }

  /** Nobody needs `c`: its owner is gone, no child is declared without a record, and a recorded child is gone. */
  ghost predicate Dead(s: State, c: Id) {
    OwnerGone(s, c) &&
    match ChildOf(s, c)
    case None => true
    case Some(Declared) => false
    case Some(Recorded(k)) => k in s.gone
  }

  ghost predicate Needed(s: State, c: Id) {
    Current(s, c) && !Dead(s, c)
  }

  // ---------------------------------------------------------------- the invariant

  ghost predicate AtOk(s: State, at: At) {
    match at
    case AtOwner(d, c) => Issued(s, c) && ModeOf(s, c) == d
    case AtChild(d, c) => Issued(s, c) && ModeOf(s, c) == d && OwnerGone(s, c)
    case AtGroup(d, c, k) =>
      Issued(s, c) && ModeOf(s, c) == d && OwnerGone(s, c) && (ChildOf(s, c) == Some(Recorded(k)) || Dead(s, c))
    case AtUnlinkChild(c) => Issued(s, c) && Dead(s, c)
    case AtUnlinkClaim(c) => Issued(s, c) && Dead(s, c)
    case _ => true
  }

  ghost predicate Reading(at: At) {
    at.AtNext? || at.AtOwner? || at.AtChild? || at.AtGroup?
  }

  /** What a running inspection knows. */
  ghost predicate SurveyOk(s: State, v: Survey) {
    && (forall c <- v.todo :: Issued(s, c) && Reading(v.at) && ModeOf(s, c) == v.at.d)
    && (forall c <- v.live :: Issued(s, c))
    && (forall c <- v.dead :: Issued(s, c) && Dead(s, c))
    && (forall c <- v.orphans :: Issued(s, c) && !OnRecord(s, c))
    && AtOk(s, v.at)
  }

  ghost predicate DirOk(s: State, m: Mode) {
    && (forall c <- Claims(s.fs, m) :: Issued(s, c) && ModeOf(s, c) == m)
    && (forall c <- Children(s.fs, m).Keys :: Issued(s, c) && ModeOf(s, c) == m)
  }

  ghost predicate Rooted(f: Fs) {
    f.excl.Present? || f.shar.Present? || f.staging != map[] ==> f.root
  }

  ghost predicate OneExclusive(f: Fs) {
    forall c, d :: c in Claims(f, Exclusive) && d in Claims(f, Exclusive) ==> c == d
  }

  /** Which program counters a thread may have. */
  ghost predicate Typed(th: Thread) {
    && (th.clear || th.pc.StageDir? || th.pc.StageRecord? || th.pc.RenameDir? ==> th.mode == Exclusive)
    && (th.pc.MakeShared? || th.pc.StageFile? || th.pc.RenameFile? ==> th.mode == Shared)
    && (th.pc.ClearList? || th.pc.Clearing? || th.pc.ClearUnlinked? ==> th.clear)
    && (th.pc.Pending? || (th.pc.Inspect? && th.pc.why.Resettling?) ==> th.mode == Exclusive)
  }

  ghost predicate Local(s: State, t: nat)
    requires t < |s.threads|
  {
    var th := s.threads[t];
    && Typed(th)
    && (th.pc.Inspect? ==> SurveyOk(s, th.pc.survey))
    && (th.pc.Rewriting? && th.proc !in s.gone ==> Cur(s, t) in Claims(s.fs, th.mode))
  }

  ghost predicate Base(s: State) {
    && DirOk(s, Exclusive) && DirOk(s, Shared) && Rooted(s.fs) && OneExclusive(s.fs)
    && forall t: nat | t < |s.threads| :: Local(s, t)
  }

  // ---------------------------------------------------------------- what only grows

  /** A thread keeps its process, mode and purpose, and what it has issued stays issued. */
  ghost predicate Advances(o: Thread, n: Thread) {
    && n.proc == o.proc && n.mode == o.mode && n.clear == o.clear && o.n <= n.n
    && (Ended(o.pc) ==> n.n == o.n && Ended(n.pc))
    && (Published(o.pc) ==> n.n == o.n && (Published(n.pc) || Ended(n.pc)))
  }

  ghost predicate Grows(s: State, s': State) {
    && |s.threads| <= |s'.threads| && s.gone <= s'.gone
    && (forall u: nat | u < |s.threads| :: Advances(s.threads[u], s'.threads[u]))
    && (forall c | Issued(s, c) && OnRecord(s', c) :: OnRecord(s, c))
    && (forall c | OwnerGone(s, c) :: ChildOf(s', c) == ChildOf(s, c) || ChildOf(s', c).None?)
  }

  lemma GrowsFacts(s: State, s': State, c: Id)
    requires Grows(s, s')
    ensures Issued(s, c) ==> Issued(s', c) && ModeOf(s', c) == ModeOf(s, c)
    ensures Over(s, c) ==> Over(s', c)
    ensures OwnerGone(s, c) ==> OwnerGone(s', c)
    ensures Dead(s, c) ==> Dead(s', c)
  {
    if Known(s, c) { assert Advances(s.threads[c.t], s'.threads[c.t]); }
  }

  lemma GrowsAt(s: State, s': State, at: At)
    requires Grows(s, s') && AtOk(s, at)
    ensures AtOk(s', at)
  {
    if at.AtOwner? || at.AtChild? || at.AtGroup? || at.AtUnlinkChild? || at.AtUnlinkClaim? { GrowsFacts(s, s', at.c); }
  }

  /** What an inspection knows stays so, whatever the others do. */
  lemma GrowsSurvey(s: State, s': State, v: Survey)
    requires Grows(s, s') && SurveyOk(s, v)
    ensures SurveyOk(s', v)
  {
    GrowsAt(s, s', v.at);
    forall c | c in v.todo + v.live + v.dead + v.orphans
      ensures Issued(s', c) && ModeOf(s', c) == ModeOf(s, c) && (Dead(s, c) ==> Dead(s', c))
    {
      GrowsFacts(s, s', c);
    }
  }

  // ---------------------------------------------------------------- what single calls do to the entries

  lemma TidyEntries(f: Fs, d: Mode, m: Mode)
    ensures Claims(Tidy(f, d), m) == Claims(f, m) && Children(Tidy(f, d), m) == Children(f, m)
    ensures Claims(TidyRoot(f), m) == Claims(f, m) && Children(TidyRoot(f), m) == Children(f, m)
  {
  }

  lemma UnlinkEntries(f: Fs, d: Mode, x: Id, m: Mode)
    ensures Claims(UnlinkChild(f, d, x), m) == Claims(f, m)
    ensures Children(UnlinkChild(f, d, x), m) == if d == m then Children(f, m) - {x} else Children(f, m)
    ensures Claims(UnlinkClaim(f, d, x), m) == if d == m then Claims(f, m) - {x} else Claims(f, m)
    ensures Children(UnlinkClaim(f, d, x), m) == Children(f, m)
  {
  }

  /** A record that was there is gone. */
  predicate LosesClaim(f: Fs, f': Fs, c: Id, m: Mode) {
    c in Claims(f, m) && c !in Claims(f', m)
  }

  /** A child record that was there is gone or changed. */
  predicate LosesChild(f: Fs, f': Fs, c: Id, m: Mode) {
    c in Children(f, m) && (c !in Children(f', m) || Children(f', m)[c] != Children(f, m)[c])
  }

  predicate GainsClaim(f: Fs, f': Fs, c: Id, m: Mode) {
    c in Claims(f', m) && c !in Claims(f, m)
  }

  predicate GainsChild(f: Fs, f': Fs, c: Id, m: Mode) {
    c in Children(f', m) && (c !in Children(f, m) || Children(f', m)[c] != Children(f, m)[c])
  }

  predicate Same(f: Fs, f': Fs, c: Id, m: Mode) {
    !LosesClaim(f, f', c, m) && !LosesChild(f, f', c, m) && !GainsClaim(f, f', c, m) && !GainsChild(f, f', c, m)
  }

  lemma TidySame(f: Fs, d: Mode, c: Id, m: Mode)
    ensures Same(f, Tidy(f, d), c, m) && Same(f, TidyRoot(f), c, m)
  {
    TidyEntries(f, d, m);
  }

  lemma UnlinkLoses(f: Fs, d: Mode, x: Id, c: Id, m: Mode)
    ensures !LosesClaim(f, UnlinkChild(f, d, x), c, m) && !LosesChild(f, UnlinkClaim(f, d, x), c, m)
    ensures !GainsClaim(f, UnlinkChild(f, d, x), c, m) && !GainsChild(f, UnlinkChild(f, d, x), c, m)
    ensures !GainsClaim(f, UnlinkClaim(f, d, x), c, m) && !GainsChild(f, UnlinkClaim(f, d, x), c, m)
    ensures LosesChild(f, UnlinkChild(f, d, x), c, m) || LosesClaim(f, UnlinkClaim(f, d, x), c, m) ==> c == x
  {
    UnlinkEntries(f, d, x, m);
  }

  // ---------------------------------------------------------------- what one call of each kind changes

  /** The only things an inspection call does to the store. */
  lemma SurveyFs(s: State, t: nat, why: Why, v: Survey, ch: Choice)
    requires t < |s.threads|
    ensures var f, f' := s.fs, StepSurvey(s, t, why, v, ch).fs;
            || f' == f || f' == Tidy(f, Exclusive) || f' == Tidy(f, Shared)
            || (ch.Take? && ch.c in v.orphans && Known(s, ch.c) && f' == UnlinkChild(f, ModeOf(s, ch.c), ch.c))
            || (v.at.AtUnlinkChild? && Known(s, v.at.c) && f' == UnlinkChild(f, ModeOf(s, v.at.c), v.at.c))
            || (v.at.AtUnlinkClaim? && Known(s, v.at.c) && f' == UnlinkClaim(f, ModeOf(s, v.at.c), v.at.c))
  {
  }

  lemma SurveyChanges(s: State, t: nat, why: Why, v: Survey, ch: Choice, c: Id, m: Mode)
    requires t < |s.threads|
    ensures var f' := StepSurvey(s, t, why, v, ch).fs;
            && !GainsClaim(s.fs, f', c, m) && !GainsChild(s.fs, f', c, m)
            && (LosesClaim(s.fs, f', c, m) ==> v.at == AtUnlinkClaim(c))
            && (LosesChild(s.fs, f', c, m) ==> v.at == AtUnlinkChild(c) || c in v.orphans)
  {
    SurveyFs(s, t, why, v, ch);
    TidySame(s.fs, Exclusive, c, m);
    TidySame(s.fs, Shared, c, m);
    if ch.Take? && Known(s, ch.c) { UnlinkLoses(s.fs, ModeOf(s, ch.c), ch.c, c, m); }
    if (v.at.AtUnlinkChild? || v.at.AtUnlinkClaim?) && Known(s, v.at.c) {
      UnlinkLoses(s.fs, ModeOf(s, v.at.c), v.at.c, c, m);
    }
  }

  ghost predicate Publishing(pc: PC) {
    pc.MakeRoot? || pc.StageDir? || pc.StageRecord? || pc.RenameDir? || pc.MakeShared? || pc.StageFile?
    || pc.RenameFile? || pc.Unstage?
  }

  /** The two renames that publish. */
  ghost predicate Renaming(pc: PC) {
    pc.RenameDir? || pc.RenameFile?
  }

  lemma PublishChanges(s: State, t: nat, ch: Choice, c: Id, m: Mode)
    requires t < |s.threads| && Publishing(s.threads[t].pc) && Typed(s.threads[t])
    ensures var f', th := StepPublish(s, t, ch).fs, s.threads[t];
            && !LosesClaim(s.fs, f', c, m) && !LosesChild(s.fs, f', c, m) && !GainsChild(s.fs, f', c, m)
            && (GainsClaim(s.fs, f', c, m) ==>
                  c == Cur(s, t) && m == th.mode && Renaming(th.pc) && Published(StepPublish(s, t, ch).pc))
            && (GainsClaim(s.fs, f', c, m) && m == Exclusive ==> Claims(f', m) == {c})
  {
  }

  lemma HoldChanges(s: State, t: nat, ch: Choice, c: Id, m: Mode)
    requires t < |s.threads| && (s.threads[t].pc.Pending? || InUse(s.threads[t].pc))
    ensures var f', th := StepHold(s, t, ch).fs, s.threads[t];
            && !LosesClaim(s.fs, f', c, m)
            && (LosesChild(s.fs, f', c, m) || GainsChild(s.fs, f', c, m) || GainsClaim(s.fs, f', c, m) ==>
                  c == Cur(s, t) && m == th.mode)
            && (GainsClaim(s.fs, f', c, m) ==> th.pc.Rewriting?)
  {
  }

  lemma ReleaseChanges(s: State, t: nat, at: ReleaseAt, out: Outcome, ch: Choice, c: Id, m: Mode)
    requires t < |s.threads|
    ensures var f' := StepRelease(s, t, at, out, ch).fs;
            && !GainsClaim(s.fs, f', c, m) && !GainsChild(s.fs, f', c, m)
            && (LosesClaim(s.fs, f', c, m) || LosesChild(s.fs, f', c, m) ==> c == Cur(s, t))
  {
    TidySame(s.fs, s.threads[t].mode, c, m);
    TidySame(s.fs, Exclusive, c, m);
    TidySame(s.fs, Shared, c, m);
    UnlinkLoses(s.fs, s.threads[t].mode, Cur(s, t), c, m);
  }

  /** Thread `t` is alive, so its next call happens. */
  ghost predicate Moves(s: State, t: nat) {
    Base(s) && t < |s.threads| && s.threads[t].proc !in s.gone
  }

  /** What one call of a live thread may add. */
  lemma MoveGains(s: State, t: nat, ch: Choice, c: Id, m: Mode)
    requires Moves(s, t)
    ensures var f', th := StepThread(s, t, ch).fs, s.threads[t];
            && (GainsClaim(s.fs, f', c, m) ==>
                  c == Cur(s, t) && m == th.mode && Renaming(th.pc) && Published(StepThread(s, t, ch).pc))
            && (GainsClaim(s.fs, f', c, m) && m == Exclusive ==> Claims(f', m) == {c})
            && (GainsChild(s.fs, f', c, m) ==> c == Cur(s, t) && m == th.mode && Published(th.pc))
  {
    var pc := s.threads[t].pc;
    assert Local(s, t);
    if pc.Inspect? {
      SurveyChanges(s, t, pc.why, pc.survey, ch, c, m);
    } else if pc.Release? {
      ReleaseChanges(s, t, pc.rel, pc.out, ch, c, m);
    } else if Publishing(pc) {
      PublishChanges(s, t, ch, c, m);
    } else if !pc.Done? {
      HoldChanges(s, t, ch, c, m);
    }
  }

  /** The live thread of claim `c` itself takes the step. */
  ghost predicate OwnStep(s: State, a: Action, c: Id) {
    a.Move? && a.t == c.t && Known(s, c) && s.threads[c.t].proc !in s.gone
  }

  /** What one call of a live thread may take away. */
  lemma MoveLoses(s: State, t: nat, ch: Choice, c: Id, m: Mode)
    requires Moves(s, t)
    ensures var f' := StepThread(s, t, ch).fs;
            && (LosesClaim(s.fs, f', c, m) ==> Dead(s, c) || (c == Cur(s, t) && Over(s, c)))
            && (LosesChild(s.fs, f', c, m) ==> Dead(s, c) || c == Cur(s, t) || (Issued(s, c) && !OnRecord(s, c)))
  {
    var pc := s.threads[t].pc;
    assert Local(s, t);
    if pc.Inspect? {
      SurveyChanges(s, t, pc.why, pc.survey, ch, c, m);
    } else if pc.Release? {
      ReleaseChanges(s, t, pc.rel, pc.out, ch, c, m);
    } else if Publishing(pc) {
      PublishChanges(s, t, ch, c, m);
    } else if !pc.Done? {
      HoldChanges(s, t, ch, c, m);
    }
  }

  // ---------------------------------------------------------------- every step grows

  /**
   How a thread may go on: what it issued stays so, its new program counter suits it, and new
   inspections start afresh.
   */
  ghost predicate GoesOn(o: Thread, n: Thread) {
    && Advances(o, n) && (Typed(o) ==> Typed(n))
    && (n.pc.Inspect? && !o.pc.Inspect? ==> n.pc.survey == NewSurvey)
    && (n.pc.Rewriting? ==> o.pc.Acquired?)
  }

  lemma ReadGoesOn(s: State, why: Why, v: Survey, ch: Choice)
    ensures var pc := Read(s, why, v, ch); pc == Refused(why) || (pc.Inspect? && pc.why == why)
  {
  }

  lemma SweepGoesOn(s: State, t: nat, why: Why, v: Survey, ch: Choice)
    requires t < |s.threads| && s.threads[t].pc == Inspect(why, v)
    ensures var r := Sweep(s, t, why, v, ch);
            && r.n == s.threads[t].n
            && (r.pc == Conclude(s, s.threads[t].mode, why, v.live) || (r.pc.Inspect? && r.pc.why == why))
  {
  }

  lemma InspectGoesOn(th: Thread, why: Why, v: Survey, pc: PC)
    requires th.pc == Inspect(why, v)
    requires pc == Refused(why) || (pc.Inspect? && pc.why == why)
             || exists s: State, live :: pc == Conclude(s, th.mode, why, live)
    ensures GoesOn(th, th.(pc := pc))
  {
  }

  lemma SurveyGoesOn(s: State, t: nat, why: Why, v: Survey, ch: Choice)
    requires t < |s.threads| && s.threads[t].pc == Inspect(why, v)
    ensures var th, r := s.threads[t], StepSurvey(s, t, why, v, ch);
            r.n == th.n && GoesOn(th, th.(n := r.n, pc := r.pc))
  {
    ReadGoesOn(s, why, v, ch);
    SweepGoesOn(s, t, why, v, ch);
    InspectGoesOn(s.threads[t], why, v, StepSurvey(s, t, why, v, ch).pc);
  }

  lemma PublishGoesOn(s: State, t: nat, ch: Choice)
    requires t < |s.threads| && Publishing(s.threads[t].pc)
    ensures var th, r := s.threads[t], StepPublish(s, t, ch); GoesOn(th, th.(n := r.n, pc := r.pc))
  {
  }

  lemma HoldGoesOn(s: State, t: nat, ch: Choice)
    requires t < |s.threads| && (s.threads[t].pc.Pending? || InUse(s.threads[t].pc))
    ensures var th, r := s.threads[t], StepHold(s, t, ch); GoesOn(th, th.(n := r.n, pc := r.pc))
  {
  }

  lemma ReleaseGoesOn(s: State, t: nat, at: ReleaseAt, out: Outcome, ch: Choice)
    requires t < |s.threads| && s.threads[t].pc == Release(at, out)
    ensures var th, r := s.threads[t], StepRelease(s, t, at, out, ch); GoesOn(th, th.(n := r.n, pc := r.pc))
  {
  }

  lemma MoveGoesOn(s: State, t: nat, ch: Choice)
    requires t < |s.threads|
    ensures var th, r := s.threads[t], StepThread(s, t, ch); GoesOn(th, th.(n := r.n, pc := r.pc))
  {
    var pc := s.threads[t].pc;
    if pc.Inspect? {
      SurveyGoesOn(s, t, pc.why, pc.survey, ch);
    } else if pc.Release? {
      ReleaseGoesOn(s, t, pc.rel, pc.out, ch);
    } else if Publishing(pc) {
      PublishGoesOn(s, t, ch);
    } else if !pc.Done? {
      HoldGoesOn(s, t, ch);
    }
  }

  lemma MoveGrows(s: State, t: nat, ch: Choice)
    requires Moves(s, t)
    ensures Grows(s, Step(s, Move(t, ch)))
  {
    var s' := Step(s, Move(t, ch));
    MoveGoesOn(s, t, ch);
    forall c | Issued(s, c) && OnRecord(s', c) ensures OnRecord(s, c) {
      MoveGains(s, t, ch, c, ModeOf(s, c));
    }
    forall c | OwnerGone(s, c) ensures ChildOf(s', c) == ChildOf(s, c) || ChildOf(s', c).None? {
      MoveGains(s, t, ch, c, ModeOf(s, c));
    }
  }

  lemma StepGrows(s: State, a: Action)
    requires Base(s)
    ensures Grows(s, Step(s, a))
  {
    if a.Move? && a.t < |s.threads| && s.threads[a.t].proc !in s.gone { MoveGrows(s, a.t, a.choice); }
  }

  // ---------------------------------------------------------------- every step keeps it

  lemma MoveDirOk(s: State, t: nat, ch: Choice, m: Mode)
    requires Moves(s, t)
    ensures DirOk(Step(s, Move(t, ch)), m)
  {
    var s' := Step(s, Move(t, ch));
    MoveGrows(s, t, ch);
    assert DirOk(s, m);
    forall c | c in Claims(s'.fs, m) ensures Issued(s', c) && ModeOf(s', c) == m {
      MoveGains(s, t, ch, c, m);
      GrowsFacts(s, s', c);
    }
    forall c | c in Children(s'.fs, m) ensures Issued(s', c) && ModeOf(s', c) == m {
      MoveGains(s, t, ch, c, m);
      GrowsFacts(s, s', c);
    }
  }

  lemma PublishRooted(s: State, t: nat, ch: Choice)
    requires t < |s.threads| && Rooted(s.fs)
    ensures Rooted(StepPublish(s, t, ch).fs)
  {
  }

  lemma HoldRooted(s: State, t: nat, ch: Choice)
    requires t < |s.threads| && Rooted(s.fs)
    ensures Rooted(StepHold(s, t, ch).fs)
  {
  }

  lemma SurveyRooted(s: State, t: nat, why: Why, v: Survey, ch: Choice)
    requires t < |s.threads| && Rooted(s.fs)
    ensures Rooted(StepSurvey(s, t, why, v, ch).fs)
  {
    SurveyFs(s, t, why, v, ch);
  }

  lemma ReleaseRooted(s: State, t: nat, at: ReleaseAt, out: Outcome, ch: Choice)
    requires t < |s.threads| && Rooted(s.fs)
    ensures Rooted(StepRelease(s, t, at, out, ch).fs)
  {
  }

  lemma MoveRooted(s: State, t: nat, ch: Choice)
    requires t < |s.threads| && Rooted(s.fs)
    ensures Rooted(StepThread(s, t, ch).fs)
  {
    var pc := s.threads[t].pc;
    if pc.Inspect? {
      SurveyRooted(s, t, pc.why, pc.survey, ch);
    } else if pc.Release? {
      ReleaseRooted(s, t, pc.rel, pc.out, ch);
    } else if Publishing(pc) {
      PublishRooted(s, t, ch);
    } else {
      HoldRooted(s, t, ch);
    }
  }

  lemma MoveOneExclusive(s: State, t: nat, ch: Choice)
    requires Moves(s, t)
    ensures OneExclusive(StepThread(s, t, ch).fs)
  {
    var f' := StepThread(s, t, ch).fs;
    forall c, d | c in Claims(f', Exclusive) && d in Claims(f', Exclusive) ensures c == d {
      MoveGains(s, t, ch, c, Exclusive);
      MoveGains(s, t, ch, d, Exclusive);
    }
  }

  lemma ListOk(s: State, why: Why, v: Survey, ch: Choice)
    requires Base(s) && SurveyOk(s, v) && v.at.AtList?
    ensures var pc := Read(s, why, v, ch); pc.Inspect? ==> SurveyOk(s, pc.survey)
  {
    assert DirOk(s, Exclusive) && DirOk(s, Shared);
    assert Read(s, why, v, ch).survey.at == AtNext(v.at.d);
  }

  lemma JudgeOk(s: State, why: Why, v: Survey, ch: Choice)
    requires SurveyOk(s, v) && (v.at.AtOwner? || v.at.AtChild? || v.at.AtGroup?)
    ensures var pc := Read(s, why, v, ch); pc.Inspect? ==> SurveyOk(s, pc.survey)
  {
    assert AtOk(s, v.at);
  }

  /** A reading call learns only what is so. */
  lemma ReadOk(s: State, why: Why, v: Survey, ch: Choice)
    requires Base(s) && SurveyOk(s, v)
    ensures var pc := Read(s, why, v, ch); pc.Inspect? ==> SurveyOk(s, pc.survey)
  {
    if v.at.AtList? {
      ListOk(s, why, v, ch);
    } else if v.at.AtOwner? || v.at.AtChild? || v.at.AtGroup? {
      JudgeOk(s, why, v, ch);
    }
  }

  lemma SweepOk(s: State, t: nat, why: Why, v: Survey, ch: Choice)
    requires t < |s.threads| && s.threads[t].pc == Inspect(why, v) && SurveyOk(s, v)
    ensures var pc := Sweep(s, t, why, v, ch).pc; pc.Inspect? ==> SurveyOk(s, pc.survey)
  {
    assert AtOk(s, v.at);
  }

  lemma InspectLocal(s: State, t: nat, why: Why, v: Survey, ch: Choice)
    requires Moves(s, t) && s.threads[t].pc == Inspect(why, v)
    ensures var pc := StepSurvey(s, t, why, v, ch).pc; pc.Inspect? ==> SurveyOk(s, pc.survey)
  {
    assert Local(s, t);
    ReadOk(s, why, v, ch);
    SweepOk(s, t, why, v, ch);
  }

  lemma RewriteLocal(s: State, t: nat, ch: Choice)
    requires Moves(s, t) && s.threads[t].pc.Acquired? && StepHold(s, t, ch).pc.Rewriting?
    ensures StepHold(s, t, ch).fs == s.fs && Cur(s, t) in Claims(s.fs, s.threads[t].mode)
            && StepHold(s, t, ch).n == s.threads[t].n
  {
  }

  lemma MoveLocal(s: State, t: nat, ch: Choice)
    requires Moves(s, t)
    ensures Local(Step(s, Move(t, ch)), t)
  {
    var s', pc, r := Step(s, Move(t, ch)), s.threads[t].pc, StepThread(s, t, ch);
    assert Local(s, t);
    MoveGoesOn(s, t, ch);
    if r.pc.Inspect? {
      MoveGrows(s, t, ch);
      if pc.Inspect? { InspectLocal(s, t, pc.why, pc.survey, ch); }
      GrowsSurvey(s, s', r.pc.survey);
    }
    if r.pc.Rewriting? { RewriteLocal(s, t, ch); }
  }

  lemma OtherLocal(s: State, t: nat, ch: Choice, u: nat)
    requires Moves(s, t) && u < |s.threads| && u != t
    ensures Local(Step(s, Move(t, ch)), u)
  {
    var s', th := Step(s, Move(t, ch)), s.threads[u];
    assert Local(s, u);
    if th.pc.Inspect? {
      MoveGrows(s, t, ch);
      GrowsSurvey(s, s', th.pc.survey);
    }
    if th.pc.Rewriting? && th.proc !in s.gone { MoveLoses(s, t, ch, Cur(s, u), th.mode); }
  }

  lemma MoveBase(s: State, t: nat, ch: Choice)
    requires Moves(s, t)
    ensures Base(Step(s, Move(t, ch)))
  {
    var s' := Step(s, Move(t, ch));
    MoveDirOk(s, t, ch, Exclusive);
    MoveDirOk(s, t, ch, Shared);
    MoveRooted(s, t, ch);
    MoveOneExclusive(s, t, ch);
    forall u: nat | u < |s'.threads| ensures Local(s', u) {
      if u == t { MoveLocal(s, t, ch); } else { OtherLocal(s, t, ch, u); }
    }
  }

  /** A spawn or a death changes no entry and no program counter. */
  lemma QuietBase(s: State, a: Action)
    requires Base(s) && !a.Move?
    ensures Base(Step(s, a))
  {
    var s' := Step(s, a);
    StepGrows(s, a);
    assert DirOk(s, Exclusive) && DirOk(s, Shared);
    forall c: Id ensures Issued(s, c) ==> Issued(s', c) && ModeOf(s', c) == ModeOf(s, c) { GrowsFacts(s, s', c); }
    forall u: nat | u < |s'.threads| ensures Local(s', u) {
      if u < |s.threads| {
        assert Local(s, u);
        if s.threads[u].pc.Inspect? { GrowsSurvey(s, s', s.threads[u].pc.survey); }
      }
    }
  }

  /** Every action keeps it, in every state: there is no exception. */
  lemma BaseKeeps(s: State, a: Action)
    requires Base(s)
    ensures Base(Step(s, a))
  {
    if !a.Move? {
      QuietBase(s, a);
    } else if a.t < |s.threads| && s.threads[a.t].proc !in s.gone {
      MoveBase(s, a.t, a.choice);
    }
  }

  /**
   What any action may take away: a record only if its claim is dead, or by its own live thread when
   it is over; the child record of a claim with a record only if it is dead, or by its own live thread.
   */
  lemma StepLoses(s: State, a: Action, c: Id, m: Mode)
    requires Base(s)
    ensures LosesClaim(s.fs, Step(s, a).fs, c, m) ==> Dead(s, c) || (OwnStep(s, a, c) && Over(s, c))
    ensures LosesChild(s.fs, Step(s, a).fs, c, m) ==>
              Dead(s, c) || OwnStep(s, a, c) || (Issued(s, c) && !OnRecord(s, c))
  {
    if a.Move? && a.t < |s.threads| && s.threads[a.t].proc !in s.gone { MoveLoses(s, a.t, a.choice, c, m); }
  }
}
