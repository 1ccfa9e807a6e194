/**
 The invariant behind exclusion: a claim someone needs has its record exactly if its own rename did
 not put a staging directory without one in place, and of an exclusive claim with its record and a
 shared claim, both needed, one side still heeds the other. Every step of every run keeps it.
 */
module ClaimSafety {
  import opened Options
  import opened ClaimModel
  import opened ClaimBase

  /** The inspection has not yet listed the directory of mode `m`. */
  ghost predicate Unlisted(at: At, m: Mode) {
    at.AtRoot? || at == AtList(Exclusive)
    || (m == Shared && (at == AtList(Shared) || (Reading(at) && at.d == Exclusive)))
  }

  ghost predicate Checking(at: At, c: Id) {
    (at.AtOwner? || at.AtChild? || at.AtGroup?) && at.c == c
  }

  /** The inspection has `c` still to list or check, or counts it as held. */
  ghost predicate Minds(s: State, v: Survey, c: Id)
    requires Known(s, c)
  {
    Unlisted(v.at, ModeOf(s, c)) || c in v.todo || c in v.live || Checking(v.at, c)
  }

  /** A thread at this point has still to decide, and cannot decide without counting `c` as held. */
  ghost predicate Heeds(s: State, pc: PC, c: Id)
    requires Known(s, c)
  {
    pc.Pending? || (pc.Inspect? && Minds(s, pc.survey, c))
  }

  /** A published claim that is needed has its record, exactly if it did not land hollow. */
  ghost predicate Backed(s: State, t: nat)
    requires t < |s.threads|
  {
    Needed(s, Cur(s, t)) ==> (OnRecord(s, Cur(s, t)) <==> Cur(s, t) !in s.hollow)
  }

  /**
   Of an exclusive claim that did not land hollow and a shared claim, both published and needed, one
   side still heeds the other.
   */
  ghost predicate PairOk(s: State, e: nat, h: nat)
    requires e < |s.threads| && h < |s.threads|
  {
    && s.threads[e].mode == Exclusive && s.threads[h].mode == Shared
    && Needed(s, Cur(s, e)) && Needed(s, Cur(s, h)) && Cur(s, e) !in s.hollow ==>
      Heeds(s, s.threads[e].pc, Cur(s, h)) || Heeds(s, s.threads[h].pc, Cur(s, e))
  }

  /** Only exclusive claims land hollow, and what did was issued. */
  ghost predicate HollowOk(s: State) {
    forall c <- s.hollow :: Issued(s, c) && ModeOf(s, c) == Exclusive
  }

  ghost predicate Inv(s: State) {
    && Base(s) && HollowOk(s)
    && (forall t: nat | t < |s.threads| :: Backed(s, t))
    && (forall e: nat, h: nat | e < |s.threads| && h < |s.threads| :: PairOk(s, e, h))
  }

  lemma NeededPresent(s: State, c: Id)
    requires Inv(s) && Needed(s, c)
    ensures OnRecord(s, c) <==> c !in s.hollow
    ensures ModeOf(s, c) == Shared ==> OnRecord(s, c)
  {
    assert Backed(s, c.t) && c == Cur(s, c.t);
  }

  // ---------------------------------------------------------------- no inspection forgets a needed claim

  ghost predicate Inspecting(s: State, t: nat, why: Why, v: Survey) {
    Moves(s, t) && s.threads[t].pc == Inspect(why, v)
  }

  /** A claim with its record that is not dead: whoever inspects counts it, or is refused. */
  ghost predicate Standing(s: State, c: Id) {
    OnRecord(s, c) && !Dead(s, c)
  }

  /** A claim with its record that someone needs. */
  ghost predicate Stands(s: State, c: Id) {
    Needed(s, c) && OnRecord(s, c)
  }

  lemma ReadMinds(s: State, t: nat, why: Why, v: Survey, ch: Choice, c: Id)
    requires Inspecting(s, t, why, v) && !Sweeping(v.at) && Standing(s, c) && Minds(s, v, c)
    ensures var pc := Read(s, why, v, ch);
            pc == Refused(why) || (pc.Inspect? && pc.why == why && Minds(s, pc.survey, c))
  {
    assert Local(s, t) && SurveyOk(s, v) && AtOk(s, v.at);
    if v.at.AtChild? && v.at.c == c {
      assert ChildOf(s, c) == if c in Children(s.fs, v.at.d) then Some(Children(s.fs, v.at.d)[c]) else None;
    }
  }

  /** While it sweeps, an inspection keeps what it counted, until it concludes with it. */
  lemma SweepMinds(s: State, t: nat, why: Why, v: Survey, ch: Choice, c: Id)
    requires Inspecting(s, t, why, v) && Sweeping(v.at) && Known(s, c) && Minds(s, v, c)
    ensures var pc := Sweep(s, t, why, v, ch).pc;
            || (pc.Inspect? && pc.why == why && Minds(s, pc.survey, c))
            || (v.at.AtTidyShared? && pc == Conclude(s, s.threads[t].mode, why, v.live)
                && c in OfMode(s, v.live, ModeOf(s, c)))
  {
    assert Local(s, t) && SurveyOk(s, v);
  }

  /** A published inspection that minds a claim of the other mode goes on minding it, waits, or gives up. */
  lemma InspectHeeds(s: State, t: nat, why: Why, v: Survey, ch: Choice, c: Id)
    requires Inspecting(s, t, why, v) && (why.Settling? || why.Resettling?)
    requires Standing(s, c) && ModeOf(s, c) != s.threads[t].mode && Minds(s, v, c)
    ensures var pc := StepSurvey(s, t, why, v, ch).pc; Published(pc) ==> Heeds(s, pc, c)
  {
    assert Local(s, t);
    if ch.Refuse? {
      assert StepSurvey(s, t, why, v, ch).pc == Refused(why);
    } else if Sweeping(v.at) {
      SweepMinds(s, t, why, v, ch, c);
    } else {
      ReadMinds(s, t, why, v, ch, c);
    }
  }

  lemma MoveHeeds(s: State, t: nat, ch: Choice, c: Id)
    requires Moves(s, t) && Known(s, c) && Published(s.threads[t].pc) && Heeds(s, s.threads[t].pc, c)
    requires Standing(s, c) && ModeOf(s, c) != s.threads[t].mode
    ensures var pc := StepThread(s, t, ch).pc; Published(pc) ==> Heeds(s, pc, c)
  {
    var pc := s.threads[t].pc;
    if pc.Inspect? { InspectHeeds(s, t, pc.why, pc.survey, ch, c); }
  }

  // ---------------------------------------------------------------- publication

  lemma FirstLookPublishesNothing(s: State, t: nat, why: Why, v: Survey, ch: Choice)
    requires t < |s.threads| && s.threads[t].pc == Inspect(why, v) && (why.First? || why.Last?)
    ensures !Published(StepSurvey(s, t, why, v, ch).pc)
  {
    ReadGoesOn(s, why, v, ch);
    SweepGoesOn(s, t, why, v, ch);
    assert !Published(Conclude(s, s.threads[t].mode, why, v.live)) && !Published(Refused(why));
  }

  /** A publication starts a settling inspection, and leaves a record exactly if it does not land hollow. */
  lemma PublishBacks(s: State, t: nat, ch: Choice)
    requires t < |s.threads| && Publishing(s.threads[t].pc) && Typed(s.threads[t])
    ensures var r, th := StepPublish(s, t, ch), s.threads[t];
            Published(r.pc) ==>
              && r.pc == Inspect(Settling, NewSurvey) && r.n == th.n
              && (LandsHollow(s, t, ch) <==> Cur(s, t) !in Claims(r.fs, th.mode))
  {
  }

  /** A thread that comes to be published by this step. */
  lemma NewlyPublished(s: State, t: nat, ch: Choice)
    requires Moves(s, t) && !Published(s.threads[t].pc) && Published(StepThread(s, t, ch).pc)
    ensures var r, th := StepThread(s, t, ch), s.threads[t];
            && r.pc == Inspect(Settling, NewSurvey) && r.n == th.n && !Issued(s, Cur(s, t))
            && (LandsHollow(s, t, ch) <==> Cur(s, t) !in Claims(r.fs, th.mode))
  {
    var pc := s.threads[t].pc;
    assert Local(s, t);
    MoveGoesOn(s, t, ch);
    if pc.Inspect? {
      FirstLookPublishesNothing(s, t, pc.why, pc.survey, ch);
    } else if Publishing(pc) {
      PublishBacks(s, t, ch);
    }
  }

  // ---------------------------------------------------------------- every step

  /** A claim needed after a step was needed before it, or its thread published it now. */
  lemma NeededBefore(s: State, a: Action, c: Id)
    requires Base(s) && Needed(Step(s, a), c)
    ensures Needed(s, c)
            || (a.Move? && a.t == c.t && Moves(s, a.t) && !Published(s.threads[a.t].pc)
                && Published(StepThread(s, a.t, a.choice).pc))
  {
    StepGrows(s, a);
    GrowsFacts(s, Step(s, a), c);
    if Known(s, c) { assert Advances(s.threads[c.t], Step(s, a).threads[c.t]); }
  }

  lemma StaysBacked(s: State, a: Action, c: Id)
    requires Inv(s) && Needed(s, c) && Needed(Step(s, a), c)
    ensures OnRecord(Step(s, a), c) <==> OnRecord(s, c)
    ensures c in Step(s, a).hollow <==> c in s.hollow
  {
    StepLoses(s, a, c, ModeOf(s, c));
    StepGrows(s, a);
    GrowsFacts(s, Step(s, a), c);
  }

  lemma StepBacked(s: State, a: Action, c: Id)
    requires Inv(s) && Needed(Step(s, a), c)
    ensures OnRecord(Step(s, a), c) <==> c !in Step(s, a).hollow
  {
    NeededBefore(s, a, c);
    if Needed(s, c) {
      NeededPresent(s, c);
      StaysBacked(s, a, c);
    } else {
      NewlyPublished(s, a.t, a.choice);
    }
  }

  /** A claim with its record keeps it for as long as it is needed. */
  lemma StandsOn(s: State, a: Action, c: Id)
    requires Base(s) && Stands(s, c)
    ensures Known(Step(s, a), c) && ModeOf(Step(s, a), c) == ModeOf(s, c)
    ensures Needed(Step(s, a), c) ==> Stands(Step(s, a), c)
  {
    StepLoses(s, a, c, ModeOf(s, c));
    StepGrows(s, a);
    GrowsFacts(s, Step(s, a), c);
  }

  /** A side that heeds a claim of the other mode before a step, and is still published, heeds it after. */
  lemma StepHeeds(s: State, a: Action, u: nat, c: Id)
    requires Base(s) && u < |s.threads| && Standing(s, c) && ModeOf(s, c) != s.threads[u].mode
    requires Published(s.threads[u].pc) && Heeds(s, s.threads[u].pc, c) && Published(Step(s, a).threads[u].pc)
    ensures Known(Step(s, a), c) && Heeds(Step(s, a), Step(s, a).threads[u].pc, c)
  {
    StepGrows(s, a);
    GrowsFacts(s, Step(s, a), c);
    if a.Move? && a.t == u && s.threads[u].proc !in s.gone { MoveHeeds(s, u, a.choice, c); }
  }

  lemma StepPair(s: State, a: Action, e: nat, h: nat)
    requires Inv(s) && e < |Step(s, a).threads| && h < |Step(s, a).threads|
    ensures PairOk(Step(s, a), e, h)
  {
    var s' := Step(s, a);
    var c, d := Cur(s', e), Cur(s', h);
    if s'.threads[e].mode == Exclusive && s'.threads[h].mode == Shared && Needed(s', c) && Needed(s', d)
       && c !in s'.hollow {
      NeededBefore(s, a, c);
      NeededBefore(s, a, d);
      if Needed(s, c) && Needed(s, d) {
        assert PairOk(s, e, h);
        NeededPresent(s, c);
        NeededPresent(s, d);
        StepGrows(s, a);
        GrowsFacts(s, s', c);
        GrowsFacts(s, s', d);
        if Heeds(s, s.threads[e].pc, d) { StepHeeds(s, a, e, d); } else { StepHeeds(s, a, h, c); }
      } else {
        NewlyPublished(s, a.t, a.choice);
      }
    }
  }

  lemma StepHollowOk(s: State, a: Action)
    requires Inv(s)
    ensures HollowOk(Step(s, a))
  {
    var s' := Step(s, a);
    StepGrows(s, a);
    forall c | c in s'.hollow ensures Issued(s', c) && ModeOf(s', c) == Exclusive {
      if c in s.hollow {
        GrowsFacts(s, s', c);
      } else {
        assert Local(s, a.t);
      }
    }
  }

  /** Every action of every thread and every death keeps the invariant, in every state: there is no exception. */
  lemma StepKeeps(s: State, a: Action)
    requires Inv(s)
    ensures Inv(Step(s, a))
  {
    var s' := Step(s, a);
    BaseKeeps(s, a);
    StepHollowOk(s, a);
    forall t: nat | t < |s'.threads| ensures Backed(s', t) {
      if Needed(s', Cur(s', t)) { StepBacked(s, a, Cur(s', t)); }
    }
    forall e: nat, h: nat | e < |s'.threads| && h < |s'.threads| ensures PairOk(s', e, h) {
      StepPair(s, a, e, h);
    }
  }

  /** A rename that lands hollow leaves a live thread with a published claim that has no record. */
  lemma HollowUnbacked(s: State, t: nat, ch: Choice)
    requires t < |s.threads| && s.threads[t].proc !in s.gone && s.threads[t].mode == Exclusive && LandsHollow(s, t, ch)
    ensures var s' := Step(s, Move(t, ch)); Needed(s', Cur(s', t)) && !OnRecord(s', Cur(s', t))
  {
  }
}
