/**
 What the claim protocol guarantees over whole runs: exclusion, who may be reaped, and how an
 exclusive claim holds off the shared ones that come after it.
 */
module ClaimRuns {
  import opened Options
  import opened ClaimModel
  import opened ClaimBase
  import opened ClaimSafety

  lemma {:induction false} RunAppend(s: State, a: seq<Action>, b: seq<Action>)
    ensures Run(s, a + b) == Run(Run(s, a), b)
    decreases |a|
  {
    if a == [] {
      assert a + b == b;
    } else {
      assert (a + b)[1..] == a[1..] + b;
      RunAppend(Step(s, a[0]), a[1..], b);
    }
  }

  lemma {:induction false} RunBase(s: State, acts: seq<Action>)
    requires Base(s)
    ensures Base(Run(s, acts))
    decreases |acts|
  {
    if acts != [] {
      BaseKeeps(s, acts[0]);
      RunBase(Step(s, acts[0]), acts[1..]);
    }
  }

  /** Every state any run reaches satisfies the base invariant. */
  lemma AlwaysBase(acts: seq<Action>)
    ensures Base(Run(Init, acts))
  {
    RunBase(Init, acts);
  }

  lemma {:induction false} RunKeeps(s: State, acts: seq<Action>)
    requires Inv(s)
    ensures Inv(Run(s, acts))
    decreases |acts|
  {
    if acts != [] {
      StepKeeps(s, acts[0]);
      RunKeeps(Step(s, acts[0]), acts[1..]);
    }
  }

  /** Every state any run reaches satisfies the whole invariant. */
  lemma Reached(acts: seq<Action>)
    ensures Inv(Run(Init, acts))
  {
    assert Inv(Init);
    RunKeeps(Init, acts);
  }

  // ---------------------------------------------------------------- exclusion

  /**
   A call returned `acquired`, the handle is not released, and its owner, its child or a declared child
   may still use it.
   */
  ghost predicate Holding(s: State, t: nat) {
    t < |s.threads| && InUse(s.threads[t].pc) && !Dead(s, Cur(s, t))
  }

  /** In every run, `exclusive/` never holds two records. */
  lemma OneRecord(acts: seq<Action>, c: Id, d: Id)
    requires c in Claims(Run(Init, acts).fs, Exclusive) && d in Claims(Run(Init, acts).fs, Exclusive)
    ensures c == d
  {
    AlwaysBase(acts);
  }

  /** An exclusive claim without its record. */
  ghost predicate Unrecorded(s: State, t: nat)
    requires t < |s.threads|
  {
    s.threads[t].mode == Exclusive && !OnRecord(s, Cur(s, t))
  }

  /**
   In every run, with deaths and refusals anywhere: of two holders of whom one is exclusive, one is an
   exclusive holder without its record. So while exclusive claims have their records, one that is held
   is the only claim held, exclusive or shared.
   */
  lemma MutualExclusion(acts: seq<Action>, t: nat, u: nat)
    ensures var s := Run(Init, acts);
            Holding(s, t) && s.threads[t].mode == Exclusive && Holding(s, u) && t != u ==>
              Unrecorded(s, t) || Unrecorded(s, u)
  {
    var s := Run(Init, acts);
    Reached(acts);
    if Holding(s, t) && s.threads[t].mode == Exclusive && Holding(s, u) {
      assert PairOk(s, t, u);
      NeededPresent(s, Cur(s, t));
      NeededPresent(s, Cur(s, u));
    }
  }

  // ---------------------------------------------------------------- exactly when a claim has its record

  /** In every run, a claim that someone needs has its record if and only if its own rename did not land hollow. */
  lemma RecordExactly(acts: seq<Action>, c: Id)
    ensures var s := Run(Init, acts); Needed(s, c) ==> (OnRecord(s, c) <==> c !in s.hollow)
  {
    Reached(acts);
    if Needed(Run(Init, acts), c) { NeededPresent(Run(Init, acts), c); }
  }

  /** In every run, at most one exclusive claim that did not land hollow is published and needed. */
  lemma OnePublishedExclusive(acts: seq<Action>, c: Id, d: Id)
    ensures var s := Run(Init, acts);
            && Needed(s, c) && Needed(s, d) && ModeOf(s, c) == Exclusive && ModeOf(s, d) == Exclusive
            && c !in s.hollow && d !in s.hollow ==>
              c == d
  {
    RecordExactly(acts, c);
    RecordExactly(acts, d);
    AlwaysBase(acts);
  }

  /** No other claim is held while an exclusive one is. */
  ghost predicate Excludes(s: State) {
    forall t: nat, u: nat | Holding(s, t) && s.threads[t].mode == Exclusive && Holding(s, u) :: t == u
  }

  /** An exclusive holder whose own rename landed hollow, and another holder. */
  ghost predicate Intrudes(s: State, t: nat, u: nat) {
    Holding(s, t) && s.threads[t].mode == Exclusive && Cur(s, t) in s.hollow && Holding(s, u) && t != u
  }

  /** In every run, exclusion fails exactly when an exclusive holder whose own rename landed hollow has company. */
  lemma ExclusionExactly(acts: seq<Action>)
    ensures var s := Run(Init, acts); Excludes(s) <==> forall t: nat, u: nat :: !Intrudes(s, t, u)
  {
    var s := Run(Init, acts);
    if forall t: nat, u: nat :: !Intrudes(s, t, u) {
      forall t: nat, u: nat | Holding(s, t) && s.threads[t].mode == Exclusive && Holding(s, u) ensures t == u {
        MutualExclusion(acts, t, u);
        RecordExactly(acts, Cur(s, t));
        RecordExactly(acts, Cur(s, u));
        assert !Intrudes(s, t, u) && !Intrudes(s, u, t);
      }
    }
  }

  // ---------------------------------------------------------------- nobody counts a hollow claim

  /** The inspection has not listed `c`, is not asking after it and does not count it. */
  ghost predicate Misses(v: Survey, c: Id) {
    c !in v.todo && c !in v.live && !Checking(v.at, c)
  }

  ghost predicate Uncounted(s: State, c: Id) {
    && Issued(s, c) && !OnRecord(s, c)
    && forall t: nat | t < |s.threads| && s.threads[t].pc.Inspect? :: Misses(s.threads[t].pc.survey, c)
  }

  lemma ReadMisses(s: State, why: Why, v: Survey, ch: Choice, c: Id)
    requires Base(s) && Issued(s, c) && !OnRecord(s, c) && Misses(v, c)
    ensures var pc := Read(s, why, v, ch); pc.Inspect? ==> Misses(pc.survey, c)
  {
  }

  lemma SweepMisses(s: State, t: nat, why: Why, v: Survey, ch: Choice, c: Id)
    requires t < |s.threads| && s.threads[t].pc == Inspect(why, v) && Misses(v, c)
    ensures var pc := Sweep(s, t, why, v, ch).pc; pc.Inspect? ==> Misses(pc.survey, c)
  {
  }

  lemma StepUncounted(s: State, a: Action, c: Id)
    requires Base(s) && Uncounted(s, c)
    ensures Uncounted(Step(s, a), c)
  {
    StepGrows(s, a);
    GrowsFacts(s, Step(s, a), c);
    if a.Move? && a.t < |s.threads| && s.threads[a.t].proc !in s.gone {
      var pc := s.threads[a.t].pc;
      MoveGoesOn(s, a.t, a.choice);
      if pc.Inspect? {
        ReadMisses(s, pc.why, pc.survey, a.choice, c);
        SweepMisses(s, a.t, pc.why, pc.survey, a.choice, c);
      }
    }
  }

  /** A rename that lands hollow publishes a claim no inspection has seen. */
  lemma LandsUncounted(s: State, t: nat, ch: Choice)
    requires Moves(s, t) && LandsHollow(s, t, ch)
    ensures Uncounted(Step(s, Move(t, ch)), Cur(s, t))
  {
    var c := Cur(s, t);
    assert Local(s, t) && !Issued(s, c);
    HollowUnbacked(s, t, ch);
    forall u: nat | u < |s.threads| && s.threads[u].pc.Inspect? ensures Misses(s.threads[u].pc.survey, c) {
      assert Local(s, u);
    }
  }

  lemma {:induction false} RunUncounted(s: State, acts: seq<Action>)
    requires Base(s) && forall c <- s.hollow :: Uncounted(s, c)
    ensures forall c <- Run(s, acts).hollow :: Uncounted(Run(s, acts), c)
    decreases |acts|
  {
    if acts != [] {
      var a, s' := acts[0], Step(s, acts[0]);
      BaseKeeps(s, a);
      forall c | c in s'.hollow ensures Uncounted(s', c) {
        if c in s.hollow { StepUncounted(s, a, c); } else { LandsUncounted(s, a.t, a.choice); }
      }
      RunUncounted(s', acts[1..]);
    }
  }

  /**
   In every run, a claim that landed hollow never gets a record, and no inspection lists it, asks after
   it or counts it: nothing ever gives way to it.
   */
  lemma HollowIsNeverCounted(acts: seq<Action>, c: Id)
    requires c in Run(Init, acts).hollow
    ensures Uncounted(Run(Init, acts), c)
  {
    RunUncounted(Init, acts);
  }

  // ---------------------------------------------------------------- runs without clearing

  /** Nobody clears, and whoever comes to rename a staging directory put its record there. */
  ghost predicate Uncleared(s: State) {
    && s.hollow == {}
    && (forall t: nat | t < |s.threads| :: !s.threads[t].clear && !InClearing(s.threads[t].pc) && Filled(s, t))
  }

  ghost predicate InClearing(pc: PC) {
    pc.ClearList? || pc.Clearing? || pc.ClearUnlinked?
  }

  ghost predicate Filled(s: State, t: nat)
    requires t < |s.threads|
  {
    s.threads[t].pc.RenameDir? && Cur(s, t) in s.fs.staging && s.fs.staging[Cur(s, t)].StagedDir? ==>
      s.fs.staging[Cur(s, t)].record
  }

  predicate SameStaged(f: Fs, f': Fs, c: Id) {
    (c in f'.staging <==> c in f.staging) && (c in f'.staging ==> f'.staging[c] == f.staging[c])
  }

  lemma PublishStaging(s: State, t: nat, ch: Choice, c: Id)
    requires t < |s.threads| && Publishing(s.threads[t].pc) && c != Cur(s, t)
    ensures SameStaged(s.fs, StepPublish(s, t, ch).fs, c)
  {
  }

  lemma HoldStaging(s: State, t: nat, ch: Choice)
    requires t < |s.threads| && !s.threads[t].clear && !InClearing(s.threads[t].pc)
    requires s.threads[t].pc.Pending? || InUse(s.threads[t].pc)
    ensures StepHold(s, t, ch).fs.staging == s.fs.staging && !InClearing(StepHold(s, t, ch).pc)
  {
  }

  lemma ReleaseStaging(s: State, t: nat, at: ReleaseAt, out: Outcome, ch: Choice)
    requires t < |s.threads|
    ensures StepRelease(s, t, at, out, ch).fs.staging == s.fs.staging
  {
  }

  /** A call outside a clearing touches no staging entry but its own attempt's. */
  lemma OwnStaging(s: State, t: nat, ch: Choice, c: Id)
    requires t < |s.threads| && !s.threads[t].clear && !InClearing(s.threads[t].pc) && c != Cur(s, t)
    ensures SameStaged(s.fs, StepThread(s, t, ch).fs, c)
  {
    var pc := s.threads[t].pc;
    if pc.Inspect? {
      SurveyFs(s, t, pc.why, pc.survey, ch);
    } else if pc.Release? {
      ReleaseStaging(s, t, pc.rel, pc.out, ch);
    } else if Publishing(pc) {
      PublishStaging(s, t, ch, c);
    } else if !pc.Done? {
      HoldStaging(s, t, ch);
    }
  }

  lemma PublishFills(s: State, t: nat, ch: Choice)
    requires t < |s.threads| && Publishing(s.threads[t].pc) && Filled(s, t)
    ensures var r := StepPublish(s, t, ch);
            && (r.pc.RenameDir? ==>
                  r.n == s.threads[t].n && Cur(s, t) in r.fs.staging && r.fs.staging[Cur(s, t)] == StagedDir(true))
            && !InClearing(r.pc) && !LandsHollow(s, t, ch)
  {
  }

  lemma OwnFilled(s: State, t: nat, ch: Choice)
    requires t < |s.threads| && !s.threads[t].clear && !InClearing(s.threads[t].pc) && Filled(s, t)
    ensures var r := StepThread(s, t, ch);
            && (r.pc.RenameDir? ==>
                  r.n == s.threads[t].n && Cur(s, t) in r.fs.staging && r.fs.staging[Cur(s, t)] == StagedDir(true))
            && !InClearing(r.pc) && !LandsHollow(s, t, ch)
  {
    var pc := s.threads[t].pc;
    MoveGoesOn(s, t, ch);
    if pc.Inspect? {
      ReadGoesOn(s, pc.why, pc.survey, ch);
      SweepGoesOn(s, t, pc.why, pc.survey, ch);
    } else if Publishing(pc) {
      PublishFills(s, t, ch);
    } else if !Ended(pc) {
      HoldStaging(s, t, ch);
    }
  }

  lemma StepUncleared(s: State, a: Action)
    requires Uncleared(s) && !a.SpawnClear?
    ensures Uncleared(Step(s, a))
  {
    if a.Move? && a.t < |s.threads| && s.threads[a.t].proc !in s.gone {
      var s', t := Step(s, a), a.t;
      assert Filled(s, t);
      OwnFilled(s, t, a.choice);
      forall u: nat | u < |s'.threads| ensures Filled(s', u) {
        assert Filled(s, u);
        if u != t { OwnStaging(s, t, a.choice, Cur(s, u)); }
      }
    }
  }

  lemma {:induction false} RunUncleared(s: State, acts: seq<Action>)
    requires Uncleared(s) && forall i | 0 <= i < |acts| :: !acts[i].SpawnClear?
    ensures Run(s, acts).hollow == {}
    decreases |acts|
  {
    if acts != [] {
      StepUncleared(s, acts[0]);
      RunUncleared(Step(s, acts[0]), acts[1..]);
    }
  }

  /** A run in which nobody calls clearFreeClaimSet never lands hollow, so in it exclusion holds of all claims. */
  lemma OnlyClearingHollows(acts: seq<Action>)
    requires forall i | 0 <= i < |acts| :: !acts[i].SpawnClear?
    ensures Run(Init, acts).hollow == {} && Excludes(Run(Init, acts))
  {
    RunUncleared(Init, acts);
    ExclusionExactly(acts);
  }

  // ---------------------------------------------------------------- who may be removed

  /**
   In every run, no step takes away the record of a claim that its owner, a live recorded child
   or a declared child may need: a record goes only when its claim is dead for good, or by its own live
   thread releasing it. The child record of a claim with a record goes or changes only when the claim
   is dead, or by its own live thread.
   */
  lemma NeverReapsTheLiving(acts: seq<Action>, a: Action, c: Id, m: Mode)
    ensures var s, s' := Run(Init, acts), Run(Init, acts + [a]);
            && (LosesClaim(s.fs, s'.fs, c, m) ==> Dead(s, c) || (OwnStep(s, a, c) && Over(s, c)))
            && (OnRecord(s, c) && LosesChild(s.fs, s'.fs, c, m) ==> Dead(s, c) || OwnStep(s, a, c))
  {
    RunAppend(Init, acts, [a]);
    var s := Run(Init, acts);
    assert Run(s, [a]) == Step(s, a);
    AlwaysBase(acts);
    StepLoses(s, a, c, m);
  }

  // ---------------------------------------------------------------- a killed owner

  /** The claim of a dead owner, with its record, whose child record is `b`. */
  ghost predicate Orphaned(s: State, c: Id, b: Child) {
    OwnerGone(s, c) && ChildOf(s, c) == Some(b) && OnRecord(s, c)
  }

  /** The dead owner's threads stand still for ever. */
  lemma GoneStandStill(s: State, a: Action, c: Id)
    requires OwnerGone(s, c)
    ensures Known(Step(s, a), c) && Step(s, a).threads[c.t] == s.threads[c.t] && OwnerGone(Step(s, a), c)
  {
  }

  lemma {:induction false} RunGoneGrows(s: State, acts: seq<Action>)
    ensures s.gone <= Run(s, acts).gone
    decreases |acts|
  {
    if acts != [] { RunGoneGrows(Step(s, acts[0]), acts[1..]); }
  }

  lemma OrphanedStep(s: State, a: Action, c: Id, b: Child)
    requires Base(s) && Orphaned(s, c, b) && !Dead(s, c)
    ensures Orphaned(Step(s, a), c, b) && Step(s, a).threads[c.t] == s.threads[c.t]
  {
    GoneStandStill(s, a, c);
    StepLoses(s, a, c, ModeOf(s, c));
  }

  lemma {:induction false} OrphanedStays(s: State, acts: seq<Action>, c: Id, b: Child)
    requires Base(s) && Orphaned(s, c, b) && (b.Declared? || b.p !in Run(s, acts).gone)
    ensures Orphaned(Run(s, acts), c, b) && Run(s, acts).threads[c.t] == s.threads[c.t]
    decreases |acts|
  {
    if acts != [] {
      RunGoneGrows(s, acts);
      BaseKeeps(s, acts[0]);
      OrphanedStep(s, acts[0], c, b);
      OrphanedStays(Step(s, acts[0]), acts[1..], c, b);
    }
  }

  /**
   In every run, an owner killed at any point after it declared a child, even inside its release as long
   as the child record is there, frees nothing its child may need: the record and its child record
   stay, for ever while the child is only declared, and as long as the recorded child or its group lives.
   */
  lemma KilledOwnerFreesNothing(acts: seq<Action>, more: seq<Action>, c: Id)
    requires var s := Run(Init, acts);
             && OwnerGone(s, c) && OnRecord(s, c) && ChildOf(s, c).Some?
             && (ChildOf(s, c) == Some(Declared) || ChildOf(s, c).value.p !in Run(Init, acts + more).gone)
    ensures var s, s' := Run(Init, acts), Run(Init, acts + more);
            && Known(s', c) && (Current(s', c) <==> Current(s, c))
            && c in Claims(s'.fs, ModeOf(s, c)) && ChildOf(s', c) == ChildOf(s, c)
  {
    var s := Run(Init, acts);
    RunAppend(Init, acts, more);
    AlwaysBase(acts);
    OrphanedStays(s, more, c, ChildOf(s, c).value);
  }

  // ---------------------------------------------------------------- exclusive before shared

  /** Thread `h`, if it has published a shared claim, has still to count exclusive claim `c` before it can decide. */
  ghost predicate Defers(s: State, h: nat, c: Id)
    requires Known(s, c)
  {
    h < |s.threads| && s.threads[h].mode == Shared && Published(s.threads[h].pc) ==> Heeds(s, s.threads[h].pc, c)
  }

  lemma StepDefers(s: State, a: Action, h: nat, c: Id)
    requires Base(s) && Stands(s, c) && ModeOf(s, c) == Exclusive && Defers(s, h, c)
    ensures Known(Step(s, a), c) && ModeOf(Step(s, a), c) == Exclusive && Defers(Step(s, a), h, c)
  {
    var s' := Step(s, a);
    StepGrows(s, a);
    GrowsFacts(s, s', c);
    if h < |s'.threads| && s'.threads[h].mode == Shared && Published(s'.threads[h].pc) {
      if h < |s.threads| { assert Advances(s.threads[h], s'.threads[h]); }
      if h < |s.threads| && Published(s.threads[h].pc) {
        StepHeeds(s, a, h, c);
      } else {
        NewlyPublished(s, a.t, a.choice);
      }
    }
  }

  /** `c` stays published and needed from here through the whole continuation: neither released nor reaped. */
  ghost predicate NeededThroughout(s: State, acts: seq<Action>, c: Id)
    decreases |acts|
  {
    Needed(s, c) && (acts != [] ==> NeededThroughout(Step(s, acts[0]), acts[1..], c))
  }

  lemma {:induction false} RunDefers(s: State, acts: seq<Action>, h: nat, c: Id)
    requires Base(s) && OnRecord(s, c) && NeededThroughout(s, acts, c)
    requires ModeOf(s, c) == Exclusive && Defers(s, h, c)
    ensures Known(Run(s, acts), c) && Defers(Run(s, acts), h, c)
    decreases |acts|
  {
    if acts != [] {
      BaseKeeps(s, acts[0]);
      StandsOn(s, acts[0], c);
      StepDefers(s, acts[0], h, c);
      RunDefers(Step(s, acts[0]), acts[1..], h, c);
    }
  }

  /**
   In every run, while an exclusive claim with its record stays published, no shared attempt becomes
   acquired that had not already listed `exclusive/` without it: one that is published later, or that
   has not listed yet, or that counted the claim, can only give way.
   */
  lemma SharedGivesWay(acts: seq<Action>, more: seq<Action>, c: Id, h: nat)
    requires OnRecord(Run(Init, acts), c) && NeededThroughout(Run(Init, acts), more, c)
    requires ModeOf(Run(Init, acts), c) == Exclusive && Defers(Run(Init, acts), h, c)
    ensures var s' := Run(Init, acts + more);
            h < |s'.threads| && s'.threads[h].mode == Shared ==> !InUse(s'.threads[h].pc)
  {
    RunAppend(Init, acts, more);
    AlwaysBase(acts);
    RunDefers(Run(Init, acts), more, h, c);
  }

  // ---------------------------------------------------------------- the exclusive side

  /**
   The exclusive side never gives way: in every run, a settling inspection of a published exclusive
   attempt goes on, or is refused and releases, or ends: acquired if it counted no shared claim, and
   else pending.
   */
  lemma ExclusiveSettles(acts: seq<Action>, t: nat, v: Survey, ch: Choice)
    requires var s := Run(Init, acts);
             t < |s.threads| && s.threads[t].proc !in s.gone && s.threads[t].mode == Exclusive
             && s.threads[t].pc == Inspect(Settling, v)
    ensures var s, s' := Run(Init, acts), Run(Init, acts + [Move(t, ch)]);
            && t < |s'.threads|
            && var pc := s'.threads[t].pc;
            || (pc.Inspect? && pc.why == Settling)
            || (pc == Release(RelRead, Failed) && (ch.Refuse? || v.at.AtChild?))
            || (v.at.AtTidyShared? && pc == if OfMode(s, v.live, Shared) == {} then Acquired else Pending)
  {
    var s := Run(Init, acts);
    RunAppend(Init, acts, [Move(t, ch)]);
    assert Run(s, [Move(t, ch)]) == Step(s, Move(t, ch));
    ReadGoesOn(s, Settling, v, ch);
    SweepGoesOn(s, t, Settling, v, ch);
  }
}
