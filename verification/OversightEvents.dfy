/**
 Events missed are dropped: two runs that read the same at the same times, under any preferences, say
 the same events at every look where both may speak. So an event a look was not allowed to say is
 never said later in its place.
 */
module OversightEvents {
  import opened Options
  import opened OversightModel
  import opened OversightWake
  import opened OversightRuns
  import opened OversightEpisodes
  import opened OversightQuiet

  /** What happens at a moment, as against a problem that lasts. */
  predicate IsEvent(w: What) {
    w.AboutWarming? || w.AboutDriving? || w.AboutStopped? || w.AboutPrReady? || w.AboutPrMerged? || w.AboutMerged?
  }

  function CategoryOf(w: What): Category {
    if w.AboutWarming? || w.AboutDriving? then Started else Finished
  }

  /** Two entries that agree on all that events depend on. */
  ghost predicate Alike(e: Entry, f: Entry) {
    && e.seenAt == f.seenAt && e.warmed == f.warmed && e.drove == f.drove && e.drivenAt == f.drivenAt
    && e.driveNotified == f.driveNotified
    && e.errors == f.errors && e.errorsAt == f.errorsAt && e.finished == f.finished
    && e.finishedInRun == f.finishedInRun
    && e.pr == f.pr && e.mergedInto == f.mergedInto && e.mergeNotified == f.mergeNotified
  }

  ghost predicate AlikeOption(e: Option<Entry>, f: Option<Entry>) {
    (e.Some? <==> f.Some?) && (e.Some? ==> Alike(e.value, f.value))
  }

  ghost predicate AlikeStates(s: Option<State>, t: Option<State>) {
    (s.Some? <==> t.Some?) && forall p: string :: AlikeOption(Before(s, p), Before(t, p))
  }

  /** Looks that differ only in preferences. */
  ghost predicate SameMoment(a: Look, b: Look) {
    a.now == b.now && a.baseline == b.baseline
  }

  lemma AlikeFresh(a: Look, b: Look, env: Env, e: Option<Entry>, f: Option<Entry>)
    requires SameMoment(a, b) && AlikeOption(e, f)
    ensures Alike(Fresh(a, env, e), Fresh(b, env, f))
  {
  }

  lemma AlikeStart(a: Look, b: Look, input: Input, env: Env, e: Entry, f: Entry)
    requires SameMoment(a, b) && Alike(e, f)
    ensures Alike(AfterStart(a, input, env, e), AfterStart(b, input, env, f))
    ensures Loud(a, Started) && Loud(b, Started) ==> StartNotes(a, input, env, e) == StartNotes(b, input, env, f)
  {
  }

  lemma AlikeFinish(a: Look, b: Look, input: Input, env: Env, e: Entry, f: Entry)
    requires SameMoment(a, b) && Alike(e, f)
    ensures Alike(AfterFinish(a, input, env, e), AfterFinish(b, input, env, f))
    ensures Loud(a, Finished) && Loud(b, Finished) ==> FinishNotes(a, input, env, e) == FinishNotes(b, input, env, f)
  {
    assert QuietSince(input, env, e) == QuietSince(input, env, f);
  }

  lemma AlikeStuck(a: Look, b: Look, input: Input, env: Env, since: Stamp, e: Entry, f: Entry)
    requires Alike(e, f)
    ensures Alike(AfterStuck(a, input, env, since, e), AfterStuck(b, input, env, since, f))
  {
  }

  lemma AlikePr(a: Look, b: Look, input: Input, env: Env, e: Entry, f: Entry)
    requires Alike(e, f)
    ensures Alike(AfterPr(input, env, e), AfterPr(input, env, f))
    ensures Loud(a, Finished) && Loud(b, Finished) ==> PrNotes(a, input, env, e) == PrNotes(b, input, env, f)
  {
  }

  lemma AlikeMerge(a: Look, b: Look, input: Input, env: Env, p: Option<Entry>, q: Option<Entry>, e: Entry, f: Entry)
    requires AlikeOption(p, q) && Alike(e, f)
    ensures Alike(AfterMerge(input, env, p, e), AfterMerge(input, env, q, f))
    ensures Loud(a, Finished) && Loud(b, Finished) ==>
              MergeNotes(a, input, env, p, e) == MergeNotes(b, input, env, q, f)
  {
    AlikePr(a, b, input, env, e, f);
    assert BranchTold(env, p, AfterPr(input, env, e)) == BranchTold(env, q, AfterPr(input, env, f));
    assert BranchMerged(p, AfterPr(input, env, e)) == BranchMerged(q, AfterPr(input, env, f));
  }

  /** Through all the rules of one workspace. */
  lemma AlikeEarly(a: Look, b: Look, input: Input, env: Env, p: Option<Entry>, q: Option<Entry>)
    requires SameMoment(a, b) && AlikeOption(p, q)
    ensures Alike(Entry4(a, input, env, p), Entry4(b, input, env, q))
    ensures Loud(a, Started) && Loud(b, Started) ==>
              StartNotes(a, input, env, Fresh(a, env, p)) == StartNotes(b, input, env, Fresh(b, env, q))
    ensures Loud(a, Finished) && Loud(b, Finished) ==>
              FinishNotes(a, input, env, Entry1(a, input, env, p)) ==
                FinishNotes(b, input, env, Entry1(b, input, env, q))
  {
    AlikeFresh(a, b, env, p, q);
    AlikeStart(a, b, input, env, Fresh(a, env, p), Fresh(b, env, q));
    AlikeFinish(a, b, input, env, Entry1(a, input, env, p), Entry1(b, input, env, q));
    assert Since(a, input, env, p) == Since(b, input, env, q);
    AlikeStuck(a, b, input, env, Since(a, input, env, p), Entry2(a, input, env, p), Entry2(b, input, env, q));
  }

  lemma AlikeNext(a: Look, b: Look, input: Input, env: Env, p: Option<Entry>, q: Option<Entry>)
    requires SameMoment(a, b) && AlikeOption(p, q)
    ensures Alike(NextEntry(a, input, env, p), NextEntry(b, input, env, q))
  {
    AlikeEarly(a, b, input, env, p, q);
    AlikeMerge(a, b, input, env, p, q, Entry4(a, input, env, p), Entry4(b, input, env, q));
  }

  /** An event is said of one exactly when of the other, where both may speak. */
  lemma AlikeEvents(a: Look, b: Look, input: Input, env: Env, p: Option<Entry>, q: Option<Entry>, n: Note)
    requires SameMoment(a, b) && AlikeOption(p, q) && IsEvent(n.what) && Loud(a, CategoryOf(n.what))
             && Loud(b, CategoryOf(n.what))
    requires n in WorkspaceNotes(a, input, env, p)
    ensures n in WorkspaceNotes(b, input, env, q)
  {
    AlikeEarly(a, b, input, env, p, q);
    AlikeMerge(a, b, input, env, p, q, Entry4(a, input, env, p), Entry4(b, input, env, q));
    EventSource(a, input, env, p, n);
    PartOf(b, input, env, q, n);
  }

  lemma EventSource(look: Look, input: Input, env: Env, prev: Option<Entry>, n: Note)
    requires n in WorkspaceNotes(look, input, env, prev) && IsEvent(n.what)
    ensures CategoryOf(n.what) == Started ==> n in StartNotes(look, input, env, Fresh(look, env, prev))
    ensures n.what.AboutStopped? ==> n in FinishNotes(look, input, env, Entry1(look, input, env, prev))
    ensures CategoryOf(n.what) == Finished && !n.what.AboutStopped? ==>
              n in MergeNotes(look, input, env, prev, Entry4(look, input, env, prev))
  {
    var since, raised := Since(look, input, env, prev), Entry5(look, input, env, prev).attentionRaised;
    PartOf(look, input, env, prev, n);
    KindsEarly(look, input, env, since, Fresh(look, env, prev));
    KindsEarly(look, input, env, since, Entry1(look, input, env, prev));
    KindsEarly(look, input, env, since, Entry2(look, input, env, prev));
    KindsLate(look, input, env, prev, Entry4(look, input, env, prev));
    OwnItems(look, env, ItemsBefore(prev), Pending(input, env, look.now),
             raised && !AllowanceReturns(input, env, look.now, prev));
  }

  // ---------------------------------------------------------------- runs

  /** Two looks that read the same at the same time. */
  ghost predicate SameTurn(t: Turn, u: Turn) {
    t.input == u.input && t.now == u.now
  }

  /** An absent workspace's entry is kept as it was, or forgotten by its age alone. */
  lemma KeptOrForgotten(run: seq<Record>, k: nat, p: string)
    requires Orderly(run) && k < |run| && Listed(run[k].turn, p).None?
    ensures Before(Some(run[k].next), p) == Kept(Before(run[k].prev, p), run[k].turn)
  {
    var r := run[k];
    assert Looked(run[k]);
    NextUnlisted(LookOf(r.prev, r.turn), r.turn.input, r.prev, p);
  }

  function Kept(e: Option<Entry>, t: Turn): Option<Entry> {
    if e.Some? && (t.input.status.None? || t.now - e.value.seenAt < FORGET_MS) then e else None
  }

  lemma NextUnlisted(look: Look, input: Input, prev: Option<State>, p: string)
    requires Find(Envs(input), p).None?
    ensures var next, e := NextWorkspaces(look, input, prev), Before(prev, p);
            && (p in next <==> e.Some? && (input.status.None? || look.now - e.value.seenAt < FORGET_MS))
            && (p in next ==> next[p] == e.value)
  {
    if input.status.Some? {
      var i := FindIndex(Envs(input), p);
      Uncollected(EntryOn(look, input, prev), Envs(input), p);
    }
  }

  /** Two runs at one look: the same is read, at the same time, and the states before are alike. */
  ghost predicate Abreast(run: seq<Record>, other: seq<Record>, k: nat) {
    && Orderly(run) && Orderly(other) && k < |run| && k < |other|
    && SameTurn(run[k].turn, other[k].turn) && AlikeStates(run[k].prev, other[k].prev)
  }

  lemma AlikeListed(run: seq<Record>, other: seq<Record>, k: nat, p: string)
    requires Abreast(run, other, k) && Listed(run[k].turn, p).Some?
    ensures AlikeOption(Before(Some(run[k].next), p), Before(Some(other[k].next), p))
  {
    var r, q := run[k], other[k];
    assert AlikeOption(Before(r.prev, p), Before(q.prev, p));
    EntryRule(run, k, p);
    EntryRule(other, k, p);
    AlikeNext(LookOf(r.prev, r.turn), LookOf(q.prev, q.turn), r.turn.input, Listed(r.turn, p).value, Before(r.prev, p),
              Before(q.prev, p));
  }

  lemma AlikeUnlisted(run: seq<Record>, other: seq<Record>, k: nat, p: string)
    requires Abreast(run, other, k) && Listed(run[k].turn, p).None?
    ensures AlikeOption(Before(Some(run[k].next), p), Before(Some(other[k].next), p))
  {
    assert AlikeOption(Before(run[k].prev, p), Before(other[k].prev, p));
    KeptOrForgotten(run, k, p);
    KeptOrForgotten(other, k, p);
  }

  lemma AlikeAcross(run: seq<Record>, other: seq<Record>, k: nat)
    requires Abreast(run, other, k)
    ensures AlikeStates(Some(run[k].next), Some(other[k].next))
  {
    forall p: string ensures AlikeOption(Before(Some(run[k].next), p), Before(Some(other[k].next), p)) {
      if Listed(run[k].turn, p).Some? { AlikeListed(run, other, k, p); } else { AlikeUnlisted(run, other, k, p); }
    }
  }

  /** Two runs from like states that read the same, whatever their preferences. */
  ghost predicate Parallel(run: seq<Record>, other: seq<Record>) {
    && Orderly(run) && Orderly(other) && |run| == |other|
    && (forall k | 0 <= k < |run| :: SameTurn(run[k].turn, other[k].turn))
    && (run != [] ==> AlikeStates(run[0].prev, other[0].prev))
  }

  lemma {:induction false} AlikeThroughout(run: seq<Record>, other: seq<Record>, m: nat)
    requires Parallel(run, other) && m < |run|
    ensures AlikeStates(run[m].prev, other[m].prev)
  {
    if m > 0 {
      AlikeThroughout(run, other, m - 1);
      AlikeAcross(run, other, m - 1);
      assert run[m].prev == Some(run[m - 1].next) && other[m].prev == Some(other[m - 1].next);
    }
  }

  /**
   Whatever was quiet or switched off before, an event is said at a look exactly when it is said
   there in a run with any other preferences that lets both speak at that look.
   */
  lemma EventsAreNotMadeUpFor(run: seq<Record>, other: seq<Record>, m: nat, n: Note)
    requires Parallel(run, other) && m < |run| && IsEvent(n.what)
    requires !run[m].turn.prefs.quiet && CategoryOf(n.what) in run[m].turn.prefs.categories
    requires !other[m].turn.prefs.quiet && CategoryOf(n.what) in other[m].turn.prefs.categories
    ensures n in run[m].notes <==> n in other[m].notes
  {
    AlikeThroughout(run, other, m);
    AlikeSymmetric(run[m].prev, other[m].prev);
    if n in run[m].notes { EventCarries(run, other, m, n); }
    if n in other[m].notes { EventCarries(other, run, m, n); }
  }

  lemma AlikeSymmetric(s: Option<State>, t: Option<State>)
    requires AlikeStates(s, t)
    ensures AlikeStates(t, s)
  {
    forall p: string ensures AlikeOption(Before(t, p), Before(s, p)) {
      assert AlikeOption(Before(s, p), Before(t, p));
    }
  }

  lemma NotFirst(run: seq<Record>, k: nat, n: Note)
    requires Orderly(run) && k < |run| && n in run[k].notes
    ensures run[k].prev.Some?
  {
    if run[k].prev.None? {
      assert Looked(run[k]);
      QuietLookIsSilent(run[k].prev, run[k].turn);
    }
  }

  lemma AsTaken(run: seq<Record>, k: nat)
    requires Orderly(run) && k < |run|
    ensures Distinct(Envs(run[k].turn.input)) && run[k].notes == Take(run[k].prev, run[k].turn).notes
  {
    assert Looked(run[k]);
  }

  /** An event was said of one listed workspace. */
  lemma EventOf(run: seq<Record>, k: nat, n: Note)
    requires Orderly(run) && k < |run| && IsEvent(n.what) && n in run[k].notes
    ensures !n.target.ToMachine? && Listed(run[k].turn, n.target.path).Some?
    ensures var r, p := run[k], n.target.path;
            n in WorkspaceNotes(LookOf(r.prev, r.turn), r.turn.input, Listed(r.turn, p).value, Before(r.prev, p))
  {
    AsTaken(run, k);
    WorkspaceSource(run[k].prev, run[k].turn, n);
  }

  lemma EventCarries(run: seq<Record>, other: seq<Record>, k: nat, n: Note)
    requires Abreast(run, other, k) && IsEvent(n.what) && n in run[k].notes
    requires !other[k].turn.prefs.quiet && CategoryOf(n.what) in other[k].turn.prefs.categories
    requires !run[k].turn.prefs.quiet && CategoryOf(n.what) in run[k].turn.prefs.categories
    ensures n in other[k].notes
  {
    NotFirst(run, k, n);
    EventOf(run, k, n);
    var r, q, p := run[k], other[k], n.target.path;
    assert AlikeOption(Before(r.prev, p), Before(q.prev, p));
    AlikeEvents(LookOf(r.prev, r.turn), LookOf(q.prev, q.turn), r.turn.input, Listed(r.turn, p).value,
                Before(r.prev, p), Before(q.prev, p), n);
    SaidOf(other, k, p, n);
  }
}
