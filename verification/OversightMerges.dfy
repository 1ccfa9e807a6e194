/**
 When pull requests and merges are told of, over every run from its first look on, by what the looks
 read of GitHub and of git.
 */
module OversightMerges {
  import opened Options
  import opened OversightModel
  import opened OversightWake
  import opened OversightRuns
  import opened OversightEpisodes
  import opened OversightQuiet
  import opened OversightOwed

  // ---------------------------------------------------------------- what the looks read

  /** The look lists the workspace and was told about its pull request, or that there is none. */
  ghost predicate PrAt(run: seq<Record>, i: nat, path: string) {
    Visits(run, i, path) && path in run[i].turn.input.pullRequests
  }

  function PrOf(run: seq<Record>, i: nat, path: string): Option<PullRequest>
    requires i < |run| && path in run[i].turn.input.pullRequests
  {
    run[i].turn.input.pullRequests[path]
  }

  ghost predicate ReadyPr(pr: Option<PullRequest>) {
    pr.Some? && pr.value.state == OpenPr && !pr.value.draft
  }

  ghost predicate DonePr(pr: Option<PullRequest>) {
    pr.Some? && pr.value.state == MergedPr
  }

  ghost predicate SameNumber(a: Option<PullRequest>, b: Option<PullRequest>) {
    a.Some? && b.Some? && a.value.number == b.value.number
  }

  /** Look `i` is the last before look `k` that was told about it. */
  ghost predicate LastPr(run: seq<Record>, i: nat, k: nat, path: string) {
    i < k <= |run| && PrAt(run, i, path) && Keeps(run, i, k, path) && forall j: nat | i < j < k :: !PrAt(run, j, path)
  }

  /** The last one told of is merged. */
  ghost predicate LastPrDone(run: seq<Record>, k: nat, path: string) {
    exists i: nat :: LastPr(run, i, k, path) && DonePr(PrOf(run, i, path))
  }

  ghost predicate GitAt(run: seq<Record>, i: nat, path: string) {
    Visits(run, i, path) && EnvAt(run, i, path).git.Some?
  }

  ghost predicate LastGit(run: seq<Record>, i: nat, k: nat, path: string) {
    i < k <= |run| && GitAt(run, i, path) && Keeps(run, i, k, path) && forall j: nat | i < j < k :: !GitAt(run, j, path)
  }

  /** The last look before look `k` that read git found the branch merged. */
  ghost predicate InBranch(run: seq<Record>, k: nat, path: string) {
    exists i: nat :: LastGit(run, i, k, path) && EnvAt(run, i, path).git.value.Some?
  }

  ghost predicate SeenBefore(run: seq<Record>, k: nat, path: string) {
    exists h: nat :: LastVisit(run, h, k, path)
  }

  // ---------------------------------------------------------------- when a merge counts as told

  /** A pull request was told of before, and it is merged now, as it was not then. */
  ghost predicate PrTurnsDone(run: seq<Record>, k: nat, path: string) {
    && PrAt(run, k, path) && DonePr(PrOf(run, k, path))
    && exists i: nat ::
         LastPr(run, i, k, path) && !(SameNumber(PrOf(run, i, path), PrOf(run, k, path)) && DonePr(PrOf(run, i, path)))
  }

  /** It is merged already when it is told of for the first time. */
  ghost predicate PrFoundDone(run: seq<Record>, k: nat, path: string) {
    PrAt(run, k, path) && DonePr(PrOf(run, k, path)) && !exists i: nat :: LastPr(run, i, k, path)
  }

  /** Git finds the branch merged, as it did not at the visit before. */
  ghost predicate BranchTurnsMerged(run: seq<Record>, k: nat, path: string) {
    Visits(run, k, path) && SeenBefore(run, k, path) && InBranch(run, k + 1, path) && !InBranch(run, k, path)
  }

  /** The merge is told, or found at first sight. */
  ghost predicate Tells(run: seq<Record>, k: nat, path: string) {
    || PrTurnsDone(run, k, path) || PrFoundDone(run, k, path) || BranchTurnsMerged(run, k, path)
    || (Visits(run, k, path) && !SeenBefore(run, k, path) && InBranch(run, k + 1, path))
  }

  /** Git finds the branch not merged, and the pull request is not either: another merge may come. */
  ghost predicate Reopens(run: seq<Record>, k: nat, path: string) {
    && GitAt(run, k, path) && SeenBefore(run, k, path)
    && !InBranch(run, k + 1, path) && !LastPrDone(run, k + 1, path)
  }

  ghost predicate ToldFrom(run: seq<Record>, i: nat, k: nat, path: string) {
    && i < k <= |run| && Tells(run, i, path) && Keeps(run, i, k, path)
    && forall j: nat | i < j < k :: !Reopens(run, j, path)
  }

  ghost predicate Told(run: seq<Record>, k: nat, path: string) {
    exists i: nat :: ToldFrom(run, i, k, path)
  }

  // ---------------------------------------------------------------- one look more

  lemma LastPrNext(run: seq<Record>, i: nat, k: nat, path: string)
    requires k < |run|
    ensures LastPr(run, i, k + 1, path) <==>
              && path in run[k].next.workspaces
              && if PrAt(run, k, path) then i == k else LastPr(run, i, k, path)
  {
    if i < k { KeepsMore(run, i, k, path); }
    if LastPr(run, i, k + 1, path) && i < k { assert !PrAt(run, k, path); }
  }

  lemma LastGitNext(run: seq<Record>, i: nat, k: nat, path: string)
    requires k < |run|
    ensures LastGit(run, i, k + 1, path) <==>
              && path in run[k].next.workspaces
              && if GitAt(run, k, path) then i == k else LastGit(run, i, k, path)
  {
    if i < k { KeepsMore(run, i, k, path); }
    if LastGit(run, i, k + 1, path) && i < k { assert !GitAt(run, k, path); }
  }

  lemma InBranchNext(run: seq<Record>, k: nat, path: string)
    requires k < |run|
    ensures InBranch(run, k + 1, path) <==>
              && path in run[k].next.workspaces
              && if GitAt(run, k, path) then EnvAt(run, k, path).git.value.Some? else InBranch(run, k, path)
  {
    forall i: nat
      ensures LastGit(run, i, k + 1, path) <==>
                && path in run[k].next.workspaces && if GitAt(run, k, path) then i == k else LastGit(run, i, k, path)
    {
      LastGitNext(run, i, k, path);
    }
  }

  lemma ToldFromMore(run: seq<Record>, i: nat, k: nat, path: string)
    requires k < |run|
    ensures ToldFrom(run, i, k + 1, path) <==>
              && path in run[k].next.workspaces
              && if i == k then Tells(run, k, path) else ToldFrom(run, i, k, path) && !Reopens(run, k, path)
  {
    if i < k { KeepsMore(run, i, k, path); }
    if ToldFrom(run, i, k + 1, path) && i < k { assert !Reopens(run, k, path); }
  }

  lemma ToldNext(run: seq<Record>, k: nat, path: string)
    requires k < |run|
    ensures Told(run, k + 1, path) <==>
              path in run[k].next.workspaces && (Tells(run, k, path) || (Told(run, k, path) && !Reopens(run, k, path)))
  {
    if Told(run, k + 1, path) {
      var i: nat :| ToldFrom(run, i, k + 1, path);
      ToldFromMore(run, i, k, path);
    }
    if Told(run, k, path) {
      var i: nat :| ToldFrom(run, i, k, path);
      ToldFromMore(run, i, k, path);
    }
    ToldFromMore(run, k, k, path);
  }

  // ---------------------------------------------------------------- what an entry remembers

  /** The entry knows the pull request as the last look told of it had it. */
  ghost predicate KnowsPr(run: seq<Record>, k: nat, path: string, known: Known) {
    && (known == Unlooked <==> !exists i: nat :: LastPr(run, i, k, path))
    && forall i: nat | LastPr(run, i, k, path) :: known == KnownOf(PrOf(run, i, path))
  }

  ghost predicate KnowsMerge(run: seq<Record>, k: nat, path: string, e: Entry) {
    && KnowsPr(run, k, path, e.pr) && (e.mergedInto.Some? <==> InBranch(run, k, path))
    && (e.mergeNotified <==> Told(run, k, path))
  }

  ghost predicate MergeKnown(run: seq<Record>, k: nat, path: string)
    requires k <= |run|
  {
    EntryBefore(run, k, path).Some? ==> KnowsMerge(run, k, path, EntryBefore(run, k, path).value)
  }

  lemma NothingTold(run: seq<Record>, k: nat, path: string)
    requires k <= |run| && EntryBefore(run, k, path).None?
    ensures !Told(run, k, path) && !InBranch(run, k, path) && !SeenBefore(run, k, path)
    ensures forall i: nat :: !LastPr(run, i, k, path)
  {
    NothingBefore(run, k, path);
    forall i: nat | i < k ensures !Keeps(run, i, k, path) {
      assert path !in run[k - 1].next.workspaces;
    }
  }

  function PrBefore(prev: Option<Entry>): Known {
    if prev.Some? then prev.value.pr else Unlooked
  }

  predicate ToldBefore(prev: Option<Entry>) {
    prev.Some? && prev.value.mergeNotified
  }

  function IntoBefore(prev: Option<Entry>): Option<string> {
    if prev.Some? then prev.value.mergedInto else None
  }

  /** What one look leaves of pull requests and merges. */
  ghost predicate MergeLeft(input: Input, env: Env, prev: Option<Entry>, e: Entry) {
    var looked := env.path in input.pullRequests;
    var pr := if looked then input.pullRequests[env.path] else None;
    var known := PrBefore(prev);
    var same := known.Pr? && pr.Some? && known.number == pr.value.number;
    var turns := looked && DonePr(pr) && known != Unlooked && !(same && known.merged);
    var found := looked && DonePr(pr) && known == Unlooked;
    && e.pr == (if looked then KnownOf(pr) else known)
    && e.mergedInto == (if env.git.Some? then env.git.value else IntoBefore(prev))
    && (e.mergeNotified <==>
          || turns || found || (e.mergedInto.Some? && IntoBefore(prev).None?)
          || (ToldBefore(prev) && !(prev.Some? && e.mergedInto.None? && env.git.Some? && !(e.pr.Pr? && e.pr.merged))))
  }

  lemma LateKeepsMerge(look: Look, input: Input, env: Env, prev: Option<Entry>)
    ensures var e0, e4, e := Fresh(look, env, prev), Entry4(look, input, env, prev), NextEntry(look, input, env, prev);
            && e4.pr == e0.pr && e4.mergedInto == e0.mergedInto && e4.mergeNotified == e0.mergeNotified
            && e.pr == AfterMerge(input, env, prev, e4).pr && e.mergedInto == e4.mergedInto
            && e.mergeNotified == AfterMerge(input, env, prev, e4).mergeNotified
  {
  }

  lemma MergeLeaves(look: Look, input: Input, env: Env, prev: Option<Entry>)
    ensures MergeLeft(input, env, prev, NextEntry(look, input, env, prev))
  {
    LateKeepsMerge(look, input, env, prev);
  }

  lemma ListedPath(run: seq<Record>, k: nat, path: string)
    requires Visits(run, k, path)
    ensures EnvAt(run, k, path).path == path
  {
    var i := FindIndex(Envs(run[k].turn.input), path);
  }

  lemma SeenIs(run: seq<Record>, k: nat, path: string)
    requires FromStart(run) && k <= |run|
    ensures EntryBefore(run, k, path).Some? <==> SeenBefore(run, k, path)
  {
    AlwaysKnown(run, k, path);
    if EntryBefore(run, k, path).None? { NothingBefore(run, k, path); }
  }

  /** What is known of a pull request that a look was told about. */
  function KnownOf(pr: Option<PullRequest>): Known {
    if pr.None? then NoPr
    else Pr(pr.value.number, pr.value.state == OpenPr && !pr.value.draft, pr.value.state == MergedPr)
  }

  lemma KnowsPrNext(run: seq<Record>, k: nat, path: string, known: Known)
    requires k < |run| && path in run[k].next.workspaces && KnowsPr(run, k, path, known)
    ensures KnowsPr(run, k + 1, path, if PrAt(run, k, path) then KnownOf(PrOf(run, k, path)) else known)
  {
    var n := k + 1;
    if PrAt(run, k, path) {
      forall i: nat | LastPr(run, i, n, path) ensures i == k {
        LastPrNext(run, i, k, path);
      }
      assert LastPr(run, k, n, path);
    } else {
      forall i: nat | LastPr(run, i, n, path) ensures LastPr(run, i, k, path) {
        LastPrNext(run, i, k, path);
      }
      if known != Unlooked {
        var i: nat :| LastPr(run, i, k, path);
        LastPrNext(run, i, k, path);
        assert LastPr(run, i, n, path);
      }
    }
  }

  lemma OneLastPr(run: seq<Record>, i: nat, j: nat, k: nat, path: string)
    requires LastPr(run, i, k, path) && LastPr(run, j, k, path)
    ensures i == j
  {
    assert PrAt(run, i, path) && PrAt(run, j, path);
  }

  lemma DoneIs(run: seq<Record>, k: nat, path: string, known: Known)
    requires KnowsPr(run, k, path, known)
    ensures LastPrDone(run, k, path) <==> known.Pr? && known.merged
  {
    if known != Unlooked {
      var i: nat :| LastPr(run, i, k, path);
      assert LastPrDone(run, k, path) ==> known.Pr? && known.merged;
    }
  }

  /** The pull request turns out merged, by what was known of it. */
  lemma TurnsIs(run: seq<Record>, k: nat, path: string, known: Known)
    requires k < |run| && KnowsPr(run, k, path, known)
    ensures PrTurnsDone(run, k, path) <==>
              && PrAt(run, k, path) && DonePr(PrOf(run, k, path)) && known != Unlooked
              && !(known.Pr? && known.number == PrOf(run, k, path).value.number && known.merged)
    ensures PrFoundDone(run, k, path) <==> PrAt(run, k, path) && DonePr(PrOf(run, k, path)) && known == Unlooked
  {
    if known != Unlooked {
      var i: nat :| LastPr(run, i, k, path);
      forall j: nat | LastPr(run, j, k, path) ensures j == i {
        OneLastPr(run, i, j, k, path);
      }
    }
  }

  lemma VisitKnowsMerge(run: seq<Record>, k: nat, path: string)
    requires FromStart(run) && Visits(run, k, path) && MergeKnown(run, k, path)
    ensures MergeKnown(run, k + 1, path)
  {
    var look, env, prev := LookOf(run[k].prev, run[k].turn), EnvAt(run, k, path), EntryBefore(run, k, path);
    EntryRule(run, k, path);
    BeforeIs(run, k, path);
    ListedPath(run, k, path);
    MergeLeaves(look, run[k].turn.input, env, prev);
    if prev.None? { NothingTold(run, k, path); }
    var e := EntryBefore(run, k + 1, path).value;
    KnowsPrNext(run, k, path, PrBefore(prev));
    InBranchNext(run, k, path);
    TurnsIs(run, k, path, PrBefore(prev));
    DoneIs(run, k + 1, path, e.pr);
    SeenIs(run, k, path);
    ToldNext(run, k, path);
  }

  lemma AbsentKnowsMerge(run: seq<Record>, k: nat, path: string)
    requires FromStart(run) && k < |run| && !Visits(run, k, path) && MergeKnown(run, k, path)
    ensures MergeKnown(run, k + 1, path)
  {
    EntryRule(run, k, path);
    BeforeIs(run, k, path);
    if path in run[k].next.workspaces {
      assert !PrAt(run, k, path) && !GitAt(run, k, path) && !Tells(run, k, path) && !Reopens(run, k, path);
      KnowsPrNext(run, k, path, EntryBefore(run, k, path).value.pr);
      InBranchNext(run, k, path);
      ToldNext(run, k, path);
    }
  }

  lemma {:induction false} AlwaysKnowsMerge(run: seq<Record>, k: nat, path: string)
    requires FromStart(run) && k <= |run|
    ensures MergeKnown(run, k, path)
    decreases k
  {
    if k > 0 {
      AlwaysKnowsMerge(run, k - 1, path);
      if Visits(run, k - 1, path) { VisitKnowsMerge(run, k - 1, path); } else { AbsentKnowsMerge(run, k - 1, path); }
    }
  }

  // ---------------------------------------------------------------- the three events

  lemma MergeSource(look: Look, input: Input, env: Env, prev: Option<Entry>, n: Note)
    requires n.what.AboutPrReady? || n.what.AboutPrMerged? || n.what.AboutMerged?
    ensures n in WorkspaceNotes(look, input, env, prev) <==>
              n in MergeNotes(look, input, env, prev, Entry4(look, input, env, prev))
  {
    var since, raised := Since(look, input, env, prev), Entry5(look, input, env, prev).attentionRaised;
    PartOf(look, input, env, prev, n);
    KindsEarly(look, input, env, since, Fresh(look, env, prev));
    KindsEarly(look, input, env, since, Entry1(look, input, env, prev));
    KindsEarly(look, input, env, since, Entry2(look, input, env, prev));
    KindsLate(look, input, env, prev, Entry4(look, input, env, prev));
    OwnItems(look, env, ItemsBefore(prev), Pending(input, env, look.now),
             raised && !AllowanceReturns(input, env, look.now, prev));
  }

  /** Whether the rule says this of a pull request, by what is known of it and whether a merge counts as told. */
  ghost predicate PrSaid(look: Look, input: Input, env: Env, known: Known, told: bool, n: Note)
    requires n.what.AboutPrReady? || n.what.AboutPrMerged?
  {
    && env.path in input.pullRequests && input.pullRequests[env.path].Some? && known != Unlooked && Loud(look, Finished)
    && var pr := input.pullRequests[env.path];
    var same := known.Pr? && known.number == pr.value.number;
    && n.what.number == pr.value.number && n.category == Finished && n.target == ToPr(env.path)
    && if n.what.AboutPrReady? then ReadyPr(pr) && !(same && known.ready)
       else DonePr(pr) && !(same && known.merged) && !told
  }

  lemma PrNotesAre(look: Look, input: Input, env: Env, prev: Option<Entry>, e: Entry, n: Note)
    requires n.what.AboutPrReady? || n.what.AboutPrMerged?
    ensures n in MergeNotes(look, input, env, prev, e) <==> PrSaid(look, input, env, e.pr, e.mergeNotified, n)
  {
  }

  lemma PrSource(look: Look, input: Input, env: Env, prev: Option<Entry>, n: Note)
    requires n.what.AboutPrReady? || n.what.AboutPrMerged?
    ensures n in WorkspaceNotes(look, input, env, prev) <==>
              PrSaid(look, input, env, PrBefore(prev), ToldBefore(prev), n)
  {
    LateKeepsMerge(look, input, env, prev);
    MergeSource(look, input, env, prev, n);
    PrNotesAre(look, input, env, prev, Entry4(look, input, env, prev), n);
  }

  lemma PrSaysAt(look: Look, input: Input, env: Env, prev: Option<Entry>, w: What)
    requires w.AboutPrReady? || w.AboutPrMerged?
    ensures Speaks(WorkspaceNotes(look, input, env, prev), w) <==>
              Note(w, Finished, ToPr(env.path)) in WorkspaceNotes(look, input, env, prev)
  {
    if Speaks(WorkspaceNotes(look, input, env, prev), w) {
      var m: Note :| m in WorkspaceNotes(look, input, env, prev) && m.what == w;
      PrSource(look, input, env, prev, m);
      assert m == Note(w, Finished, ToPr(env.path));
    }
  }

  lemma BranchNotesAre(look: Look, input: Input, env: Env, prev: Option<Entry>, e: Entry, n: Note)
    requires n.what.AboutMerged?
    ensures n in MergeNotes(look, input, env, prev, e) <==>
              && prev.Some? && e.mergedInto.Some? && prev.value.mergedInto.None? && !MergeTold(input, env, e)
              && Loud(look, Finished) && n == Note(AboutMerged, Finished, ToWorkspace(env.path))
  {
  }

  lemma BranchSource(look: Look, input: Input, env: Env, prev: Option<Entry>, n: Note)
    requires n.what.AboutMerged?
    ensures n in WorkspaceNotes(look, input, env, prev) <==>
              && prev.Some? && (if env.git.Some? then env.git.value else IntoBefore(prev)).Some?
              && IntoBefore(prev).None?
              && !MergeTold(input, env, Entry4(look, input, env, prev)) && Loud(look, Finished)
              && n == Note(AboutMerged, Finished, ToWorkspace(env.path))
  {
    LateKeepsMerge(look, input, env, prev);
    MergeSource(look, input, env, prev, n);
    BranchNotesAre(look, input, env, prev, Entry4(look, input, env, prev), n);
  }

  lemma BranchSaysAt(look: Look, input: Input, env: Env, prev: Option<Entry>)
    ensures Speaks(WorkspaceNotes(look, input, env, prev), AboutMerged) <==>
              && prev.Some? && (if env.git.Some? then env.git.value else IntoBefore(prev)).Some?
              && IntoBefore(prev).None?
              && !MergeTold(input, env, Entry4(look, input, env, prev)) && Loud(look, Finished)
  {
    BranchSource(look, input, env, prev, Note(AboutMerged, Finished, ToWorkspace(env.path)));
    if Speaks(WorkspaceNotes(look, input, env, prev), AboutMerged) {
      var m: Note :| m in WorkspaceNotes(look, input, env, prev) && m.what == AboutMerged;
      BranchSource(look, input, env, prev, m);
    }
  }

  /** A pull request was told of before, and it is ready for review now, as it was not then. */
  ghost predicate PrTurnsReady(run: seq<Record>, k: nat, path: string) {
    && PrAt(run, k, path) && ReadyPr(PrOf(run, k, path))
    && exists i: nat ::
         LastPr(run, i, k, path) && !(SameNumber(PrOf(run, i, path), PrOf(run, k, path)) && ReadyPr(PrOf(run, i, path)))
  }

  lemma ReadyIs(run: seq<Record>, k: nat, path: string, known: Known)
    requires k < |run| && KnowsPr(run, k, path, known)
    ensures PrTurnsReady(run, k, path) <==>
              && PrAt(run, k, path) && ReadyPr(PrOf(run, k, path)) && known != Unlooked
              && !(known.Pr? && known.number == PrOf(run, k, path).value.number && known.ready)
  {
    if known != Unlooked {
      var i: nat :| LastPr(run, i, k, path);
      forall j: nat | LastPr(run, j, k, path) ensures j == i {
        OneLastPr(run, i, j, k, path);
      }
    }
  }

  /**
   Over every run, "ready for review" is said of a pull request exactly by a look that may speak and finds it
   turned so: open and no draft, as the last look told about the workspace's pull request did not find it.
   */
  lemma PrReadyExactly(run: seq<Record>, k: nat, path: string, number: int)
    requires FromStart(run) && k < |run|
    ensures SaysOf(run[k], path, AboutPrReady(number)) <==>
              && PrTurnsReady(run, k, path) && PrOf(run, k, path).value.number == number && MaySpeak(run, k, Finished)
  {
    SaysExactly(run, k, path, AboutPrReady(number));
    AlwaysKnowsMerge(run, k, path);
    LoudIs(run, k, Finished);
    if EntryBefore(run, k, path).None? { NothingTold(run, k, path); }
    ReadyIs(run, k, path, PrBefore(EntryBefore(run, k, path)));
    if Visits(run, k, path) {
      var look, input, env, prev := LookOf(run[k].prev, run[k].turn), run[k].turn.input, EnvAt(run, k, path),
                                    EntryBefore(run, k, path);
      ListedPath(run, k, path);
      PrSaysAt(look, input, env, prev, AboutPrReady(number));
      PrSource(look, input, env, prev, Note(AboutPrReady(number), Finished, ToPr(env.path)));
    }
  }

  /** "Merged" is said of one exactly by a look that may speak and finds it turned so, when no merge counts as told. */
  lemma PrMergedExactly(run: seq<Record>, k: nat, path: string, number: int)
    requires FromStart(run) && k < |run|
    ensures SaysOf(run[k], path, AboutPrMerged(number)) <==>
              && PrTurnsDone(run, k, path) && PrOf(run, k, path).value.number == number
              && !Told(run, k, path) && MaySpeak(run, k, Finished)
  {
    SaysExactly(run, k, path, AboutPrMerged(number));
    AlwaysKnowsMerge(run, k, path);
    LoudIs(run, k, Finished);
    if EntryBefore(run, k, path).None? { NothingTold(run, k, path); }
    TurnsIs(run, k, path, PrBefore(EntryBefore(run, k, path)));
    if Visits(run, k, path) {
      ListedPath(run, k, path);
      var look, input, env, prev := LookOf(run[k].prev, run[k].turn), run[k].turn.input, EnvAt(run, k, path),
                                    EntryBefore(run, k, path);
      PrSaysAt(look, input, env, prev, AboutPrMerged(number));
      PrSource(look, input, env, prev, Note(AboutPrMerged(number), Finished, ToPr(env.path)));
    }
  }

  /**
   "Merged into" is said exactly by a look that may speak and finds the branch turned so, when no merge
   counts as told.
   */
  lemma BranchMergedExactly(run: seq<Record>, k: nat, path: string)
    requires FromStart(run) && k < |run|
    ensures SaysOf(run[k], path, AboutMerged) <==>
              && BranchTurnsMerged(run, k, path) && !Told(run, k, path)
              && !PrTurnsDone(run, k, path) && !PrFoundDone(run, k, path) && MaySpeak(run, k, Finished)
  {
    SaysExactly(run, k, path, AboutMerged);
    AlwaysKnowsMerge(run, k, path);
    LoudIs(run, k, Finished);
    SeenIs(run, k, path);
    var prev := EntryBefore(run, k, path);
    if prev.None? { NothingTold(run, k, path); }
    TurnsIs(run, k, path, PrBefore(prev));
    if Visits(run, k, path) {
      var look, input, env := LookOf(run[k].prev, run[k].turn), run[k].turn.input, EnvAt(run, k, path);
      ListedPath(run, k, path);
      ListedStays(run, k, path);
      InBranchNext(run, k, path);
      BranchSaysAt(look, input, env, prev);
      ToldIs(look, input, env, prev);
    }
  }

  lemma ToldOf(input: Input, env: Env, e: Entry)
    ensures var looked := env.path in input.pullRequests;
            var pr := if looked then input.pullRequests[env.path] else None;
            MergeTold(input, env, e) <==>
              || e.mergeNotified
              || (looked && DonePr(pr) && e.pr != Unlooked
                  && !(e.pr.Pr? && e.pr.number == pr.value.number && e.pr.merged))
              || (looked && DonePr(pr) && e.pr == Unlooked)
  {
  }

  lemma ToldIs(look: Look, input: Input, env: Env, prev: Option<Entry>)
    ensures var known, looked := PrBefore(prev), env.path in input.pullRequests;
            var pr := if looked then input.pullRequests[env.path] else None;
            MergeTold(input, env, Entry4(look, input, env, prev)) <==>
              || ToldBefore(prev)
              || (looked && DonePr(pr) && known != Unlooked
                  && !(known.Pr? && known.number == pr.value.number && known.merged))
              || (looked && DonePr(pr) && known == Unlooked)
  {
    LateKeepsMerge(look, input, env, prev);
    ToldOf(input, env, Entry4(look, input, env, prev));
  }
}
