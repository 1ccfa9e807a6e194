/**
 When the events of a workspace are owed, over every run from its first look on: what an entry remembers
 is what the looks read, and each event is said exactly when the looks so far make it due.
 */
module OversightOwed {
  import opened Options
  import opened OversightModel
  import opened OversightWake
  import opened OversightRuns
  import opened OversightEpisodes
  import opened OversightQuiet
  import opened OversightSigns

  ghost predicate FromStart(run: seq<Record>) {
    Orderly(run) && (run != [] ==> run[0].prev.None?)
  }

  // ---------------------------------------------------------------- what the looks read

  /** Look `i` lists the workspace. */
  ghost predicate Visits(run: seq<Record>, i: nat, path: string) {
    i < |run| && Listed(run[i].turn, path).Some?
  }

  function EnvAt(run: seq<Record>, i: nat, path: string): Env
    requires i < |run| && Listed(run[i].turn, path).Some?
  {
    Listed(run[i].turn, path).value
  }

  ghost predicate DrivenAt(run: seq<Record>, i: nat, path: string) {
    Visits(run, i, path) && AgentDrives(run[i].turn.input, EnvAt(run, i, path))
  }

  ghost predicate WarmAt(run: seq<Record>, i: nat, path: string) {
    Visits(run, i, path) && EnvAt(run, i, path).phase == Warming
  }

  ghost predicate EndsAt(run: seq<Record>, i: nat, path: string) {
    Visits(run, i, path) && NoSession(EnvAt(run, i, path))
  }

  /** The workspace is remembered from look `i` until before look `k`. */
  ghost predicate Keeps(run: seq<Record>, i: nat, k: nat, path: string) {
    k <= |run| && forall m | i <= m < k :: path in run[m].next.workspaces
  }

  /** `t` is the time of the last look before look `k` that found the workspace driven. */
  ghost predicate LastDriven(run: seq<Record>, k: nat, path: string, t: int) {
    exists i: nat ::
      && i < k <= |run| && DrivenAt(run, i, path) && Keeps(run, i, k, path) && run[i].turn.now == t
      && forall j: nat | i < j < k :: !DrivenAt(run, j, path)
  }

  /** Looks `h` and `i` are the last two visits up to look `i`. */
  ghost predicate Successive(run: seq<Record>, h: nat, i: nat, path: string) {
    && h < i && Visits(run, h, path) && Visits(run, i, path) && Keeps(run, h, i, path)
    && forall j: nat | h < j < i :: !Visits(run, j, path)
  }

  /** The count of errors is another than at the visit before. */
  ghost predicate ErrorsAt(run: seq<Record>, i: nat, path: string) {
    exists h: nat :: Successive(run, h, i, path) && EnvAt(run, h, path).errors != EnvAt(run, i, path).errors
  }

  ghost predicate LastErrors(run: seq<Record>, k: nat, path: string, t: int) {
    exists i: nat :: i < k <= |run| && ErrorsFrom(run, i, k, path) && run[i].turn.now == t
  }

  ghost predicate ErrorsFrom(run: seq<Record>, i: nat, k: nat, path: string)
    requires i < k <= |run|
  {
    ErrorsAt(run, i, path) && Keeps(run, i, k, path) && forall j: nat | i < j < k :: !ErrorsAt(run, j, path)
  }

  /** A sign of work, as look `k` sees it when nobody drives. */
  ghost predicate SignAt(run: seq<Record>, k: nat, path: string, t: int)
    requires Visits(run, k, path)
  {
    ShowsWork(EnvAt(run, k, path), t) || LastErrors(run, k + 1, path, t) || LastDriven(run, k, path, t)
  }

  /** An agent drove, and since then no look found the workspace without a session or the work stopped. */
  ghost predicate DroveSince(run: seq<Record>, k: nat, path: string)
    requires k <= |run|
    decreases k, 0, 1
  {
    exists i: nat :: i < k && DroveFrom(run, i, k, path)
  }

  ghost predicate DroveFrom(run: seq<Record>, i: nat, k: nat, path: string)
    requires i < k <= |run|
    decreases k, 0, 0
  {
    && DrivenAt(run, i, path) && Keeps(run, i, k, path)
    && forall j: nat | i <= j < k :: !EndsAt(run, j, path) && !Stops(run, j, path)
  }

  /**
   The agent's work stops at this look: it drove, nobody drives now, the newest build is green and none runs,
   and the session is over or every sign of work is five minutes old.
   */
  ghost predicate Stops(run: seq<Record>, k: nat, path: string)
    requires k < |run|
    decreases k, 1, 0
  {
    && Visits(run, k, path) && DroveSince(run, k, path) && !DrivenAt(run, k, path)
    && NewestOk(EnvAt(run, k, path)) && !BuildRuns(EnvAt(run, k, path))
    && (EndsAt(run, k, path) || forall t: int | SignAt(run, k, path, t) :: t + 300_000 <= run[k].turn.now)
  }

  /** It stopped before, in this session. */
  ghost predicate StoppedSince(run: seq<Record>, k: nat, path: string)
    requires k <= |run|
  {
    exists i: nat :: i < k && Stops(run, i, path) && SameSession(run, i, k, path)
  }

  ghost predicate WarmedSince(run: seq<Record>, k: nat, path: string)
    requires k <= |run|
  {
    exists i: nat :: i < k && WarmAt(run, i, path) && SameSession(run, i, k, path)
  }

  /** The workspace is remembered and no look finds it without a session, from look `i` until before look `k`. */
  ghost predicate SameSession(run: seq<Record>, i: nat, k: nat, path: string) {
    Keeps(run, i, k, path) && forall j: nat | i <= j < k :: !EndsAt(run, j, path)
  }

  /** The look may speak of this category: it is not the first, not in quiet hours, and the category is on. */
  ghost predicate MaySpeak(run: seq<Record>, k: nat, c: Category)
    requires k < |run|
  {
    run[k].prev.Some? && !run[k].turn.prefs.quiet && c in run[k].turn.prefs.categories
  }

  // ---------------------------------------------------------------- one look more

  lemma KeepsMore(run: seq<Record>, i: nat, k: nat, path: string)
    requires i <= k < |run|
    ensures Keeps(run, i, k + 1, path) <==> Keeps(run, i, k, path) && path in run[k].next.workspaces
  {
  }

  lemma DroveFromMore(run: seq<Record>, i: nat, k: nat, path: string)
    requires i < k < |run|
    ensures DroveFrom(run, i, k + 1, path) <==>
              DroveFrom(run, i, k, path) && path in run[k].next.workspaces && !EndsAt(run, k, path)
              && !Stops(run, k, path)
  {
    KeepsMore(run, i, k, path);
  }

  lemma DroveWitness(run: seq<Record>, k: nat, path: string) returns (i: nat)
    requires k <= |run| && DroveSince(run, k, path)
    ensures i < k && DroveFrom(run, i, k, path)
  {
    i :| i < k && DroveFrom(run, i, k, path);
  }

  lemma DroveNext(run: seq<Record>, k: nat, path: string)
    requires k < |run|
    ensures DroveSince(run, k + 1, path) <==>
              && path in run[k].next.workspaces && (DrivenAt(run, k, path) || DroveSince(run, k, path))
              && !EndsAt(run, k, path) && !Stops(run, k, path)
  {
    var goes := path in run[k].next.workspaces && !EndsAt(run, k, path) && !Stops(run, k, path);
    assert DroveFrom(run, k, k + 1, path) <==> DrivenAt(run, k, path) && goes;
    if DroveSince(run, k + 1, path) {
      var i: nat :| i < k + 1 && DroveFrom(run, i, k + 1, path);
      if i < k {
        DroveFromMore(run, i, k, path);
        assert DroveSince(run, k, path);
      }
    }
    if goes && DroveSince(run, k, path) {
      var i := DroveWitness(run, k, path);
      DroveFromMore(run, i, k, path);
    }
  }

  lemma SessionMore(run: seq<Record>, i: nat, k: nat, path: string)
    requires i <= k < |run|
    ensures SameSession(run, i, k + 1, path) <==>
              SameSession(run, i, k, path) && path in run[k].next.workspaces && !EndsAt(run, k, path)
  {
    KeepsMore(run, i, k, path);
  }

  lemma StoppedNext(run: seq<Record>, k: nat, path: string)
    requires k < |run|
    ensures StoppedSince(run, k + 1, path) <==>
              path in run[k].next.workspaces && (Stops(run, k, path) || StoppedSince(run, k, path))
              && !EndsAt(run, k, path)
  {
    if StoppedSince(run, k + 1, path) {
      var i: nat :| i < k + 1 && Stops(run, i, path) && SameSession(run, i, k + 1, path);
      SessionMore(run, i, k, path);
    }
    if StoppedSince(run, k, path) {
      var i: nat :| i < k && Stops(run, i, path) && SameSession(run, i, k, path);
      SessionMore(run, i, k, path);
    }
    SessionMore(run, k, k, path);
  }

  lemma WarmedNext(run: seq<Record>, k: nat, path: string)
    requires k < |run|
    ensures WarmedSince(run, k + 1, path) <==>
              path in run[k].next.workspaces && (WarmAt(run, k, path) || WarmedSince(run, k, path))
              && !EndsAt(run, k, path)
  {
    if WarmedSince(run, k + 1, path) {
      var i: nat :| i < k + 1 && WarmAt(run, i, path) && SameSession(run, i, k + 1, path);
      SessionMore(run, i, k, path);
    }
    if WarmedSince(run, k, path) {
      var i: nat :| i < k && WarmAt(run, i, path) && SameSession(run, i, k, path);
      SessionMore(run, i, k, path);
    }
    SessionMore(run, k, k, path);
  }

  lemma LastDrivenNext(run: seq<Record>, k: nat, path: string, t: int)
    requires k < |run|
    ensures LastDriven(run, k + 1, path, t) <==>
              && path in run[k].next.workspaces
              && if DrivenAt(run, k, path) then run[k].turn.now == t else LastDriven(run, k, path, t)
  {
    if LastDriven(run, k + 1, path, t) {
      var i: nat :| i < k + 1 <= |run| && DrivenAt(run, i, path) && Keeps(run, i, k + 1, path) && run[i].turn.now == t
                    && forall j: nat | i < j < k + 1 :: !DrivenAt(run, j, path);
      KeepsMore(run, i, k, path);
      assert i == k || !DrivenAt(run, k, path);
    }
    if LastDriven(run, k, path, t) {
      var i: nat :| i < k <= |run| && DrivenAt(run, i, path) && Keeps(run, i, k, path) && run[i].turn.now == t
                    && forall j: nat | i < j < k :: !DrivenAt(run, j, path);
      KeepsMore(run, i, k, path);
    }
    KeepsMore(run, k, k, path);
  }

  lemma ErrorsFromMore(run: seq<Record>, i: nat, k: nat, path: string)
    requires i < k < |run|
    ensures ErrorsFrom(run, i, k + 1, path) <==>
              ErrorsFrom(run, i, k, path) && path in run[k].next.workspaces && !ErrorsAt(run, k, path)
  {
    KeepsMore(run, i, k, path);
  }

  lemma LastErrorsNext(run: seq<Record>, k: nat, path: string, t: int)
    requires k < |run|
    ensures LastErrors(run, k + 1, path, t) <==>
              && path in run[k].next.workspaces
              && if ErrorsAt(run, k, path) then run[k].turn.now == t else LastErrors(run, k, path, t)
  {
    forall i: nat | i < k
      ensures ErrorsFrom(run, i, k + 1, path) <==>
                ErrorsFrom(run, i, k, path) && path in run[k].next.workspaces && !ErrorsAt(run, k, path)
    {
      ErrorsFromMore(run, i, k, path);
    }
    assert ErrorsFrom(run, k, k + 1, path) <==> ErrorsAt(run, k, path) && path in run[k].next.workspaces;
  }

  // ---------------------------------------------------------------- what an entry remembers

  function ErrorsSince(look: Look, env: Env, prev: Option<Entry>): Stamp {
    if prev.None? then None else if prev.value.errors != env.errors then Some(look.now) else prev.value.errorsAt
  }

  function DrivenBefore(prev: Option<Entry>): Stamp {
    if prev.None? then None else prev.value.drivenAt
  }

  /** What one look leaves in an entry, if the work stops at it or not. */
  ghost predicate Leaves1(look: Look, input: Input, env: Env, prev: Option<Entry>, stop: bool, e: Entry) {
    var d, ends := AgentDrives(input, env), NoSession(env);
    var done := stop || (prev.Some? && prev.value.finished && !d);
    && (e.drove <==> ((prev.Some? && prev.value.drove) || d) && !ends && !done)
    && (e.driveNotified <==> ((prev.Some? && prev.value.driveNotified) || d) && !ends && !done)
    && (e.finished <==> done && !ends)
    && (e.finishedInRun <==> ((prev.Some? && prev.value.finishedInRun) || stop) && !ends)
    && (e.warmed <==> ((prev.Some? && prev.value.warmed) || env.phase == Warming) && !ends)
    && e.drivenAt == (if d then Some(look.now) else DrivenBefore(prev))
    && e.errorsAt == ErrorsSince(look, env, prev) && e.errors == env.errors && e.seenAt == look.now
  }

  lemma EarlyLeaves(look: Look, input: Input, env: Env, prev: Option<Entry>)
    ensures Leaves1(look, input, env, prev, Finishes(look, input, env, Entry1(look, input, env, prev)),
                    Entry2(look, input, env, prev))
  {
    DrivesIs(input, env);
    ReadingsAre(env);
  }

  lemma LookLeaves(look: Look, input: Input, env: Env, prev: Option<Entry>)
    ensures Leaves1(look, input, env, prev, Finishes(look, input, env, Entry1(look, input, env, prev)),
                    NextEntry(look, input, env, prev))
  {
    EarlyLeaves(look, input, env, prev);
  }

  /** When a look finds the work stopped, in the words of the input. */
  lemma StopIs(look: Look, input: Input, env: Env, prev: Option<Entry>)
    requires prev.Some? && prev.value.drove ==> !prev.value.finished && prev.value.drivenAt.Some?
    ensures Finishes(look, input, env, Entry1(look, input, env, prev)) <==>
              && prev.Some? && prev.value.drove && !AgentDrives(input, env) && NewestOk(env) && !BuildRuns(env)
              && (NoSession(env) || forall t: int | Sign(env, ErrorsSince(look, env, prev), DrivenBefore(prev), t) ::
                    t <= look.now - 300_000)
  {
    DrivesIs(input, env);
    ReadingsAre(env);
    if prev.Some? && prev.value.drove && !AgentDrives(input, env) {
      var errors, driven := ErrorsSince(look, env, prev), DrivenBefore(prev);
      var s := LastActivity(env, errors, driven);
      ActivityLatest(env, errors, driven);
      assert Sign(env, errors, driven, driven.value);
      assert driven.value in iset t: int | Sign(env, errors, driven, t);
      AllSo(s, env, errors, driven, look.now - 300_000);
    }
  }

  /** Look `h` is the last visit before look `k`, and the workspace is remembered since. */
  ghost predicate LastVisit(run: seq<Record>, h: nat, k: nat, path: string) {
    h < k <= |run| && Visits(run, h, path) && Keeps(run, h, k, path) && forall j: nat | h < j < k ::
                                                                          !Visits(run, j, path)
  }

  /** The entry before look `k` holds what the looks before it read. */
  ghost predicate Holds(run: seq<Record>, k: nat, path: string, e: Entry)
    requires k <= |run|
  {
    && (e.drove <==> DroveSince(run, k, path)) && (e.driveNotified <==> DroveSince(run, k, path))
    && (e.drove ==> !e.finished && e.drivenAt.Some?)
    && (e.finishedInRun <==> StoppedSince(run, k, path)) && (e.warmed <==> WarmedSince(run, k, path))
  }

  ghost predicate Dates(run: seq<Record>, k: nat, path: string, e: Entry) {
    && (forall t: int :: e.drivenAt == Some(t) <==> LastDriven(run, k, path, t))
    && (forall t: int :: e.errorsAt == Some(t) <==> LastErrors(run, k, path, t))
    && exists h: nat ::
         LastVisit(run, h, k, path) && e.errors == EnvAt(run, h, path).errors && e.seenAt == run[h].turn.now
  }

  /** The entry of the workspace before look `k`. */
  function EntryBefore(run: seq<Record>, k: nat, path: string): Option<Entry>
    requires k <= |run|
  {
    if k > 0 && path in run[k - 1].next.workspaces then Some(run[k - 1].next.workspaces[path]) else None
  }

  lemma BeforeIs(run: seq<Record>, k: nat, path: string)
    requires FromStart(run) && k < |run|
    ensures Before(run[k].prev, path) == EntryBefore(run, k, path)
  {
    if k > 0 { assert run[k].prev == Some(run[k - 1].next); }
  }

  /** Without an entry there is nothing to remember. */
  lemma NothingBefore(run: seq<Record>, k: nat, path: string)
    requires k <= |run| && EntryBefore(run, k, path).None?
    ensures !DroveSince(run, k, path) && !StoppedSince(run, k, path) && !WarmedSince(run, k, path)
    ensures forall t: int :: !LastDriven(run, k, path, t) && !LastErrors(run, k, path, t)
    ensures forall h: nat :: !LastVisit(run, h, k, path)
  {
    forall i: nat | i < k ensures !Keeps(run, i, k, path) {
      assert path !in run[k - 1].next.workspaces;
    }
  }

  lemma ErrorsAtIs(run: seq<Record>, k: nat, path: string)
    requires k < |run| && Visits(run, k, path)
    requires EntryBefore(run, k, path).Some? ==> Dates(run, k, path, EntryBefore(run, k, path).value)
    ensures ErrorsAt(run, k, path) <==>
              EntryBefore(run, k, path).Some? && EntryBefore(run, k, path).value.errors != EnvAt(run, k, path).errors
  {
    if EntryBefore(run, k, path).None? {
      NothingBefore(run, k, path);
      forall h: nat ensures !Successive(run, h, k, path) {
        assert !LastVisit(run, h, k, path);
      }
    } else {
      var e := EntryBefore(run, k, path).value;
      var h: nat :| LastVisit(run, h, k, path) && e.errors == EnvAt(run, h, path).errors && e.seenAt == run[h].turn.now;
      assert Successive(run, h, k, path);
      forall h': nat | Successive(run, h', k, path) ensures h' == h {
        assert Visits(run, h, path) && Visits(run, h', path);
      }
    }
  }

  lemma SignsAre(run: seq<Record>, k: nat, path: string, look: Look)
    requires FromStart(run) && Visits(run, k, path) && look.now == run[k].turn.now && path in run[k].next.workspaces
    requires EntryBefore(run, k, path).Some? ==> Dates(run, k, path, EntryBefore(run, k, path).value)
    ensures var env, prev := EnvAt(run, k, path), EntryBefore(run, k, path);
            && (forall t: int :: DrivenBefore(prev) == Some(t) <==> LastDriven(run, k, path, t))
            && (forall t: int :: ErrorsSince(look, env, prev) == Some(t) <==> LastErrors(run, k + 1, path, t))
  {
    ErrorsAtIs(run, k, path);
    if EntryBefore(run, k, path).None? { NothingBefore(run, k, path); }
    forall t: int
      ensures ErrorsSince(look, EnvAt(run, k, path), EntryBefore(run, k, path)) == Some(t) <==>
                LastErrors(run, k + 1, path, t)
    {
      LastErrorsNext(run, k, path, t);
    }
  }

  ghost predicate Known(run: seq<Record>, k: nat, path: string)
    requires k <= |run|
  {
    EntryBefore(run, k, path).Some? ==>
      Holds(run, k, path, EntryBefore(run, k, path).value) && Dates(run, k, path, EntryBefore(run, k, path).value)
  }

  lemma AllOld(run: seq<Record>, k: nat, path: string, look: Look)
    requires FromStart(run) && Visits(run, k, path) && look.now == run[k].turn.now && path in run[k].next.workspaces
    requires EntryBefore(run, k, path).Some? ==> Dates(run, k, path, EntryBefore(run, k, path).value)
    ensures var env, prev := EnvAt(run, k, path), EntryBefore(run, k, path);
            (forall t: int | Sign(env, ErrorsSince(look, env, prev), DrivenBefore(prev), t) ::
               t <= look.now - 300_000) <==>
              forall t: int | SignAt(run, k, path, t) :: t + 300_000 <= run[k].turn.now
  {
    var env, prev := EnvAt(run, k, path), EntryBefore(run, k, path);
    SignsAre(run, k, path, look);
    forall t: int
      ensures Sign(env, ErrorsSince(look, env, prev), DrivenBefore(prev), t) <==> SignAt(run, k, path, t)
    {
    }
  }

  /** At a visit the rule stops exactly when the reading does. */
  lemma StopsAre(run: seq<Record>, k: nat, path: string)
    requires FromStart(run) && Visits(run, k, path) && Known(run, k, path)
    ensures var look, env, prev := LookOf(run[k].prev, run[k].turn), EnvAt(run, k, path), EntryBefore(run, k, path);
            Finishes(look, run[k].turn.input, env, Entry1(look, run[k].turn.input, env, prev)) <==> Stops(run, k, path)
  {
    var look, env, prev := LookOf(run[k].prev, run[k].turn), EnvAt(run, k, path), EntryBefore(run, k, path);
    ListedStays(run, k, path);
    StopIs(look, run[k].turn.input, env, prev);
    AllOld(run, k, path, look);
    if prev.None? { NothingBefore(run, k, path); }
  }

  lemma ListedStays(run: seq<Record>, k: nat, path: string)
    requires FromStart(run) && Visits(run, k, path)
    ensures path in run[k].next.workspaces
  {
    EntryRule(run, k, path);
  }

  /** A look that does not list the workspace leaves its entry, if it keeps it, and what is remembered. */
  lemma AbsentKnown(run: seq<Record>, k: nat, path: string)
    requires FromStart(run) && k < |run| && Known(run, k, path) && !Visits(run, k, path)
    ensures Known(run, k + 1, path)
  {
    EntryRule(run, k, path);
    BeforeIs(run, k, path);
    if path in run[k].next.workspaces {
      var e := EntryBefore(run, k, path).value;
      assert !DrivenAt(run, k, path) && !EndsAt(run, k, path) && !Stops(run, k, path) && !WarmAt(run, k, path)
             && !ErrorsAt(run, k, path);
      DroveNext(run, k, path);
      StoppedNext(run, k, path);
      WarmedNext(run, k, path);
      forall t: int
        ensures LastDriven(run, k + 1, path, t) <==> LastDriven(run, k, path, t)
        ensures LastErrors(run, k + 1, path, t) <==> LastErrors(run, k, path, t)
      {
        LastDrivenNext(run, k, path, t);
        LastErrorsNext(run, k, path, t);
      }
      var h: nat :| LastVisit(run, h, k, path) && e.errors == EnvAt(run, h, path).errors && e.seenAt == run[h].turn.now;
      KeepsMore(run, h, k, path);
      assert LastVisit(run, h, k + 1, path);
    }
  }

  lemma VisitHolds(run: seq<Record>, k: nat, path: string)
    requires FromStart(run) && Visits(run, k, path) && Known(run, k, path)
    ensures EntryBefore(run, k + 1, path).Some? && Holds(run, k + 1, path, EntryBefore(run, k + 1, path).value)
  {
    var look, env, prev := LookOf(run[k].prev, run[k].turn), EnvAt(run, k, path), EntryBefore(run, k, path);
    EntryRule(run, k, path);
    BeforeIs(run, k, path);
    LookLeaves(look, run[k].turn.input, env, prev);
    StopsAre(run, k, path);
    if prev.None? { NothingBefore(run, k, path); }
    DroveNext(run, k, path);
    StoppedNext(run, k, path);
    WarmedNext(run, k, path);
  }

  lemma VisitDates(run: seq<Record>, k: nat, path: string)
    requires FromStart(run) && Visits(run, k, path) && Known(run, k, path)
    ensures EntryBefore(run, k + 1, path).Some? && Dates(run, k + 1, path, EntryBefore(run, k + 1, path).value)
  {
    var look, env, prev := LookOf(run[k].prev, run[k].turn), EnvAt(run, k, path), EntryBefore(run, k, path);
    EntryRule(run, k, path);
    BeforeIs(run, k, path);
    LookLeaves(look, run[k].turn.input, env, prev);
    SignsAre(run, k, path, look);
    forall t: int ensures EntryBefore(run, k + 1, path).value.drivenAt == Some(t) <==> LastDriven(run, k + 1, path, t) {
      LastDrivenNext(run, k, path, t);
    }
    assert LastVisit(run, k, k + 1, path);
  }

  /** Over every run, an entry holds what the looks read. */
  lemma {:induction false} AlwaysKnown(run: seq<Record>, k: nat, path: string)
    requires FromStart(run) && k <= |run|
    ensures Known(run, k, path)
    decreases k
  {
    if k > 0 {
      AlwaysKnown(run, k - 1, path);
      if Visits(run, k - 1, path) {
        VisitHolds(run, k - 1, path);
        VisitDates(run, k - 1, path);
      } else {
        AbsentKnown(run, k - 1, path);
      }
    }
  }

  // ---------------------------------------------------------------- warming, driving, stopping

  ghost predicate Speaks(notes: seq<Note>, w: What) {
    exists n: Note :: n in notes && n.what == w
  }

  /** The workspace's notifications at a visit. */
  function NotesAt(run: seq<Record>, k: nat, path: string): seq<Note>
    requires Visits(run, k, path)
  {
    WorkspaceNotes(LookOf(run[k].prev, run[k].turn), run[k].turn.input, EnvAt(run, k, path), EntryBefore(run, k, path))
  }

  /** What a rule of the workspace gives, the look says, and nothing else of that kind. */
  lemma SaysExactly(run: seq<Record>, k: nat, path: string, w: What)
    requires FromStart(run) && k < |run| && !OfMachine(w)
    ensures SaysOf(run[k], path, w) <==> Visits(run, k, path) && Speaks(NotesAt(run, k, path), w)
  {
    BeforeIs(run, k, path);
    if SaysOf(run[k], path, w) { var n := WorkspaceRule(run, k, path, w); }
    if Visits(run, k, path) && Speaks(NotesAt(run, k, path), w) {
      var n: Note :| n in NotesAt(run, k, path) && n.what == w;
      SaidOf(run, k, path, n);
    }
  }

  lemma EarlySource(look: Look, input: Input, env: Env, prev: Option<Entry>, n: Note)
    requires n.what.AboutWarming? || n.what.AboutDriving? || n.what.AboutStopped?
    ensures n in WorkspaceNotes(look, input, env, prev) <==>
              if n.what.AboutStopped? then n in FinishNotes(look, input, env, Entry1(look, input, env, prev))
              else n in StartNotes(look, input, env, Fresh(look, env, prev))
  {
    var since, raised := Since(look, input, env, prev), Entry5(look, input, env, prev).attentionRaised;
    PartOf(look, input, env, prev, n);
    KindsEarly(look, input, env, since, Fresh(look, env, prev));
    KindsEarly(look, input, env, since, Entry1(look, input, env, prev));
    KindsEarly(look, input, env, since, Entry2(look, input, env, prev));
    KindsLate(look, input, env, prev, Entry4(look, input, env, prev));
    OwnItems(look, env, ItemsBefore(prev), Pending(input, env, look.now),
             raised && !AllowanceReturns(input, env, look.now, prev));
  }

  lemma WarmingSays(look: Look, input: Input, env: Env, prev: Option<Entry>)
    ensures Speaks(WorkspaceNotes(look, input, env, prev), AboutWarming) <==>
              env.phase == Warming && !(prev.Some? && prev.value.warmed) && Loud(look, Started)
  {
    var n := Note(AboutWarming, Started, ToWorkspace(env.path));
    EarlySource(look, input, env, prev, n);
    if Speaks(WorkspaceNotes(look, input, env, prev), AboutWarming) {
      var m: Note :| m in WorkspaceNotes(look, input, env, prev) && m.what == AboutWarming;
      EarlySource(look, input, env, prev, m);
    }
  }

  lemma DrivingSource(look: Look, input: Input, env: Env, prev: Option<Entry>, n: Note)
    requires n.what == AboutDriving
    ensures n in WorkspaceNotes(look, input, env, prev) <==>
              && !(prev.Some? && prev.value.driveNotified) && Loud(look, Started) && n.category == Started
              && Driven(env, input).Some?
              && n.target == ToDevice(env.path, Driven(env, input).value.platform, Driven(env, input).value.slot)
  {
    EarlySource(look, input, env, prev, n);
  }

  lemma DrivingSays(look: Look, input: Input, env: Env, prev: Option<Entry>)
    ensures Speaks(WorkspaceNotes(look, input, env, prev), AboutDriving) <==>
              AgentDrives(input, env) && !(prev.Some? && prev.value.driveNotified) && Loud(look, Started)
  {
    DrivesIs(input, env);
    if Driven(env, input).Some? {
      var d := Driven(env, input).value;
      DrivingSource(look, input, env, prev, Note(AboutDriving, Started, ToDevice(env.path, d.platform, d.slot)));
    }
    if Speaks(WorkspaceNotes(look, input, env, prev), AboutDriving) {
      var m: Note :| m in WorkspaceNotes(look, input, env, prev) && m.what == AboutDriving;
      DrivingSource(look, input, env, prev, m);
    }
  }

  /** The notification names the first device an agent drives. */
  lemma DrivingNames(look: Look, input: Input, env: Env, prev: Option<Entry>, n: Note)
    requires n in WorkspaceNotes(look, input, env, prev) && n.what == AboutDriving
    ensures exists d: Device :: FirstToDrive(input, env, d) && n.target == ToDevice(env.path, d.platform, d.slot)
  {
    DrivesIs(input, env);
    DrivingSource(look, input, env, prev, n);
  }

  lemma StoppingSays(look: Look, input: Input, env: Env, prev: Option<Entry>)
    ensures Speaks(WorkspaceNotes(look, input, env, prev), AboutStopped) <==>
              && Finishes(look, input, env, Entry1(look, input, env, prev))
              && !(prev.Some? && prev.value.finishedInRun) && Loud(look, Finished)
  {
    var n := Note(AboutStopped, Finished, ToWorkspace(env.path));
    EarlySource(look, input, env, prev, n);
    if Speaks(WorkspaceNotes(look, input, env, prev), AboutStopped) {
      var m: Note :| m in WorkspaceNotes(look, input, env, prev) && m.what == AboutStopped;
      EarlySource(look, input, env, prev, m);
    }
  }

  lemma LoudIs(run: seq<Record>, k: nat, c: Category)
    requires k < |run|
    ensures Loud(LookOf(run[k].prev, run[k].turn), c) <==> MaySpeak(run, k, c)
  {
  }

  /**
   Over every run, "warming" is said of a workspace exactly by a look that may speak and finds it warming,
   when no look since its last session's end found it so.
   */
  lemma WarmingExactly(run: seq<Record>, k: nat, path: string)
    requires FromStart(run) && k < |run|
    ensures SaysOf(run[k], path, AboutWarming) <==>
              WarmAt(run, k, path) && !WarmedSince(run, k, path) && MaySpeak(run, k, Started)
  {
    SaysExactly(run, k, path, AboutWarming);
    AlwaysKnown(run, k, path);
    LoudIs(run, k, Started);
    if EntryBefore(run, k, path).None? { NothingBefore(run, k, path); }
    if Visits(run, k, path) {
      WarmingSays(LookOf(run[k].prev, run[k].turn), run[k].turn.input, EnvAt(run, k, path), EntryBefore(run, k, path));
    }
  }

  /**
   "Driving" is said exactly by a look that may speak and finds an agent driving, when none drove since the
   session's end or the last time the work stopped.
   */
  lemma DrivingExactly(run: seq<Record>, k: nat, path: string)
    requires FromStart(run) && k < |run|
    ensures SaysOf(run[k], path, AboutDriving) <==>
              DrivenAt(run, k, path) && !DroveSince(run, k, path) && MaySpeak(run, k, Started)
  {
    SaysExactly(run, k, path, AboutDriving);
    AlwaysKnown(run, k, path);
    LoudIs(run, k, Started);
    if EntryBefore(run, k, path).None? { NothingBefore(run, k, path); }
    if Visits(run, k, path) {
      DrivingSays(LookOf(run[k].prev, run[k].turn), run[k].turn.input, EnvAt(run, k, path), EntryBefore(run, k, path));
    }
  }

  /**
   "Agent stopped" is said exactly by a look that may speak and at which the work stops, if it did not stop
   before in this session.
   */
  lemma StoppedExactly(run: seq<Record>, k: nat, path: string)
    requires FromStart(run) && k < |run|
    ensures SaysOf(run[k], path, AboutStopped) <==>
              Stops(run, k, path) && !StoppedSince(run, k, path) && MaySpeak(run, k, Finished)
  {
    SaysExactly(run, k, path, AboutStopped);
    AlwaysKnown(run, k, path);
    LoudIs(run, k, Finished);
    if EntryBefore(run, k, path).None? { NothingBefore(run, k, path); }
    if Visits(run, k, path) {
      StopsAre(run, k, path);
      StoppingSays(LookOf(run[k].prev, run[k].turn), run[k].turn.input, EnvAt(run, k, path), EntryBefore(run, k, path));
    }
  }

  /**
   A workspace is remembered after a look exactly if it is listed, or was remembered and not absent for
   two minutes.
   */
  lemma RememberedExactly(run: seq<Record>, k: nat, path: string)
    requires FromStart(run) && k < |run|
    ensures path in run[k].next.workspaces <==>
              || Visits(run, k, path)
              || (exists h: nat :: LastVisit(run, h, k, path)
                                   && (run[k].turn.input.status.None? || run[k].turn.now - run[h].turn.now < 120_000))
  {
    AlwaysKnown(run, k, path);
    BeforeIs(run, k, path);
    EntryRule(run, k, path);
    assert Looked(run[k]);
    var prev := EntryBefore(run, k, path);
    if !Visits(run, k, path) {
      AbsentRemembered(run[k].prev, run[k].turn, path);
      if prev.None? {
        NothingBefore(run, k, path);
      } else {
        var h: nat :| LastVisit(run, h, k, path) && prev.value.errors == EnvAt(run, h, path).errors
        && prev.value.seenAt == run[h].turn.now;
        forall h': nat | LastVisit(run, h', k, path) ensures h' == h {
          assert Visits(run, h, path) && Visits(run, h', path);
        }
      }
    }
  }

  lemma AbsentRemembered(prev: Option<State>, t: Turn, path: string)
    requires Listed(t, path).None?
    ensures path in Take(prev, t).state.workspaces <==>
              Before(prev, path).Some? && (t.input.status.None? || t.now - Before(prev, path).value.seenAt < FORGET_MS)
  {
    if t.input.status.Some? {
      var i := FindIndex(Envs(t.input), path);
      Uncollected(EntryOn(LookOf(prev, t), t.input, prev), Envs(t.input), path);
    }
  }
}
