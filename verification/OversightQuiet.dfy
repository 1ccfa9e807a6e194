/**
 Quiet hours over runs: nothing is said in them or on a first look; a lasting problem that was held
 back is said at the first look after them; and an event missed in them is never made up for, since
 what later looks say of events does not depend on what earlier ones were allowed to say.
 */
module OversightQuiet {
  import opened Options
  import opened OversightModel
  import opened OversightWake
  import opened OversightRuns
  import opened OversightEpisodes

  // ---------------------------------------------------------------- nothing is said

  ghost predicate Muted(look: Look) {
    look.baseline || look.prefs.quiet
  }

  lemma MutedRules(look: Look, input: Input, env: Env, since: Stamp, prev: Option<Entry>, e: Entry)
    requires Muted(look)
    ensures StartNotes(look, input, env, e) == [] && FinishNotes(look, input, env, e) == []
            && StuckNotes(look, input, env, since, e) == []
    ensures LoopNotes(look, env, prev, Ios) == [] && LoopNotes(look, env, prev, Android) == []
    ensures MergeNotes(look, input, env, prev, e) == []
  {
  }

  lemma MutedWorkspace(look: Look, input: Input, env: Env, prev: Option<Entry>)
    requires Muted(look)
    ensures WorkspaceNotes(look, input, env, prev) == []
  {
    var since, raised := Since(look, input, env, prev), Entry5(look, input, env, prev).attentionRaised;
    MutedRules(look, input, env, since, prev, Fresh(look, env, prev));
    MutedRules(look, input, env, since, prev, Entry1(look, input, env, prev));
    MutedRules(look, input, env, since, prev, Entry2(look, input, env, prev));
    MutedRules(look, input, env, since, prev, Entry4(look, input, env, prev));
    NoneSaid(look, env, ItemsBefore(prev), Pending(input, env, look.now),
             raised && !AllowanceReturns(input, env, look.now, prev));
  }

  lemma MutedGather(look: Look, input: Input, prev: Option<State>, envs: seq<Env>)
    requires Muted(look)
    ensures Gather(NotesOn(look, input, prev), envs) == []
  {
    forall i | 0 <= i < |envs| ensures NotesOn(look, input, prev)(envs[i]) == [] {
      MutedWorkspace(look, input, envs[i], Before(prev, envs[i].path));
    }
    GatherEmpty(NotesOn(look, input, prev), envs);
  }

  lemma MutedMachine(look: Look, input: Input, prev: Option<State>, awake: int)
    requires Muted(look)
    ensures MachineNotes(look, input, prev, awake) == []
  {
  }

  lemma MutedNotes(look: Look, input: Input, prev: Option<State>, awake: int)
    requires Muted(look)
    ensures Notes(look, input, prev, awake) == []
  {
    MutedMachine(look, input, prev, awake);
    MutedGather(look, input, prev, Envs(input));
  }

  /** No look in quiet hours, and no first look, says anything. */
  lemma QuietLookIsSilent(prev: Option<State>, t: Turn)
    requires prev.None? || t.prefs.quiet
    ensures Take(prev, t).notes == []
  {
    MutedNotes(LookOf(prev, t), t.input, prev, t.awakeSince);
  }

  // ---------------------------------------------------------------- what was held back is said

  /** The looks from `i` up to `j` are in quiet hours with the category on; look `j` is not, with it on. */
  ghost predicate HeldBack(run: seq<Record>, i: nat, j: nat, c: Category) {
    && i < j < |run|
    && (forall k | i <= k <= j :: c in run[k].turn.prefs.categories && run[k].prev.Some?)
    && (forall k | i <= k < j :: run[k].turn.prefs.quiet)
    && !run[j].turn.prefs.quiet
  }

  /** What the machine's rules say is said. */
  lemma MachineSaid(run: seq<Record>, k: nat, n: Note)
    requires IsRun(run) && k < |run|
    requires n in MachineNotes(LookOf(run[k].prev, run[k].turn), run[k].turn.input, run[k].prev, run[k].turn.awakeSince)
    ensures n in run[k].notes
  {
    assert Looked(run[k]);
  }

  lemma SaysDisk(run: seq<Record>, k: nat)
    requires IsRun(run) && k < |run|
             && DiskNotes(LookOf(run[k].prev, run[k].turn), run[k].prev, run[k].turn.input) != []
    ensures Says(run[k], AboutDisk)
  {
    MachineSaid(run, k, Note(AboutDisk, Machine, ToMachine));
  }

  ghost predicate Untold(h: Option<Held>) {
    h.Some? && !h.value.notified
  }

  lemma DiskUntold(run: seq<Record>, k: nat)
    requires IsRun(run) && k < |run| && run[k].turn.prefs.quiet && Machine in run[k].turn.prefs.categories
             && run[k].prev.Some?
    ensures DiskLow(run[k].prev, run[k].turn.input) && DiskBefore(run[k].prev).None? ==> Untold(run[k].next.disk)
    ensures Untold(DiskBefore(run[k].prev)) && !Recovered(run[k].turn) ==> Untold(run[k].next.disk)
  {
    MachineNext(run, k);
  }

  lemma DiskSpeaks(run: seq<Record>, k: nat)
    requires IsRun(run) && k < |run| && !run[k].turn.prefs.quiet && Machine in run[k].turn.prefs.categories
             && run[k].prev.Some?
    requires Untold(DiskBefore(run[k].prev)) && run[k].turn.input.volumes.Some? && !Recovered(run[k].turn)
    ensures Says(run[k], AboutDisk)
  {
    SaysDisk(run, k);
  }

  /**
   A disk that ran low in quiet hours and has not recovered is told of at the first look after them, and
   not before.
   */
  lemma DiskAfterQuiet(run: seq<Record>, i: nat, j: nat)
    requires IsRun(run) && HeldBack(run, i, j, Machine)
    requires DiskBefore(run[i].prev).None? && DiskLow(run[i].prev, run[i].turn.input)
    requires forall k | i < k <= j :: !Recovered(run[k].turn)
    requires run[j].turn.input.volumes.Some?
    ensures Says(run[j], AboutDisk) && forall k | i <= k < j :: !Says(run[k], AboutDisk)
  {
    DiskUntold(run, i);
    var P := (s: State) => s.disk.Some? && !s.disk.value.notified;
    forall k | i < k < j && run[k].prev.Some? && P(run[k].prev.value) ensures P(run[k].next) {
      DiskUntold(run, k);
    }
    Stays(run, i, j, P);
    DiskSpeaks(run, j);
    forall k | i <= k < j ensures !Says(run[k], AboutDisk) {
      SilentAt(run, k);
    }
  }

  lemma SilentAt(run: seq<Record>, k: nat)
    requires IsRun(run) && k < |run| && run[k].turn.prefs.quiet
    ensures run[k].notes == []
  {
    assert Looked(run[k]);
    QuietLookIsSilent(run[k].prev, run[k].turn);
  }

  lemma MemoryUntold(run: seq<Record>, k: nat)
    requires IsRun(run) && k < |run| && run[k].turn.prefs.quiet && Machine in run[k].turn.prefs.categories
    requires MemoryKnown(run[k].prev)
    ensures run[k].next.memoryKnown
    ensures run[k].turn.input.memoryPressure == Some(Critical) && MemoryBefore(run[k].prev).None? ==>
              run[k].next.memory == Some(Held(run[k].turn.now, false))
    ensures Untold(MemoryBefore(run[k].prev)) && !Relieved(run[k].turn) ==>
              run[k].next.memory == MemoryBefore(run[k].prev)
  {
    MachineNext(run, k);
    assert run[k].turn.input.memoryPressure.Some? ==>
             run[k].turn.input.memoryPressure.value == Critical || Relieved(run[k].turn);
  }

  lemma MemorySpeaks(run: seq<Record>, k: nat)
    requires IsRun(run) && k < |run|
             && MemoryNotes(LookOf(run[k].prev, run[k].turn), run[k].prev, run[k].turn.input) != []
    ensures Says(run[k], AboutMemory)
  {
    MachineSaid(run, k, Note(AboutMemory, Machine, ToMachine));
  }

  lemma MemorySpeaksAt(run: seq<Record>, k: nat)
    requires IsRun(run) && k < |run| && !run[k].turn.prefs.quiet && Machine in run[k].turn.prefs.categories
    requires MemoryKnown(run[k].prev) && Untold(MemoryBefore(run[k].prev))
             && run[k].turn.input.memoryPressure == Some(Critical)
    requires run[k].turn.now >= MemoryBefore(run[k].prev).value.since + MEMORY_SETTLE_MS
    ensures Says(run[k], AboutMemory)
  {
    MemorySpeaks(run, k);
  }

  /** Critical memory pressure that began in quiet hours, has not eased and has lasted a minute, likewise. */
  lemma MemoryAfterQuiet(run: seq<Record>, i: nat, j: nat)
    requires IsRun(run) && HeldBack(run, i, j, Machine) && MemoryKnown(run[i].prev) && MemoryBefore(run[i].prev).None?
    requires run[i].turn.input.memoryPressure == run[j].turn.input.memoryPressure == Some(Critical)
    requires forall k | i < k < j :: !Relieved(run[k].turn)
    requires run[j].turn.now >= run[i].turn.now + MEMORY_SETTLE_MS
    ensures Says(run[j], AboutMemory) && forall k | i <= k < j :: !Says(run[k], AboutMemory)
  {
    MemoryUntold(run, i);
    var held := Held(run[i].turn.now, false);
    var P := (s: State) => s.memoryKnown && s.memory == Some(held);
    forall k | i < k < j && run[k].prev.Some? && P(run[k].prev.value) ensures P(run[k].next) {
      MemoryUntold(run, k);
    }
    Stays(run, i, j, P);
    MemorySpeaksAt(run, j);
    forall k | i <= k < j ensures !Says(run[k], AboutMemory) {
      SilentAt(run, k);
    }
  }

  /** The link's episode is this one, and untold. */
  ghost predicate LinkHeldBack(h: Option<HeldLink>, kind: Link, since: int) {
    h == Some(HeldLink(kind, Held(since, false)))
  }

  lemma LinkUntoldRule(look: Look, prev: Option<State>, input: Input, awake: int, kind: Link)
    requires !Settles(look, Machine) && input.link == Some(kind) && kind != Open
    ensures LinkBefore(prev, kind).None? ==> LinkHeldBack(NextLink(look, prev, input, awake), kind, look.now)
    ensures forall since | prev.Some? && LinkHeldBack(prev.value.link, kind, since) ::
              NextLink(look, prev, input, awake) == prev.value.link
  {
  }

  lemma LinkUntold(run: seq<Record>, k: nat, kind: Link)
    requires IsRun(run) && k < |run| && run[k].turn.prefs.quiet && Machine in run[k].turn.prefs.categories
             && run[k].prev.Some?
    requires run[k].turn.input.link == Some(kind) && kind != Open
    ensures LinkBefore(run[k].prev, kind).None? ==> LinkHeldBack(run[k].next.link, kind, run[k].turn.now)
    ensures forall since | LinkHeldBack(run[k].prev.value.link, kind, since) ::
              LinkHeldBack(run[k].next.link, kind, since)
  {
    var r := run[k];
    MachineNext(run, k);
    LinkUntoldRule(LookOf(r.prev, r.turn), r.prev, r.turn.input, r.turn.awakeSince, kind);
  }

  lemma SaysLink(run: seq<Record>, k: nat)
    requires IsRun(run) && k < |run|
             && LinkNotes(LookOf(run[k].prev, run[k].turn), run[k].prev, run[k].turn.input,
                          run[k].turn.awakeSince) != []
    ensures Says(run[k], AboutLink)
  {
    MachineSaid(run, k, Note(AboutLink, Machine, ToMachine));
  }

  lemma LinkSpeaksAt(run: seq<Record>, k: nat, kind: Link, since: int)
    requires IsRun(run) && k < |run| && !run[k].turn.prefs.quiet && Machine in run[k].turn.prefs.categories
             && run[k].prev.Some?
    requires run[k].turn.input.link == Some(kind) && kind != Open && LinkHeldBack(run[k].prev.value.link, kind, since)
    requires run[k].turn.now >= LinkDue(kind, since, run[k].turn.awakeSince)
    ensures Says(run[k], AboutLink)
  {
    SaysLink(run, k);
  }

  /** A link that went down in quiet hours, is still down the same way and has been for its settle time, likewise. */
  lemma LinkAfterQuiet(run: seq<Record>, kind: Link, i: nat, j: nat)
    requires IsRun(run) && HeldBack(run, i, j, Machine) && kind != Open && LinkBefore(run[i].prev, kind).None?
    requires forall k | i <= k <= j :: run[k].turn.input.link == Some(kind)
    requires run[j].turn.now >= LinkDue(kind, run[i].turn.now, run[j].turn.awakeSince)
    ensures Says(run[j], AboutLink) && forall k | i <= k < j :: !Says(run[k], AboutLink)
  {
    var since := run[i].turn.now;
    LinkUntold(run, i, kind);
    var P := (s: State) => s.link == Some(HeldLink(kind, Held(since, false)));
    forall k | i < k < j && run[k].prev.Some? && P(run[k].prev.value) ensures P(run[k].next) {
      LinkUntold(run, k, kind);
      assert LinkHeldBack(run[k].prev.value.link, kind, since);
    }
    Stays(run, i, j, P);
    LinkSpeaksAt(run, j, kind, since);
    forall k | i <= k < j ensures !Says(run[k], AboutLink) {
      SilentAt(run, k);
    }
  }

  // ---- workspaces

  lemma {:induction false} GatherHas<T>(f: Env -> seq<T>, envs: seq<Env>, i: nat, x: T)
    requires i < |envs| && x in f(envs[i])
    ensures x in Gather(f, envs)
    decreases |envs|
  {
    if i > 0 {
      assert envs[1..][i - 1] == envs[i];
      GatherHas(f, envs[1..], i - 1, x);
    }
  }

  /** What a listed workspace's rules say is said. */
  lemma SaidOf(run: seq<Record>, k: nat, path: string, n: Note)
    requires Orderly(run) && k < |run| && Listed(run[k].turn, path).Some?
    requires n in WorkspaceNotes(LookOf(run[k].prev, run[k].turn), run[k].turn.input, Listed(run[k].turn, path).value,
                                 Before(run[k].prev, path))
    ensures n in run[k].notes && !n.target.ToMachine? && n.target.path == path
            && Listed(run[k].turn, path).value.path == path
  {
    var r := run[k];
    assert Looked(run[k]);
    var look := LookOf(r.prev, r.turn);
    var i := FindIndex(Envs(r.turn.input), path);
    OwnNotes(look, r.turn.input, Listed(r.turn, path).value, Before(r.prev, path));
    GatherHas(NotesOn(look, r.turn.input, r.prev), Envs(r.turn.input), i, n);
  }

  /** A quiet look, whatever it reads, leaves a row of failures untold. */
  lemma LoopUntold(run: seq<Record>, k: nat, path: string, p: Platform, cause: string)
    requires Orderly(run) && k < |run| && p != Chrome && !Had(run[k], path, LoopTold(p, cause))
    requires run[k].prev.Some? && Looping in run[k].turn.prefs.categories && run[k].turn.prefs.quiet
    ensures !Has(run[k], path, LoopTold(p, cause))
  {
    var r := run[k];
    if Listed(r.turn, path).Some? {
      LoopNext(run, k, path, p);
      LoopStaysUntold(LookOf(r.prev, r.turn), Listed(r.turn, path).value, Before(r.prev, path), p, cause);
    } else {
      EntryRule(run, k, path);
    }
  }

  lemma LoopStaysUntold(look: Look, env: Env, prev: Option<Entry>, p: Platform, cause: string)
    requires !Settles(look, Looping) && LoopOf(prev, p) != Some(Loop(cause, true))
    ensures NextLoop(look, env, prev, p) != Some(Loop(cause, true))
  {
  }

  lemma LoopSpeaksAt(run: seq<Record>, k: nat, path: string, p: Platform, cause: string)
    requires Orderly(run) && k < |run| && p != Chrome && FailsFrom(run[k], path, p, cause)
             && !Had(run[k], path, LoopTold(p, cause))
    requires run[k].prev.Some? && Looping in run[k].turn.prefs.categories && !run[k].turn.prefs.quiet
    ensures SaysOf(run[k], path, AboutLoop(p))
  {
    var r := run[k];
    var env := Listed(r.turn, path).value;
    LoopSpeaks(LookOf(r.prev, r.turn), r.turn.input, env, Before(r.prev, path), p, cause);
    SaidOf(run, k, path, Note(AboutLoop(p), Looping, ToBuild(env.path, p)));
  }

  lemma LoopSpeaks(look: Look, input: Input, env: Env, prev: Option<Entry>, p: Platform, cause: string)
    requires p != Chrome && Loud(look, Looping) && Loops(env, p)
             && FailureStreak(History(env, p)).value.signature == cause
    requires LoopOf(prev, p) != Some(Loop(cause, true))
    ensures Note(AboutLoop(p), Looping, ToBuild(env.path, p)) in WorkspaceNotes(look, input, env, prev)
  {
    var n := Note(AboutLoop(p), Looping, ToBuild(env.path, p));
    assert n in LoopNotes(look, env, prev, p);
    PartOf(look, input, env, prev, n);
  }

  /** A notification of any one rule is among the workspace's. */
  lemma PartOf(look: Look, input: Input, env: Env, prev: Option<Entry>, n: Note)
    ensures n in WorkspaceNotes(look, input, env, prev) <==>
              || n in StartNotes(look, input, env, Fresh(look, env, prev))
              || n in FinishNotes(look, input, env, Entry1(look, input, env, prev))
              || n in StuckNotes(look, input, env, Since(look, input, env, prev), Entry2(look, input, env, prev))
              || n in LoopNotes(look, env, prev, Ios) + LoopNotes(look, env, prev, Android)
              || n in MergeNotes(look, input, env, prev, Entry4(look, input, env, prev))
              || n in Raise(look, input, env, prev, Entry5(look, input, env, prev).attentionRaised).notes
  {
    InParts(StartNotes(look, input, env, Fresh(look, env, prev)),
            FinishNotes(look, input, env, Entry1(look, input, env, prev)),
            StuckNotes(look, input, env, Since(look, input, env, prev), Entry2(look, input, env, prev)),
            LoopNotes(look, env, prev, Ios) + LoopNotes(look, env, prev, Android),
            MergeNotes(look, input, env, prev, Entry4(look, input, env, prev)),
            Raise(look, input, env, prev, Entry5(look, input, env, prev).attentionRaised).notes, n);
  }

  /** Something untrue of an entry stays untrue of it while every look keeps the entry and that. */
  lemma {:induction false} StaysUntold(run: seq<Record>, path: string, i: nat, j: nat, P: Entry -> bool)
    requires Chained(run) && i <= j < |run| && !Had(run[i], path, P)
    requires forall k | i <= k < j && !Had(run[k], path, P) :: !Has(run[k], path, P)
    ensures !Had(run[j], path, P)
    decreases j
  {
    if i < j {
      StaysUntold(run, path, i, j - 1, P);
      assert run[j].prev == Some(run[j - 1].next);
    }
  }

  /**
   Builds that fail in a row at the first look after quiet hours, from a cause not told of before them, are
   told of then, whatever the looks between read.
   */
  lemma LoopAfterQuiet(run: seq<Record>, path: string, p: Platform, cause: string, i: nat, j: nat)
    requires Orderly(run) && HeldBack(run, i, j, Looping) && p != Chrome && !Had(run[i], path, LoopTold(p, cause))
    ensures FailsFrom(run[j], path, p, cause) ==> SaysOf(run[j], path, AboutLoop(p))
    ensures forall k | i <= k < j :: !SaysOf(run[k], path, AboutLoop(p))
  {
    forall k | i <= k < j && !Had(run[k], path, LoopTold(p, cause)) ensures !Has(run[k], path, LoopTold(p, cause)) {
      LoopUntold(run, k, path, p, cause);
    }
    StaysUntold(run, path, i, j, LoopTold(p, cause));
    if FailsFrom(run[j], path, p, cause) { LoopSpeaksAt(run, j, path, p, cause); }
    forall k | i <= k < j ensures !SaysOf(run[k], path, AboutLoop(p)) {
      SilentAt(run, k);
    }
  }

  // ---- stuck

  /** The look finds the workspace standing still for too long, whether or not that was told. */
  ghost predicate StandsStill(r: Record, path: string) {
    && Listed(r.turn, path).Some?
    && var look, env, prev := LookOf(r.prev, r.turn), Listed(r.turn, path).value, Before(r.prev, path);
       var since := Since(look, r.turn.input, env, prev);
       && MayBeStuck(r.turn.input, env, since, Entry2(look, r.turn.input, env, prev).(stuckAt := None))
       && r.turn.now >= StuckDue(look, since.value)
  }

  const StuckTold: Entry -> bool := (e: Entry) => e.stuckAt.Some?

  lemma StuckBefore(look: Look, input: Input, env: Env, prev: Option<Entry>)
    ensures Entry2(look, input, env, prev).stuckAt == if prev.Some? then prev.value.stuckAt else None
  {
    StartKeeps(look, input, env, Fresh(look, env, prev));
    FinishKeeps(look, input, env, Entry1(look, input, env, prev));
  }

  lemma StuckUntold(run: seq<Record>, k: nat, path: string)
    requires Orderly(run) && k < |run| && !Had(run[k], path, StuckTold)
    requires run[k].prev.Some? && Stuck in run[k].turn.prefs.categories && run[k].turn.prefs.quiet
    ensures !Has(run[k], path, StuckTold)
  {
    var r := run[k];
    EntryRule(run, k, path);
    if Listed(r.turn, path).Some? {
      var look, env, prev := LookOf(r.prev, r.turn), Listed(r.turn, path).value, Before(r.prev, path);
      NextFields(look, r.turn.input, env, prev);
      StuckBefore(look, r.turn.input, env, prev);
    }
  }

  lemma StuckSpeaks(look: Look, input: Input, env: Env, prev: Option<Entry>)
    requires Loud(look, Stuck) && !(prev.Some? && prev.value.stuckAt.Some?)
    requires var since := Since(look, input, env, prev);
             MayBeStuck(input, env, since, Entry2(look, input, env, prev).(stuckAt := None))
             && look.now >= StuckDue(look, since.value)
    ensures exists n: Note :: n.what == AboutStuck && n in WorkspaceNotes(look, input, env, prev)
  {
    StuckBefore(look, input, env, prev);
    var d := StuckDevice(input, env).value;
    var n := Note(AboutStuck, Stuck, ToDevice(env.path, d.platform, d.slot));
    assert n in StuckNotes(look, input, env, Since(look, input, env, prev), Entry2(look, input, env, prev));
    PartOf(look, input, env, prev, n);
  }

  lemma StuckSpeaksAt(run: seq<Record>, k: nat, path: string)
    requires Orderly(run) && k < |run| && StandsStill(run[k], path) && !Had(run[k], path, StuckTold)
    requires run[k].prev.Some? && Stuck in run[k].turn.prefs.categories && !run[k].turn.prefs.quiet
    ensures SaysOf(run[k], path, AboutStuck)
  {
    var r := run[k];
    var look, env, prev := LookOf(r.prev, r.turn), Listed(r.turn, path).value, Before(r.prev, path);
    StuckSpeaks(look, r.turn.input, env, prev);
    var n: Note :| n.what == AboutStuck && n in WorkspaceNotes(look, r.turn.input, env, prev);
    SaidOf(run, k, path, n);
  }

  /** A standstill not told of before quiet hours, and there at the first look after them, is told of then. */
  lemma StuckAfterQuiet(run: seq<Record>, path: string, i: nat, j: nat)
    requires Orderly(run) && HeldBack(run, i, j, Stuck) && !Had(run[i], path, StuckTold)
    ensures StandsStill(run[j], path) ==> SaysOf(run[j], path, AboutStuck)
    ensures forall k | i <= k < j :: !SaysOf(run[k], path, AboutStuck)
  {
    forall k | i <= k < j && !Had(run[k], path, StuckTold) ensures !Has(run[k], path, StuckTold) {
      StuckUntold(run, k, path);
    }
    StaysUntold(run, path, i, j, StuckTold);
    if StandsStill(run[j], path) { StuckSpeaksAt(run, j, path); }
    forall k | i <= k < j ensures !SaysOf(run[k], path, AboutStuck) {
      SilentAt(run, k);
    }
  }

  // ---- what needs a person

  /** The item is pending at the look, for a listed workspace. */
  ghost predicate PendingAt(r: Record, path: string, item: ItemId) {
    Listed(r.turn, path).Some? && item in Pending(r.turn.input, Listed(r.turn, path).value, r.turn.now)
  }

  lemma {:induction false} NoneKeptInQuiet(look: Look, env: Env, before: seq<ItemId>, items: seq<ItemId>, item: ItemId)
    requires item !in before && !Settles(look, Attention)
    ensures var r := RaiseItems(look, env, before, items, false); item !in r.kept && !r.raised
    decreases |items|
  {
    if items != [] {
      NoneKeptInQuiet(look, env, before, items[1..], item);
    }
  }

  /** The first pending item not noted before. */
  function FirstNew(before: seq<ItemId>, items: seq<ItemId>): Option<ItemId> {
    if items == [] then None else if items[0] !in before then Some(items[0]) else FirstNew(before, items[1..])
  }

  lemma {:induction false} FirstSaid(look: Look, env: Env, before: seq<ItemId>, items: seq<ItemId>, item: ItemId)
    requires item !in before && item in items && Loud(look, Attention)
    ensures var notes := RaiseItems(look, env, before, items, false).notes;
            notes != [] && notes[0].what.AboutItem? && FirstNew(before, items) == Some(notes[0].what.item)
    decreases |items|
  {
    if items[0] in before {
      assert item in items[1..];
      FirstSaid(look, env, before, items[1..], item);
    }
  }

  /** The item is noted or the allowance spent. */
  function ItemSettled(item: ItemId): Entry -> bool {
    (e: Entry) => item in e.attention || e.attentionRaised
  }

  /** A quiet look, whatever it reads, leaves an unsettled item unsettled. */
  lemma ItemUntold(run: seq<Record>, k: nat, path: string, item: ItemId)
    requires Orderly(run) && k < |run| && !Had(run[k], path, ItemSettled(item))
    requires run[k].prev.Some? && Attention in run[k].turn.prefs.categories && run[k].turn.prefs.quiet
    ensures !Has(run[k], path, ItemSettled(item))
  {
    var r := run[k];
    EntryRule(run, k, path);
    if Listed(r.turn, path).Some? {
      var look, env, prev := LookOf(r.prev, r.turn), Listed(r.turn, path).value, Before(r.prev, path);
      AllowanceKept(look, r.turn.input, env, prev);
      NoneKeptInQuiet(look, env, ItemsBefore(prev), Pending(r.turn.input, env, r.turn.now), item);
    }
  }

  lemma ItemSpeaks(look: Look, input: Input, env: Env, prev: Option<Entry>, item: ItemId) returns (n: Note)
    requires Loud(look, Attention) && item in Pending(input, env, look.now)
    requires !(prev.Some? && (item in prev.value.attention || prev.value.attentionRaised))
    ensures n.what.AboutItem? && n in WorkspaceNotes(look, input, env, prev)
    ensures FirstNew(ItemsBefore(prev), Pending(input, env, look.now)) == Some(n.what.item)
  {
    AllowanceKept(look, input, env, prev);
    FirstSaid(look, env, ItemsBefore(prev), Pending(input, env, look.now), item);
    OwnItems(look, env, ItemsBefore(prev), Pending(input, env, look.now), false);
    n := Raise(look, input, env, prev, Entry5(look, input, env, prev).attentionRaised).notes[0];
    PartOf(look, input, env, prev, n);
  }

  /** The first item pending at the look, of a listed workspace, that was not noted before it. */
  function FirstNewAt(r: Record, path: string): Option<ItemId> {
    if Listed(r.turn, path).None? then None
    else FirstNew(ItemsBefore(Before(r.prev, path)), Pending(r.turn.input, Listed(r.turn, path).value, r.turn.now))
  }

  lemma ItemSpeaksAt(run: seq<Record>, k: nat, path: string, item: ItemId)
    requires Orderly(run) && k < |run| && PendingAt(run[k], path, item) && !Had(run[k], path, ItemSettled(item))
    requires run[k].prev.Some? && Attention in run[k].turn.prefs.categories && !run[k].turn.prefs.quiet
    ensures FirstNewAt(run[k], path).Some? && SaysOf(run[k], path, AboutItem(FirstNewAt(run[k], path).value))
  {
    var r := run[k];
    var n := ItemSpeaks(LookOf(r.prev, r.turn), r.turn.input, Listed(r.turn, path).value, Before(r.prev, path), item);
    SaidOf(run, k, path, n);
  }

  /**
   An item pending at the first look after quiet hours, not noted and with the allowance unspent when they
   began, makes that look raise exactly one attention notification of its workspace, for the first such
   item in the order of the listing, whatever the looks between read; none is raised before.
   */
  lemma AttentionAfterQuiet(run: seq<Record>, path: string, item: ItemId, i: nat, j: nat)
    requires Orderly(run) && HeldBack(run, i, j, Attention) && !Had(run[i], path, ItemSettled(item))
    ensures PendingAt(run[j], path, item) ==>
              forall said :: SaysOf(run[j], path, AboutItem(said)) <==> FirstNewAt(run[j], path) == Some(said)
    ensures PendingAt(run[j], path, item) ==> FirstNewAt(run[j], path).Some?
    ensures forall k | i <= k < j :: run[k].notes == []
  {
    forall k | i <= k < j && !Had(run[k], path, ItemSettled(item)) ensures !Has(run[k], path, ItemSettled(item)) {
      ItemUntold(run, k, path, item);
    }
    StaysUntold(run, path, i, j, ItemSettled(item));
    if PendingAt(run[j], path, item) {
      ItemSpeaksAt(run, j, path, item);
      forall said | SaysOf(run[j], path, AboutItem(said)) ensures FirstNewAt(run[j], path) == Some(said) {
        OneItemPerLook(run, j, path, said, FirstNewAt(run[j], path).value);
      }
    }
    forall k | i <= k < j ensures run[k].notes == [] {
      SilentAt(run, k);
    }
  }
}
