/**
 Runs of looks, each starting from the state the last one left, and where a run's notifications come
 from: each is one rule's, about the machine or about one listed workspace.
 */
module OversightRuns {
  import opened Options
  import opened OversightModel
  import opened OversightWake

  datatype Turn = Turn(input: Input, prefs: Prefs, now: int, awakeSince: int)

  function Take(prev: Option<State>, t: Turn): Result {
    Oversee(prev, t.input, t.prefs, t.now, t.awakeSince)
  }

  function LookOf(prev: Option<State>, t: Turn): Look {
    LookAt(prev, t.prefs, t.now)
  }

  /** One look of a run: the state before, what it read, the state after and what it said. */
  datatype Record = Record(prev: Option<State>, turn: Turn, next: State, notes: seq<Note>)

  /** The record is of a look that happened so. */
  ghost predicate Looked(r: Record) {
    Take(r.prev, r.turn).state == r.next && Take(r.prev, r.turn).notes == r.notes
  }

  /** A run: looks, each from the state the last one left. The first may have none. */
  ghost predicate IsRun(run: seq<Record>) {
    && (forall k {:trigger Looked(run[k])} | 0 <= k < |run| :: Looked(run[k]))
    && Chained(run)
  }

  /** A run in which each status lists a path once. */
  ghost predicate Orderly(run: seq<Record>) {
    IsRun(run) && forall k {:trigger Looked(run[k])} | 0 <= k < |run| :: Distinct(Envs(run[k].turn.input))
  }

  ghost predicate Chained(run: seq<Record>) {
    forall k | 0 < k < |run| :: run[k].prev == Some(run[k - 1].next)
  }

  function Find(envs: seq<Env>, path: string): Option<Env> {
    if envs == [] then None else if envs[0].path == path then Some(envs[0]) else Find(envs[1..], path)
  }

  /** The workspace at `path`, if this look's status lists it. */
  function Listed(t: Turn, path: string): Option<Env> {
    Find(Envs(t.input), path)
  }

  lemma {:induction false} FindIndex(envs: seq<Env>, path: string) returns (i: nat)
    ensures Find(envs, path).Some? <==> i < |envs|
    ensures i < |envs| ==> envs[i] == Find(envs, path).value && envs[i].path == path
    ensures i == |envs| ==> forall j | 0 <= j < |envs| :: envs[j].path != path
    ensures i <= |envs|
  {
    if envs == [] {
      i := 0;
    } else if envs[0].path == path {
      i := 0;
    } else {
      var k := FindIndex(envs[1..], path);
      i := k + 1;
    }
  }

  lemma {:induction false} Uncollected(f: Env -> Entry, envs: seq<Env>, path: string)
    requires forall j | 0 <= j < |envs| :: envs[j].path != path
    ensures path !in Collect(f, envs)
    decreases |envs|
  {
    if envs != [] {
      Uncollected(f, envs[..|envs| - 1], path);
    }
  }

  lemma EntryStepIn(look: Look, input: Input, prev: Option<State>, path: string)
    requires Distinct(Envs(input))
    ensures var next, env := NextWorkspaces(look, input, prev), Find(Envs(input), path);
            && (env.Some? ==>
                  env.value.path == path && path in next && next[path] == EntryOn(look, input, prev)(env.value))
            && (env.None? && path in next ==> Before(prev, path) == Some(next[path]))
  {
    var i := FindIndex(Envs(input), path);
    if i < |Envs(input)| {
      CollectAt(EntryOn(look, input, prev), Envs(input), i);
    } else if input.status.Some? {
      Uncollected(EntryOn(look, input, prev), Envs(input), path);
    }
  }

  /** What a look does to one workspace's entry. */
  lemma EntryStep(prev: Option<State>, t: Turn, path: string)
    requires Distinct(Envs(t.input))
    ensures var next, env := Some(Take(prev, t).state), Listed(t, path);
            && (env.Some? ==>
                  env.value.path == path
                  && Before(next, path) == Some(NextEntry(LookOf(prev, t), t.input, env.value, Before(prev, path))))
            && (env.None? ==> Before(next, path).None? || Before(next, path) == Before(prev, path))
  {
    EntryStepIn(LookOf(prev, t), t.input, prev, path);
  }

  // ---------------------------------------------------------------- where notifications come from

  predicate OfMachine(w: What) {
    w.AboutLink? || w.AboutDisk? || w.AboutMemory?
  }

  /** Every notification here is about the workspace at `path`. */
  ghost predicate Own(notes: seq<Note>, path: string) {
    forall n | n in notes :: !OfMachine(n.what) && !n.target.ToMachine? && n.target.path == path
  }

  lemma OwnAll(a: seq<Note>, b: seq<Note>, c: seq<Note>, d: seq<Note>, e: seq<Note>, f: seq<Note>, path: string)
    requires Own(a, path) && Own(b, path) && Own(c, path) && Own(d, path) && Own(e, path) && Own(f, path)
    ensures Own(a + b + c + d + e + f, path)
  {
  }

  lemma OwnEarly(look: Look, input: Input, env: Env, since: Stamp, e: Entry)
    ensures Own(StartNotes(look, input, env, e), env.path)
    ensures Own(FinishNotes(look, input, env, e), env.path)
    ensures Own(StuckNotes(look, input, env, since, e), env.path)
  {
  }

  lemma OwnLate(look: Look, input: Input, env: Env, prev: Option<Entry>, e: Entry)
    ensures Own(LoopNotes(look, env, prev, Ios) + LoopNotes(look, env, prev, Android), env.path)
    ensures Own(MergeNotes(look, input, env, prev, e), env.path)
  {
  }

  lemma {:induction false} OwnItems(look: Look, env: Env, before: seq<ItemId>, items: seq<ItemId>, raised: bool)
    ensures Own(RaiseItems(look, env, before, items, raised).notes, env.path)
    ensures forall n | n in RaiseItems(look, env, before, items, raised).notes ::
              n.what.AboutItem? && n.category == Attention
    decreases |items|
  {
    if items != [] {
      OwnItems(look, env, before, items[1..], raised || ItemSaid(look, before, items[0], raised));
    }
  }

  lemma OwnNotes(look: Look, input: Input, env: Env, prev: Option<Entry>)
    ensures Own(WorkspaceNotes(look, input, env, prev), env.path)
  {
    var e0, e1, e2, e4 := Fresh(look, env, prev), Entry1(look, input, env, prev), Entry2(look, input, env, prev),
                          Entry4(look, input, env, prev);
    var since, raised := Since(look, input, env, prev), Entry5(look, input, env, prev).attentionRaised;
    OwnEarly(look, input, env, since, e0);
    OwnEarly(look, input, env, since, e1);
    OwnEarly(look, input, env, since, e2);
    OwnLate(look, input, env, prev, e4);
    OwnItems(look, env, ItemsBefore(prev), Pending(input, env, look.now),
             raised && !AllowanceReturns(input, env, look.now, prev));
    OwnAll(StartNotes(look, input, env, e0), FinishNotes(look, input, env, e1), StuckNotes(look, input, env, since, e2),
           LoopNotes(look, env, prev, Ios)
           + LoopNotes(look, env, prev, Android), MergeNotes(look, input, env, prev, e4),
           Raise(look, input, env, prev, raised).notes, env.path);
  }

  lemma {:induction false} GatheredFrom<T(!new)>(f: Env -> seq<T>, envs: seq<Env>, x: T) returns (i: nat)
    requires x in Gather(f, envs)
    ensures i < |envs| && x in f(envs[i])
    decreases |envs|
  {
    if x in f(envs[0]) {
      i := 0;
    } else {
      var k := GatheredFrom(f, envs[1..], x);
      i := k + 1;
    }
  }

  lemma {:induction false} FindAt(envs: seq<Env>, i: nat)
    requires Distinct(envs) && i < |envs|
    ensures Find(envs, envs[i].path) == Some(envs[i])
    decreases |envs|
  {
    if i > 0 {
      assert envs[0].path != envs[i].path;
      FindAt(envs[1..], i - 1);
    }
  }

  lemma OwnOnly(f: Env -> seq<Note>, envs: seq<Env>, n: Note)
    requires n in Gather(f, envs) && forall i | 0 <= i < |envs| :: Own(f(envs[i]), envs[i].path)
    ensures !OfMachine(n.what)
  {
    var i := GatheredFrom(f, envs, n);
  }

  lemma FromOneEnv(f: Env -> seq<Note>, envs: seq<Env>, n: Note)
    requires Distinct(envs) && n in Gather(f, envs) && forall i | 0 <= i < |envs| :: Own(f(envs[i]), envs[i].path)
    ensures !OfMachine(n.what) && !n.target.ToMachine?
    ensures var env := Find(envs, n.target.path); env.Some? && env.value.path == n.target.path && n in f(env.value)
  {
    var i := GatheredFrom(f, envs, n);
    FindAt(envs, i);
  }

  lemma AllOwn(look: Look, input: Input, prev: Option<State>, envs: seq<Env>)
    ensures forall i | 0 <= i < |envs| :: Own(NotesOn(look, input, prev)(envs[i]), envs[i].path)
  {
    forall i | 0 <= i < |envs| ensures Own(NotesOn(look, input, prev)(envs[i]), envs[i].path) {
      OwnNotes(look, input, envs[i], Before(prev, envs[i].path));
    }
  }

  lemma MachineOnly(look: Look, input: Input, prev: Option<State>, awake: int, n: Note)
    requires n in MachineNotes(look, input, prev, awake)
    ensures OfMachine(n.what)
  {
  }

  /** A machine notification is the machine rules'. */
  lemma MachineSource(prev: Option<State>, t: Turn, n: Note)
    requires n in Take(prev, t).notes && OfMachine(n.what)
    ensures n in MachineNotes(LookOf(prev, t), t.input, prev, t.awakeSince)
  {
    var look := LookOf(prev, t);
    if n !in MachineNotes(look, t.input, prev, t.awakeSince) {
      AllOwn(look, t.input, prev, Envs(t.input));
      OwnOnly(NotesOn(look, t.input, prev), Envs(t.input), n);
    }
  }

  /** Any other is of one listed workspace. */
  lemma WorkspaceSource(prev: Option<State>, t: Turn, n: Note)
    requires Distinct(Envs(t.input)) && n in Take(prev, t).notes && !OfMachine(n.what)
    ensures !n.target.ToMachine? && Listed(t, n.target.path).Some?
    ensures var p := n.target.path; n in WorkspaceNotes(LookOf(prev, t), t.input, Listed(t, p).value, Before(prev, p))
  {
    var look := LookOf(prev, t);
    if n in MachineNotes(look, t.input, prev, t.awakeSince) {
      MachineOnly(look, t.input, prev, t.awakeSince, n);
    } else {
      AllOwn(look, t.input, prev, Envs(t.input));
      FromOneEnv(NotesOn(look, t.input, prev), Envs(t.input), n);
    }
  }

  /** The kinds each rule gives. */
  lemma KindsEarly(look: Look, input: Input, env: Env, since: Stamp, e: Entry)
    ensures forall n | n in StartNotes(look, input, env, e) :: n.what.AboutWarming? || n.what.AboutDriving?
    ensures forall n | n in FinishNotes(look, input, env, e) :: n.what.AboutStopped?
    ensures forall n | n in StuckNotes(look, input, env, since, e) :: n.what.AboutStuck?
  {
  }

  lemma KindsLate(look: Look, input: Input, env: Env, prev: Option<Entry>, e: Entry)
    ensures forall n | n in LoopNotes(look, env, prev, Ios) + LoopNotes(look, env, prev, Android) ::
              n.what.AboutLoop? && n in LoopNotes(look, env, prev, n.what.platform)
    ensures forall n | n in MergeNotes(look, input, env, prev, e) ::
              n.what.AboutPrReady? || n.what.AboutPrMerged? || n.what.AboutMerged?
  {
  }

  lemma InParts(a: seq<Note>, b: seq<Note>, c: seq<Note>, d: seq<Note>, e: seq<Note>, f: seq<Note>, n: Note)
    ensures n in a + b + c + d + e + f <==> n in a || n in b || n in c || n in d || n in e || n in f
  {
  }

  /** Which rule of a workspace a notification comes from. */
  lemma RuleSource(look: Look, input: Input, env: Env, prev: Option<Entry>, n: Note)
    requires n in WorkspaceNotes(look, input, env, prev)
    ensures n.what.AboutStopped? ==> n in FinishNotes(look, input, env, Entry1(look, input, env, prev))
    ensures n.what.AboutStuck? ==>
              n in StuckNotes(look, input, env, Since(look, input, env, prev), Entry2(look, input, env, prev))
    ensures n.what.AboutLoop? ==> n in LoopNotes(look, env, prev, n.what.platform)
    ensures n.what.AboutItem? ==>
              n in Raise(look, input, env, prev, Entry5(look, input, env, prev).attentionRaised).notes
  {
    var e0, e1, e2, e4 := Fresh(look, env, prev), Entry1(look, input, env, prev), Entry2(look, input, env, prev),
                          Entry4(look, input, env, prev);
    var since, raised := Since(look, input, env, prev), Entry5(look, input, env, prev).attentionRaised;
    KindsEarly(look, input, env, since, e0);
    KindsEarly(look, input, env, since, e1);
    KindsEarly(look, input, env, since, e2);
    KindsLate(look, input, env, prev, e4);
    OwnItems(look, env, ItemsBefore(prev), Pending(input, env, look.now),
             raised && !AllowanceReturns(input, env, look.now, prev));
    InParts(StartNotes(look, input, env, e0), FinishNotes(look, input, env, e1),
            StuckNotes(look, input, env, since, e2),
            LoopNotes(look, env, prev, Ios)
            + LoopNotes(look, env, prev, Android), MergeNotes(look, input, env, prev, e4),
            Raise(look, input, env, prev, raised).notes, n);
  }
}
