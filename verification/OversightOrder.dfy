/**
 The order of a look's notifications: the machine's first, then workspace after workspace as the status
 lists them, and for each the rules in their turn.
 */
module OversightOrder {
  import opened Options
  import opened OversightModel
  import opened OversightWake
  import opened OversightRuns
  import opened OversightDue

  /** The rules in the order they are asked. */
  function RuleNo(what: What): nat {
    match what
    case AboutLink => 0
    case AboutDisk => 1
    case AboutMemory => 2
    case AboutWarming => 3
    case AboutDriving => 3
    case AboutStopped => 4
    case AboutStuck => 5
    case AboutLoop(p) => if p == Ios then 6 else 7
    case AboutPrReady(_) => 8
    case AboutPrMerged(_) => 8
    case AboutMerged => 9
    case AboutItem(_) => 10
  }

  ghost predicate InTurn(s: seq<Note>, lo: nat, hi: nat) {
    && (forall i | 0 <= i < |s| :: lo <= RuleNo(s[i].what) <= hi)
    && forall i, j | 0 <= i < j < |s| :: RuleNo(s[i].what) <= RuleNo(s[j].what)
  }

  lemma OfTurn(s: seq<Note>, k: nat)
    requires forall n | n in s :: RuleNo(n.what) == k
    ensures InTurn(s, k, k)
  {
    forall i | 0 <= i < |s| ensures RuleNo(s[i].what) == k { assert s[i] in s; }
  }

  lemma Append(a: seq<Note>, b: seq<Note>, lo: nat, m: nat, n: nat, hi: nat)
    requires InTurn(a, lo, m) && InTurn(b, n, hi) && lo <= m <= n <= hi
    ensures InTurn(a + b, lo, hi)
  {
  }

  lemma MergesInTurn(look: Look, input: Input, env: Env, prev: Option<Entry>, e: Entry)
    ensures InTurn(MergeNotes(look, input, env, prev, e), 8, 9)
  {
    var branch := Say(BranchMerged(prev, AfterPr(input, env, e)) && Loud(look, Finished),
                      Note(AboutMerged, Finished, ToWorkspace(env.path)));
    OfTurn(PrNotes(look, input, env, e), 8);
    OfTurn(branch, 9);
    Append(PrNotes(look, input, env, e), branch, 8, 8, 9, 9);
  }

  lemma LoopsInTurn(look: Look, env: Env, prev: Option<Entry>)
    ensures InTurn(LoopNotes(look, env, prev, Ios) + LoopNotes(look, env, prev, Android), 6, 7)
  {
    OfTurn(LoopNotes(look, env, prev, Ios), 6);
    OfTurn(LoopNotes(look, env, prev, Android), 7);
    Append(LoopNotes(look, env, prev, Ios), LoopNotes(look, env, prev, Android), 6, 6, 7, 7);
  }

  lemma ItemsInTurn(look: Look, input: Input, env: Env, prev: Option<Entry>, raised: bool)
    ensures InTurn(Raise(look, input, env, prev, raised).notes, 10, 10)
  {
    OwnItems(look, env, ItemsBefore(prev), Pending(input, env, look.now),
             raised && !AllowanceReturns(input, env, look.now, prev));
    OfTurn(Raise(look, input, env, prev, raised).notes, 10);
  }

  lemma SixInTurn(a: seq<Note>, b: seq<Note>, c: seq<Note>, d: seq<Note>, e: seq<Note>, f: seq<Note>)
    requires InTurn(a, 3, 3) && InTurn(b, 4, 4) && InTurn(c, 5, 5) && InTurn(d, 6, 7) && InTurn(e, 8, 9)
             && InTurn(f, 10, 10)
    ensures InTurn(a + b + c + d + e + f, 3, 10)
  {
    Append(a, b, 3, 3, 4, 4);
    Append(a + b, c, 3, 4, 5, 5);
    Append(a + b + c, d, 3, 5, 6, 7);
    Append(a + b + c + d, e, 3, 7, 8, 9);
    Append(a + b + c + d + e, f, 3, 9, 10, 10);
  }

  lemma EarlyInTurn(look: Look, input: Input, env: Env, since: Stamp, e: Entry)
    ensures InTurn(StartNotes(look, input, env, e), 3, 3) && InTurn(FinishNotes(look, input, env, e), 4, 4)
            && InTurn(StuckNotes(look, input, env, since, e), 5, 5)
  {
    KindsEarly(look, input, env, since, e);
    OfTurn(StartNotes(look, input, env, e), 3);
    OfTurn(FinishNotes(look, input, env, e), 4);
    OfTurn(StuckNotes(look, input, env, since, e), 5);
  }

  /** The rules of one workspace speak in their turn. */
  lemma WorkspaceInTurn(look: Look, input: Input, env: Env, prev: Option<Entry>)
    ensures InTurn(WorkspaceNotes(look, input, env, prev), 3, 10)
  {
    var e0, e1, e2 := Fresh(look, env, prev), Entry1(look, input, env, prev), Entry2(look, input, env, prev);
    var since, e4 := Since(look, input, env, prev), Entry4(look, input, env, prev);
    var raised := Entry5(look, input, env, prev).attentionRaised;
    EarlyInTurn(look, input, env, since, e0);
    EarlyInTurn(look, input, env, since, e1);
    EarlyInTurn(look, input, env, since, e2);
    LoopsInTurn(look, env, prev);
    MergesInTurn(look, input, env, prev, e4);
    ItemsInTurn(look, input, env, prev, raised);
    SixInTurn(StartNotes(look, input, env, e0), FinishNotes(look, input, env, e1),
              StuckNotes(look, input, env, since, e2),
              LoopNotes(look, env, prev, Ios) + LoopNotes(look, env, prev, Android),
              MergeNotes(look, input, env, prev, e4), Raise(look, input, env, prev, raised).notes);
  }

  lemma MachineInTurn(look: Look, input: Input, prev: Option<State>, awakeSince: int)
    ensures InTurn(MachineNotes(look, input, prev, awakeSince), 0, 2)
  {
    var a, b, c := LinkNotes(look, prev, input, awakeSince), DiskNotes(look, prev, input),
                   MemoryNotes(look, prev, input);
    OfTurn(a, 0);
    OfTurn(b, 1);
    OfTurn(c, 2);
    Append(a, b, 0, 0, 1, 1);
    Append(a + b, c, 0, 1, 2, 2);
  }

  // ---------------------------------------------------------------- all workspaces

  /** The place of a notification: before all workspaces if it is the machine's, else that of a workspace it names. */
  ghost predicate Belongs(input: Input, n: Note, at: int) {
    if at == -1 then OfMachine(n.what) else 0 <= at < |Envs(input)| && Names(input, Envs(input)[at], n)
  }

  ghost predicate AllBelong(input: Input, notes: seq<Note>, at: seq<int>) {
    |at| == |notes| && forall i | 0 <= i < |at| :: Belongs(input, notes[i], at[i])
  }

  /** The places never fall, and at one place the rules are in their turn. */
  ghost predicate NeverFalls(notes: seq<Note>, at: seq<int>) {
    && |at| == |notes|
    && forall i, j | 0 <= i < j < |at| ::
         at[i] < at[j] || (at[i] == at[j] && RuleNo(notes[i].what) <= RuleNo(notes[j].what))
  }

  ghost predicate Placed(input: Input, notes: seq<Note>, at: seq<int>) {
    AllBelong(input, notes, at) && NeverFalls(notes, at)
  }

  lemma BelongBoth(input: Input, a: seq<Note>, b: seq<Note>, here: seq<int>, later: seq<int>)
    requires AllBelong(input, a, here) && AllBelong(input, b, later)
    ensures AllBelong(input, a + b, here + later)
  {
    forall i | 0 <= i < |here + later| ensures Belongs(input, (a + b)[i], (here + later)[i]) {
      if i < |here| {
        assert Belongs(input, a[i], here[i]);
      } else {
        assert Belongs(input, b[i - |a|], later[i - |a|]);
      }
    }
  }

  lemma NeverFallBoth(a: seq<Note>, b: seq<Note>, here: seq<int>, later: seq<int>, k: int)
    requires NeverFalls(a, here) && NeverFalls(b, later)
    requires (forall i | 0 <= i < |here| :: here[i] == k) && forall i | 0 <= i < |later| :: k < later[i]
    ensures NeverFalls(a + b, here + later)
  {
  }

  lemma PlacedBefore(input: Input, a: seq<Note>, b: seq<Note>, here: seq<int>, later: seq<int>, k: int)
    requires Placed(input, a, here) && Placed(input, b, later)
    requires (forall i | 0 <= i < |here| :: here[i] == k) && forall i | 0 <= i < |later| :: k < later[i]
    ensures Placed(input, a + b, here + later)
  {
    BelongBoth(input, a, b, here, later);
    NeverFallBoth(a, b, here, later, k);
  }

  lemma OnePlaced(look: Look, input: Input, prev: Option<State>, k: nat) returns (at: seq<int>)
    requires k < |Envs(input)|
    ensures Placed(input, NotesOn(look, input, prev)(Envs(input)[k]), at) && forall i | 0 <= i < |at| :: at[i] == k
  {
    var env := Envs(input)[k];
    var notes := WorkspaceNotes(look, input, env, Before(prev, env.path));
    at := seq(|notes|, i => k);
    WorkspaceInTurn(look, input, env, Before(prev, env.path));
    forall i | 0 <= i < |at| ensures Belongs(input, notes[i], at[i]) {
      assert notes[i] in notes;
      NotesName(look, input, env, Before(prev, env.path), notes[i]);
    }
  }

  lemma GatherNext(f: Env -> seq<Note>, envs: seq<Env>, k: nat)
    requires k < |envs|
    ensures Gather(f, envs[k..]) == f(envs[k]) + Gather(f, envs[k + 1..])
  {
    assert envs[k..][0] == envs[k] && envs[k..][1..] == envs[k + 1..];
  }

  lemma {:induction false} AllPlaced(look: Look, input: Input, prev: Option<State>, k: nat) returns (at: seq<int>)
    requires k <= |Envs(input)|
    ensures Placed(input, Gather(NotesOn(look, input, prev), Envs(input)[k..]), at)
    ensures forall i | 0 <= i < |at| :: k <= at[i]
    decreases |Envs(input)| - k
  {
    if k == |Envs(input)| {
      at := [];
    } else {
      var here := OnePlaced(look, input, prev, k);
      var later := AllPlaced(look, input, prev, k + 1);
      at := here + later;
      GatherNext(NotesOn(look, input, prev), Envs(input), k);
      PlacedBefore(input, NotesOn(look, input, prev)(Envs(input)[k]),
                   Gather(NotesOn(look, input, prev), Envs(input)[k + 1..]), here, later, k);
    }
  }

  /**
   For every look: the notifications come with the machine's first, then workspace by workspace in the order of the
   status, each naming its workspace, and for one workspace in the order of the rules.
   */
  lemma NotesInOrder(prev: Option<State>, input: Input, prefs: Prefs, now: int, awakeSince: int) returns (at: seq<int>)
    ensures Placed(input, Oversee(prev, input, prefs, now, awakeSince).notes, at)
  {
    var look := LookAt(prev, prefs, now);
    var machine := MachineNotes(look, input, prev, awakeSince);
    var here: seq<int> := seq(|machine|, i => -1);
    MachineInTurn(look, input, prev, awakeSince);
    forall i | 0 <= i < |here| ensures Belongs(input, machine[i], here[i]) {
      assert machine[i] in machine;
      MachineOnly(look, input, prev, awakeSince, machine[i]);
    }
    var later := AllPlaced(look, input, prev, 0);
    assert Envs(input)[0..] == Envs(input);
    PlacedBefore(input, machine, Gather(NotesOn(look, input, prev), Envs(input)), here, later, -1);
    at := here + later;
  }
}
