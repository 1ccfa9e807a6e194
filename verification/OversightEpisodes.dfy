/**
 One notification per episode, over every run of looks: what lies between two notifications of one
 kind about one machine or workspace.
 */
module OversightEpisodes {
  import opened Options
  import opened OversightModel
  import opened OversightWake
  import opened OversightRuns

  /** Something true after look `i` is true before look `j` when every look between keeps it. */
  lemma {:induction false} Stays(run: seq<Record>, i: nat, j: nat, P: State -> bool)
    requires Chained(run) && i < j < |run| && P(run[i].next)
    requires forall k | i < k < j && run[k].prev.Some? && P(run[k].prev.value) :: P(run[k].next)
    ensures run[j].prev.Some? && P(run[j].prev.value)
    decreases j
  {
    if i + 1 < j {
      Stays(run, i, j - 1, P);
    }
    assert run[j].prev == Some(run[j - 1].next);
  }

  // ---------------------------------------------------------------- the machine

  /** A look that says `w`, of the machine. */
  ghost predicate Says(r: Record, w: What) {
    exists n :: n in r.notes && n.what == w
  }

  lemma MachineKinds(look: Look, input: Input, prev: Option<State>, awake: int, n: Note)
    requires n in MachineNotes(look, input, prev, awake)
    ensures n.what == AboutDisk ==> DiskNotes(look, prev, input) != []
    ensures n.what == AboutMemory ==> MemoryNotes(look, prev, input) != []
    ensures n.what == AboutLink ==> LinkNotes(look, prev, input, awake) != []
  {
  }

  /** A machine notification of a look is its own rule's. */
  lemma MachineRule(run: seq<Record>, k: nat, w: What)
    requires IsRun(run) && k < |run| && OfMachine(w) && Says(run[k], w)
    ensures w == AboutDisk ==> DiskNotes(LookOf(run[k].prev, run[k].turn), run[k].prev, run[k].turn.input) != []
    ensures w == AboutMemory ==> MemoryNotes(LookOf(run[k].prev, run[k].turn), run[k].prev, run[k].turn.input) != []
    ensures w == AboutLink ==>
              LinkNotes(LookOf(run[k].prev, run[k].turn), run[k].prev, run[k].turn.input, run[k].turn.awakeSince) != []
  {
    var r := run[k];
    assert Looked(run[k]);
    var n :| n in r.notes && n.what == w;
    MachineSource(r.prev, r.turn, n);
    MachineKinds(LookOf(r.prev, r.turn), r.turn.input, r.prev, r.turn.awakeSince, n);
  }

  ghost predicate Told(h: Option<Held>) {
    h.Some? && h.value.notified
  }

  /** A look with the volumes known and none under the recovery threshold. */
  ghost predicate Recovered(t: Turn) {
    t.input.volumes.Some?
    && (Lowest(t.input.volumes.value).None? || Lowest(t.input.volumes.value).value >= DISK_RECOVERED_BYTES)
  }

  lemma DiskRule(look: Look, prev: Option<State>, input: Input)
    ensures DiskNotes(look, prev, input) != [] ==> !Told(DiskBefore(prev)) && Told(NextDisk(look, prev, input))
    ensures Told(DiskBefore(prev)) && (input.volumes.None? || DiskLow(prev, input)) ==>
              Told(NextDisk(look, prev, input))
  {
  }

  /** The episode parts of the state a look leaves. */
  lemma MachineNext(run: seq<Record>, k: nat)
    requires IsRun(run) && k < |run|
    ensures run[k].next.disk == NextDisk(LookOf(run[k].prev, run[k].turn), run[k].prev, run[k].turn.input)
    ensures run[k].next.memory == NextMemory(LookOf(run[k].prev, run[k].turn), run[k].prev, run[k].turn.input)
    ensures run[k].next.link ==
              NextLink(LookOf(run[k].prev, run[k].turn), run[k].prev, run[k].turn.input, run[k].turn.awakeSince)
    ensures run[k].next.memoryKnown == (run[k].turn.input.memoryPressure.Some? || MemoryKnown(run[k].prev))
  {
    assert Looked(run[k]);
  }

  lemma DiskStep(run: seq<Record>, k: nat)
    requires IsRun(run) && k < |run|
    ensures Says(run[k], AboutDisk) ==> !Told(DiskBefore(run[k].prev)) && Told(run[k].next.disk)
    ensures Told(DiskBefore(run[k].prev)) && !Recovered(run[k].turn) ==> Told(run[k].next.disk)
  {
    var r := run[k];
    MachineNext(run, k);
    DiskRule(LookOf(r.prev, r.turn), r.prev, r.turn.input);
    if Says(r, AboutDisk) { MachineRule(run, k, AboutDisk); }
  }

  /** Two disk notifications have a look between them at which the disk had recovered. */
  lemma DiskOncePerEpisode(run: seq<Record>, i: nat, j: nat)
    requires IsRun(run) && i < j < |run| && Says(run[i], AboutDisk) && Says(run[j], AboutDisk)
    ensures exists k :: i < k < j && Recovered(run[k].turn)
  {
    DiskStep(run, i);
    DiskStep(run, j);
    if forall k | i < k < j :: !Recovered(run[k].turn) {
      var P := (s: State) => s.disk.Some? && s.disk.value.notified;
      forall k | i < k < j && run[k].prev.Some? && P(run[k].prev.value) ensures P(run[k].next) {
        DiskStep(run, k);
      }
      Stays(run, i, j, P);
    }
  }

  ghost predicate Relieved(t: Turn) {
    t.input.memoryPressure == Some(OtherPressure)
  }

  lemma MemoryRule(look: Look, prev: Option<State>, input: Input)
    ensures MemoryNotes(look, prev, input) != [] ==> !Told(MemoryBefore(prev)) && Told(NextMemory(look, prev, input))
    ensures Told(MemoryBefore(prev)) && input.memoryPressure != Some(OtherPressure) ==>
              Told(NextMemory(look, prev, input))
  {
    assert input.memoryPressure.Some? ==>
             input.memoryPressure.value == Critical || input.memoryPressure.value == OtherPressure;
  }

  lemma MemoryStep(run: seq<Record>, k: nat)
    requires IsRun(run) && k < |run|
    ensures Says(run[k], AboutMemory) ==> !Told(MemoryBefore(run[k].prev)) && Told(run[k].next.memory)
    ensures Told(MemoryBefore(run[k].prev)) && !Relieved(run[k].turn) ==> Told(run[k].next.memory)
  {
    var r := run[k];
    MachineNext(run, k);
    MemoryRule(LookOf(r.prev, r.turn), r.prev, r.turn.input);
    if Says(r, AboutMemory) { MachineRule(run, k, AboutMemory); }
  }

  /** Two memory notifications have a look between them at which the pressure was known and not critical. */
  lemma MemoryOncePerEpisode(run: seq<Record>, i: nat, j: nat)
    requires IsRun(run) && i < j < |run| && Says(run[i], AboutMemory) && Says(run[j], AboutMemory)
    ensures exists k :: i < k < j && Relieved(run[k].turn)
  {
    MemoryStep(run, i);
    MemoryStep(run, j);
    if forall k | i < k < j :: !Relieved(run[k].turn) {
      var P := (s: State) => s.memory.Some? && s.memory.value.notified;
      forall k | i < k < j && run[k].prev.Some? && P(run[k].prev.value) ensures P(run[k].next) {
        MemoryStep(run, k);
      }
      Stays(run, i, j, P);
    }
  }

  ghost predicate ToldOf(h: Option<HeldLink>, kind: Option<Link>) {
    h.Some? && Some(h.value.kind) == kind && h.value.held.notified
  }

  lemma LinkRule(look: Look, prev: Option<State>, input: Input, awake: int)
    ensures LinkNotes(look, prev, input, awake) != [] ==>
              LinkDown(input) && ToldOf(NextLink(look, prev, input, awake), input.link)
              && !(prev.Some? && ToldOf(prev.value.link, input.link))
    ensures LinkDown(input) && prev.Some? && ToldOf(prev.value.link, input.link) ==>
              ToldOf(NextLink(look, prev, input, awake), input.link)
  {
  }

  lemma LinkStep(run: seq<Record>, k: nat)
    requires IsRun(run) && k < |run|
    ensures Says(run[k], AboutLink) ==> LinkDown(run[k].turn.input) && ToldOf(run[k].next.link, run[k].turn.input.link)
    ensures Says(run[k], AboutLink) ==> !(run[k].prev.Some? && ToldOf(run[k].prev.value.link, run[k].turn.input.link))
    ensures run[k].prev.Some? && ToldOf(run[k].prev.value.link, run[k].turn.input.link)
            && LinkDown(run[k].turn.input) ==>
              ToldOf(run[k].next.link, run[k].turn.input.link)
  {
    var r := run[k];
    MachineNext(run, k);
    LinkRule(LookOf(r.prev, r.turn), r.prev, r.turn.input, r.turn.awakeSince);
    if Says(r, AboutLink) { MachineRule(run, k, AboutLink); }
  }

  /** Two link notifications have the link change between them. */
  lemma LinkOncePerEpisode(run: seq<Record>, i: nat, j: nat)
    requires IsRun(run) && i < j < |run| && Says(run[i], AboutLink) && Says(run[j], AboutLink)
    ensures exists k :: i < k <= j && run[k].turn.input.link != run[i].turn.input.link
  {
    var kind := run[i].turn.input.link;
    LinkStep(run, i);
    LinkStep(run, j);
    if forall k | i < k <= j :: run[k].turn.input.link == kind {
      var P := (s: State) => s.link.Some? && Some(s.link.value.kind) == kind && s.link.value.held.notified;
      forall k | i < k < j && run[k].prev.Some? && P(run[k].prev.value) ensures P(run[k].next) {
        assert run[k].turn.input.link == kind;
        LinkStep(run, k);
      }
      Stays(run, i, j, P);
    }
  }

  // ---------------------------------------------------------------- a workspace

  /** A look that says `w`, of the workspace at `path`. */
  ghost predicate SaysOf(r: Record, path: string, w: What) {
    exists n :: n in r.notes && n.what == w && !n.target.ToMachine? && n.target.path == path
  }

  /** The look leaves the workspace without an entry: it was absent too long. */
  ghost predicate Forgotten(r: Record, path: string) {
    path !in r.next.workspaces
  }

  /** The workspace's entry before a look, if there is one, has `P`. */
  ghost predicate Had(r: Record, path: string, P: Entry -> bool) {
    r.prev.Some? && path in r.prev.value.workspaces && P(r.prev.value.workspaces[path])
  }

  ghost predicate Has(r: Record, path: string, P: Entry -> bool) {
    path in r.next.workspaces && P(r.next.workspaces[path])
  }

  /** Something true of an entry stays true while every look that remembers the workspace keeps it. */
  lemma EntryStays(run: seq<Record>, path: string, i: nat, j: nat, P: Entry -> bool)
    requires Chained(run) && i < j < |run| && Has(run[i], path, P)
    requires forall k | i < k < j && Had(run[k], path, P) :: Has(run[k], path, P)
    ensures Had(run[j], path, P)
  {
    var Q := (s: State) => path in s.workspaces && P(s.workspaces[path]);
    forall k | i < k < j && run[k].prev.Some? && Q(run[k].prev.value) ensures Q(run[k].next) {
      assert Had(run[k], path, P);
      assert Has(run[k], path, P);
    }
    Stays(run, i, j, Q);
  }

  /** A workspace notification of a look is one of its rules', on the entry before; and it leaves the next entry. */
  lemma WorkspaceRule(run: seq<Record>, k: nat, path: string, w: What) returns (n: Note)
    requires Orderly(run) && k < |run| && !OfMachine(w) && SaysOf(run[k], path, w)
    ensures n.what == w && Listed(run[k].turn, path).Some?
    ensures n in WorkspaceNotes(LookOf(run[k].prev, run[k].turn), run[k].turn.input, Listed(run[k].turn, path).value,
                                Before(run[k].prev, path))
  {
    var r := run[k];
    assert Looked(run[k]);
    n :| n in r.notes && n.what == w && !n.target.ToMachine? && n.target.path == path;
    WorkspaceSource(r.prev, r.turn, n);
  }

  /** What a look does to an entry, as the rules' functions have it. */
  lemma EntryRule(run: seq<Record>, k: nat, path: string)
    requires Orderly(run) && k < |run|
    ensures Listed(run[k].turn, path).Some? ==>
              && path in run[k].next.workspaces
              && run[k].next.workspaces[path] ==
                NextEntry(LookOf(run[k].prev, run[k].turn), run[k].turn.input, Listed(run[k].turn, path).value,
                          Before(run[k].prev, path))
    ensures Listed(run[k].turn, path).None? && path in run[k].next.workspaces ==>
              Before(run[k].prev, path) == Some(run[k].next.workspaces[path])
  {
    var r := run[k];
    assert Looked(run[k]);
    EntryStep(r.prev, r.turn, path);
  }

  // ---- "Agent stopped"

  lemma StoppedStep(look: Look, input: Input, env: Env, prev: Option<Entry>)
    ensures var e := NextEntry(look, input, env, prev);
            && (FinishNotes(look, input, env, Entry1(look, input, env, prev)) != [] ==>
                  !(prev.Some? && prev.value.finishedInRun) && (!Idle(env) ==> e.finishedInRun))
            && (prev.Some? && prev.value.finishedInRun && !Idle(env) ==> e.finishedInRun)
  {
    NextFields(look, input, env, prev);
  }

  /** The look finds the workspace idle. */
  ghost predicate IdleAt(r: Record, path: string) {
    Listed(r.turn, path).Some? && Idle(Listed(r.turn, path).value)
  }

  const StoppedTold: Entry -> bool := (e: Entry) => e.finishedInRun

  lemma StoppedSaid(run: seq<Record>, k: nat, path: string)
    requires Orderly(run) && k < |run| && SaysOf(run[k], path, AboutStopped)
    ensures !Had(run[k], path, StoppedTold) && !Forgotten(run[k], path)
    ensures !IdleAt(run[k], path) ==> Has(run[k], path, StoppedTold)
  {
    var r := run[k];
    var n := WorkspaceRule(run, k, path, AboutStopped);
    var look, env, prev := LookOf(r.prev, r.turn), Listed(r.turn, path).value, Before(r.prev, path);
    RuleSource(look, r.turn.input, env, prev, n);
    StoppedStep(look, r.turn.input, env, prev);
    EntryRule(run, k, path);
  }

  lemma StoppedKept(run: seq<Record>, k: nat, path: string)
    requires Orderly(run) && k < |run| && Had(run[k], path, StoppedTold) && !IdleAt(run[k], path)
             && !Forgotten(run[k], path)
    ensures Has(run[k], path, StoppedTold)
  {
    var r := run[k];
    EntryRule(run, k, path);
    if Listed(r.turn, path).Some? {
      StoppedStep(LookOf(r.prev, r.turn), r.turn.input, Listed(r.turn, path).value, Before(r.prev, path));
    }
  }

  /**
   "Agent stopped" repeats for a workspace only after a look, the first one or later, that found it idle
   or forgot it.
   */
  lemma StoppedOncePerRun(run: seq<Record>, path: string, i: nat, j: nat)
    requires Orderly(run) && i < j < |run| && SaysOf(run[i], path, AboutStopped) && SaysOf(run[j], path, AboutStopped)
    ensures exists k :: i <= k < j && (IdleAt(run[k], path) || Forgotten(run[k], path))
  {
    StoppedSaid(run, i, path);
    StoppedSaid(run, j, path);
    if forall k | i <= k < j :: !IdleAt(run[k], path) && !Forgotten(run[k], path) {
      forall k | i < k < j && Had(run[k], path, StoppedTold) ensures Has(run[k], path, StoppedTold) {
        StoppedKept(run, k, path);
      }
      EntryStays(run, path, i, j, StoppedTold);
    }
  }

  // ---- attention

  lemma {:induction false} RaisedOnce(look: Look, env: Env, before: seq<ItemId>, items: seq<ItemId>, raised: bool)
    ensures var r := RaiseItems(look, env, before, items, raised);
            && |r.notes| <= 1 && (r.raised <==> raised || r.notes != []) && (raised ==> r.notes == [])
    decreases |items|
  {
    if items != [] {
      RaisedOnce(look, env, before, items[1..], raised || ItemSaid(look, before, items[0], raised));
    }
  }

  /** The rules before the last leave the allowance as it was. */
  lemma AllowanceKept(look: Look, input: Input, env: Env, prev: Option<Entry>)
    ensures Entry5(look, input, env, prev).attentionRaised == (prev.Some? && prev.value.attentionRaised)
  {
  }

  lemma AttentionStep(look: Look, input: Input, env: Env, prev: Option<Entry>)
    ensures var e, notes := NextEntry(look, input, env, prev),
                            Raise(look, input, env, prev, Entry5(look, input, env, prev).attentionRaised).notes;
            && |notes| <= 1
            && (notes != [] ==>
                  e.attentionRaised
                  && (!(prev.Some? && prev.value.attentionRaised) || AllowanceReturns(input, env, look.now, prev)))
            && (prev.Some? && prev.value.attentionRaised && !AllowanceReturns(input, env, look.now, prev) ==>
                  e.attentionRaised)
  {
    AllowanceKept(look, input, env, prev);
    RaisedOnce(look, env, ItemsBefore(prev), Pending(input, env, look.now),
               Entry5(look, input, env, prev).attentionRaised && !AllowanceReturns(input, env, look.now, prev));
  }

  /** The look gives the allowance back: it lists the workspace with nothing pending, or no longer idle. */
  ghost predicate Returns(r: Record, path: string) {
    Listed(r.turn, path).Some?
    && AllowanceReturns(r.turn.input, Listed(r.turn, path).value, r.turn.now, Before(r.prev, path))
  }

  const AttentionSpent: Entry -> bool := (e: Entry) => e.attentionRaised

  lemma AttentionSaid(run: seq<Record>, k: nat, path: string, item: ItemId)
    requires Orderly(run) && k < |run| && SaysOf(run[k], path, AboutItem(item))
    ensures Had(run[k], path, AttentionSpent) ==> Returns(run[k], path)
    ensures Has(run[k], path, AttentionSpent)
  {
    var r := run[k];
    var n := WorkspaceRule(run, k, path, AboutItem(item));
    var look, env, prev := LookOf(r.prev, r.turn), Listed(r.turn, path).value, Before(r.prev, path);
    RuleSource(look, r.turn.input, env, prev, n);
    AttentionStep(look, r.turn.input, env, prev);
    EntryRule(run, k, path);
  }

  lemma AttentionKept(run: seq<Record>, k: nat, path: string)
    requires Orderly(run) && k < |run| && Had(run[k], path, AttentionSpent) && !Returns(run[k], path)
             && !Forgotten(run[k], path)
    ensures Has(run[k], path, AttentionSpent)
  {
    var r := run[k];
    EntryRule(run, k, path);
    if Listed(r.turn, path).Some? {
      AttentionStep(LookOf(r.prev, r.turn), r.turn.input, Listed(r.turn, path).value, Before(r.prev, path));
    }
  }

  /**
   At most one attention notification per workspace until the allowance returns: two looks that raise
   one, for whatever items, have a look up to the second at which nothing was pending or the
   workspace stopped being idle, or one that forgot it.
   */
  lemma AttentionOncePerAllowance(run: seq<Record>, path: string, i: nat, j: nat, a: ItemId, b: ItemId)
    requires Orderly(run) && i < j < |run| && SaysOf(run[i], path, AboutItem(a)) && SaysOf(run[j], path, AboutItem(b))
    ensures exists k :: i <= k <= j && ((i < k && Returns(run[k], path)) || (k < j && Forgotten(run[k], path)))
  {
    AttentionSaid(run, i, path, a);
    AttentionSaid(run, j, path, b);
    if forall k | i <= k <= j :: !(i < k && Returns(run[k], path)) && !(k < j && Forgotten(run[k], path)) {
      forall k | i < k < j && Had(run[k], path, AttentionSpent) ensures Has(run[k], path, AttentionSpent) {
        assert !Returns(run[k], path) && !Forgotten(run[k], path);
        AttentionKept(run, k, path);
      }
      assert !Returns(run[j], path);
      EntryStays(run, path, i, j, AttentionSpent);
    }
  }

  lemma SingleItem(look: Look, input: Input, env: Env, prev: Option<Entry>, n: Note)
    requires n in WorkspaceNotes(look, input, env, prev) && n.what.AboutItem?
    ensures Raise(look, input, env, prev, Entry5(look, input, env, prev).attentionRaised).notes == [n]
  {
    RuleSource(look, input, env, prev, n);
    AttentionStep(look, input, env, prev);
    OnlyOne(Raise(look, input, env, prev, Entry5(look, input, env, prev).attentionRaised).notes, n);
  }

  lemma OnlyOne(notes: seq<Note>, n: Note)
    requires |notes| <= 1 && n in notes
    ensures notes == [n]
  {
  }

  /** An attention notification of a look is the only one of its workspace. */
  lemma ItemRule(run: seq<Record>, k: nat, path: string, item: ItemId) returns (n: Note)
    requires Orderly(run) && k < |run| && SaysOf(run[k], path, AboutItem(item))
    ensures n.what == AboutItem(item) && Listed(run[k].turn, path).Some?
    ensures var look, env, prev := LookOf(run[k].prev, run[k].turn), Listed(run[k].turn, path).value,
                                   Before(run[k].prev, path);
            Raise(look, run[k].turn.input, env, prev,
                  Entry5(look, run[k].turn.input, env, prev).attentionRaised).notes == [n]
  {
    var r := run[k];
    n := WorkspaceRule(run, k, path, AboutItem(item));
    SingleItem(LookOf(r.prev, r.turn), r.turn.input, Listed(r.turn, path).value, Before(r.prev, path), n);
  }

  /** And one look raises at most one. */
  lemma OneItemPerLook(run: seq<Record>, k: nat, path: string, a: ItemId, b: ItemId)
    requires Orderly(run) && k < |run| && SaysOf(run[k], path, AboutItem(a)) && SaysOf(run[k], path, AboutItem(b))
    ensures a == b
  {
    var m := ItemRule(run, k, path, a);
    var n := ItemRule(run, k, path, b);
  }

  // ---- stuck

  /** When the workspace last showed work, as the look sees it. */
  function WorkSeen(r: Record, path: string): Stamp {
    if Listed(r.turn, path).None? then None
    else Since(LookOf(r.prev, r.turn), r.turn.input, Listed(r.turn, path).value, Before(r.prev, path))
  }

  ghost predicate Newer(a: Stamp, b: Stamp) {
    a.Some? && b.Some? && a.value > b.value
  }

  lemma StuckStep(look: Look, input: Input, env: Env, prev: Option<Entry>)
    ensures var e, since := NextEntry(look, input, env, prev), Since(look, input, env, prev);
            && (StuckNotes(look, input, env, since, Entry2(look, input, env, prev)) != [] ==>
                  since.Some? && e.stuckAt == since
                  && (prev.Some? && prev.value.stuckAt.Some? ==> Newer(since, prev.value.stuckAt)))
            && (prev.Some? && prev.value.stuckAt.Some? && !Newer(since, prev.value.stuckAt) ==>
                  e.stuckAt == prev.value.stuckAt)
  {
    NextFields(look, input, env, prev);
    StartKeeps(look, input, env, Fresh(look, env, prev));
    FinishKeeps(look, input, env, Entry1(look, input, env, prev));
  }

  function StuckSince(at: Stamp): Entry -> bool {
    (e: Entry) => e.stuckAt == at
  }

  lemma StuckSaid(run: seq<Record>, k: nat, path: string)
    requires Orderly(run) && k < |run| && SaysOf(run[k], path, AboutStuck)
    ensures WorkSeen(run[k], path).Some? && Has(run[k], path, StuckSince(WorkSeen(run[k], path)))
    ensures forall at: Stamp | at.Some? && Had(run[k], path, StuckSince(at)) :: Newer(WorkSeen(run[k], path), at)
  {
    var r := run[k];
    var n := WorkspaceRule(run, k, path, AboutStuck);
    var look, env, prev := LookOf(r.prev, r.turn), Listed(r.turn, path).value, Before(r.prev, path);
    RuleSource(look, r.turn.input, env, prev, n);
    StuckStep(look, r.turn.input, env, prev);
    EntryRule(run, k, path);
  }

  lemma StuckKept(run: seq<Record>, k: nat, path: string, at: Stamp)
    requires Orderly(run) && k < |run| && at.Some? && Had(run[k], path, StuckSince(at))
    requires !Newer(WorkSeen(run[k], path), at) && !Forgotten(run[k], path)
    ensures Has(run[k], path, StuckSince(at))
  {
    var r := run[k];
    EntryRule(run, k, path);
    if Listed(r.turn, path).Some? {
      StuckStep(LookOf(r.prev, r.turn), r.turn.input, Listed(r.turn, path).value, Before(r.prev, path));
    }
  }

  /** Two "stuck" notifications of a workspace have newer work, or its being forgotten, between them. */
  lemma StuckOncePerStandstill(run: seq<Record>, path: string, i: nat, j: nat)
    requires Orderly(run) && i < j < |run| && SaysOf(run[i], path, AboutStuck) && SaysOf(run[j], path, AboutStuck)
    ensures exists k ::
              i <= k <= j && (Newer(WorkSeen(run[k], path), WorkSeen(run[i], path))
                              || (k < j && Forgotten(run[k], path)))
  {
    var at := WorkSeen(run[i], path);
    StuckSaid(run, i, path);
    StuckSaid(run, j, path);
    if forall k | i <= k <= j :: !Newer(WorkSeen(run[k], path), at) && !(k < j && Forgotten(run[k], path)) {
      forall k | i < k < j && Had(run[k], path, StuckSince(at)) ensures Has(run[k], path, StuckSince(at)) {
        assert !Newer(WorkSeen(run[k], path), at) && !Forgotten(run[k], path);
        StuckKept(run, k, path, at);
      }
      assert !Newer(WorkSeen(run[j], path), at);
      EntryStays(run, path, i, j, StuckSince(at));
    }
  }

  // ---- failing builds

  lemma LoopStep(look: Look, env: Env, prev: Option<Entry>, p: Platform)
    ensures var next := NextLoop(look, env, prev, p);
            && (LoopNotes(look, env, prev, p) != [] ==>
                  && Loops(env, p) && next == Some(Loop(FailureStreak(History(env, p)).value.signature, true))
                  && LoopOf(prev, p) != next)
            && (Loops(env, p) && LoopOf(prev, p) == Some(Loop(FailureStreak(History(env, p)).value.signature, true)) ==>
                  next == LoopOf(prev, p))
  {
  }

  /** The look sees the workspace's builds fail in a row from this cause. */
  ghost predicate FailsFrom(r: Record, path: string, p: Platform, cause: string) {
    && Listed(r.turn, path).Some? && Loops(Listed(r.turn, path).value, p)
    && FailureStreak(History(Listed(r.turn, path).value, p)).value.signature == cause
  }

  function LoopTold(p: Platform, cause: string): Entry -> bool {
    (e: Entry) => LoopOf(Some(e), p) == Some(Loop(cause, true))
  }

  lemma LoopNext(run: seq<Record>, k: nat, path: string, p: Platform)
    requires Orderly(run) && k < |run| && Listed(run[k].turn, path).Some? && p != Chrome
    ensures path in run[k].next.workspaces
    ensures LoopOf(Some(run[k].next.workspaces[path]), p) ==
              NextLoop(LookOf(run[k].prev, run[k].turn), Listed(run[k].turn, path).value, Before(run[k].prev, path), p)
  {
    var r := run[k];
    EntryRule(run, k, path);
    NextFields(LookOf(r.prev, r.turn), r.turn.input, Listed(r.turn, path).value, Before(r.prev, path));
  }

  lemma LoopSaid(run: seq<Record>, k: nat, path: string, p: Platform) returns (cause: string)
    requires Orderly(run) && k < |run| && p != Chrome && SaysOf(run[k], path, AboutLoop(p))
    ensures FailsFrom(run[k], path, p, cause) && Has(run[k], path, LoopTold(p, cause))
            && !Had(run[k], path, LoopTold(p, cause))
  {
    var r := run[k];
    var n := WorkspaceRule(run, k, path, AboutLoop(p));
    var look, env, prev := LookOf(r.prev, r.turn), Listed(r.turn, path).value, Before(r.prev, path);
    RuleSource(look, r.turn.input, env, prev, n);
    LoopStep(look, env, prev, p);
    LoopNext(run, k, path, p);
    cause := FailureStreak(History(env, p)).value.signature;
  }

  lemma LoopKept(run: seq<Record>, k: nat, path: string, p: Platform, cause: string)
    requires Orderly(run) && k < |run| && p != Chrome && Had(run[k], path, LoopTold(p, cause))
             && FailsFrom(run[k], path, p, cause)
    ensures Has(run[k], path, LoopTold(p, cause))
  {
    LoopStep(LookOf(run[k].prev, run[k].turn), Listed(run[k].turn, path).value, Before(run[k].prev, path), p);
    LoopNext(run, k, path, p);
  }

  /** Two "builds failing in a row" notifications have a look between them that did not see that cause's row. */
  lemma LoopOncePerCause(run: seq<Record>, path: string, p: Platform, i: nat, j: nat) returns (cause: string)
    requires Orderly(run) && i < j < |run| && p != Chrome && SaysOf(run[i], path, AboutLoop(p))
             && SaysOf(run[j], path, AboutLoop(p))
    ensures FailsFrom(run[i], path, p, cause)
    ensures exists k :: i < k <= j && !FailsFrom(run[k], path, p, cause)
  {
    cause := LoopSaid(run, i, path, p);
    var last := LoopSaid(run, j, path, p);
    if forall k | i < k <= j :: FailsFrom(run[k], path, p, cause) {
      forall k | i < k < j && Had(run[k], path, LoopTold(p, cause)) ensures Has(run[k], path, LoopTold(p, cause)) {
        assert FailsFrom(run[k], path, p, cause);
        LoopKept(run, k, path, p, cause);
      }
      assert FailsFrom(run[j], path, p, cause);
      EntryStays(run, path, i, j, LoopTold(p, cause));
    }
  }
}
