/**
 Wake soundness: while nothing changes, no look before the returned wake-up time has anything to say,
 and the wake-up time stands. The one exception, exactly: a workspace that is idle and yet driven by
 an agent is announced again at every look.
 */
module OversightWake {
  import opened Options
  import opened OversightModel

  /** A later look with the same preferences. */
  ghost predicate Again(a: Look, b: Look) {
    b.prefs == a.prefs && !b.baseline && a.now <= b.now
  }

  ghost predicate Below(t: int, wakes: seq<int>) {
    forall i | 0 <= i < |wakes| :: t < wakes[i]
  }

  lemma BelowSplit(t: int, a: seq<int>, b: seq<int>)
    requires Below(t, a + b)
    ensures Below(t, a) && Below(t, b)
  {
    forall i | 0 <= i < |a| ensures t < a[i] { assert (a + b)[i] == a[i]; }
    forall i | 0 <= i < |b| ensures t < b[i] { assert (a + b)[|a| + i] == b[i]; }
  }

  lemma {:induction false} EarliestBelow(t: int, wakes: seq<int>)
    ensures Below(t, wakes) <==> Earliest(wakes).None? || t < Earliest(wakes).value
    decreases |wakes|
  {
    if wakes != [] {
      EarliestBelow(t, wakes[1..]);
      assert wakes == [wakes[0]] + wakes[1..];
      if Below(t, wakes) {
        BelowSplit(t, [wakes[0]], wakes[1..]);
      }
      if Below(t, wakes[1..]) && t < wakes[0] {
        forall i | 0 <= i < |wakes| ensures t < wakes[i] {
          if i > 0 { assert wakes[i] == wakes[1..][i - 1]; }
        }
      }
    }
  }

  // ---------------------------------------------------------------- the machine

  lemma LinkAgain(a: Look, b: Look, prev: Option<State>, next: State, input: Input, awake: int)
    requires Again(a, b) && a.baseline == prev.None? && next.link == NextLink(a, prev, input, awake)
    requires Below(b.now, LinkWakes(a, prev, input, awake))
    ensures LinkNotes(b, Some(next), input, awake) == []
            && LinkWakes(b, Some(next), input, awake) == LinkWakes(a, prev, input, awake)
  {
    if LinkDown(input) {
      var held := LinkHeld(a, prev, input);
      var due := LinkDue(input.link.value, held.since, awake);
      if !held.notified && due > a.now { assert LinkWakes(a, prev, input, awake)[0] == due; }
    }
  }

  lemma DiskAgain(a: Look, b: Look, prev: Option<State>, next: State, input: Input)
    requires Again(a, b) && next.disk == NextDisk(a, prev, input)
    ensures DiskNotes(b, Some(next), input) == []
  {
  }

  lemma MemoryAgain(a: Look, b: Look, prev: Option<State>, next: State, input: Input)
    requires Again(a, b) && a.baseline == prev.None? && next.memory == NextMemory(a, prev, input)
    requires next.memoryKnown == (input.memoryPressure.Some? || MemoryKnown(prev))
    requires Below(b.now, MemoryWakes(a, prev, input))
    ensures MemoryNotes(b, Some(next), input) == [] && MemoryWakes(b, Some(next), input) == MemoryWakes(a, prev, input)
  {
    var held := MemoryHeld(a, prev);
    if input.memoryPressure == Some(Critical) && !held.notified && !a.baseline
       && held.since + MEMORY_SETTLE_MS > a.now {
      assert MemoryWakes(a, prev, input)[0] == held.since + MEMORY_SETTLE_MS;
    }
  }

  lemma MachineAgain(a: Look, b: Look, prev: Option<State>, next: State, input: Input, awake: int)
    requires Again(a, b) && a.baseline == prev.None? && Below(b.now, MachineWakes(a, input, prev, awake))
    requires next.link == NextLink(a, prev, input, awake) && next.disk == NextDisk(a, prev, input)
    requires next.memory == NextMemory(a, prev, input)
             && next.memoryKnown == (input.memoryPressure.Some? || MemoryKnown(prev))
    ensures MachineNotes(b, input, Some(next), awake) == []
    ensures MachineWakes(b, input, Some(next), awake) == MachineWakes(a, input, prev, awake)
  {
    BelowSplit(b.now, LinkWakes(a, prev, input, awake), MemoryWakes(a, prev, input));
    LinkAgain(a, b, prev, next, input, awake);
    DiskAgain(a, b, prev, next, input);
    MemoryAgain(a, b, prev, next, input);
  }

  // ---------------------------------------------------------------- a workspace

  /** An idle workspace that an agent drives. */
  predicate IdleYetDriven(input: Input, env: Env) {
    Idle(env) && Driven(env, input).Some?
  }

  /** What the entry `e` that a look leaves takes from the entries after its first rules. */
  ghost predicate Left(env: Env, a1: Entry, a2: Entry, a3: Entry, e: Entry) {
    && e.warmed == a2.warmed && e.drove == a2.drove && e.driveNotified == a2.driveNotified
    && e.finished == a2.finished && e.finishedInRun == a2.finishedInRun
    && e.drivenAt == a1.drivenAt && e.errors == env.errors && e.errorsAt == a1.errorsAt
    && e.stuckAt == a3.stuckAt && e.running == !Idle(env)
  }

  lemma StuckKeeps(a: Look, input: Input, env: Env, since: Stamp, a2: Entry)
    ensures var a3 := AfterStuck(a, input, env, since, a2);
            && a3.warmed == a2.warmed && a3.drove == a2.drove && a3.driveNotified == a2.driveNotified
            && a3.finished == a2.finished && a3.finishedInRun == a2.finishedInRun && a3.running == a2.running
            && a3.drivenAt == a2.drivenAt && a3.errors == a2.errors && a3.errorsAt == a2.errorsAt
            && a3.pr == a2.pr && a3.mergedInto == a2.mergedInto
  {
  }

  lemma LaterKeeps(a: Look, input: Input, env: Env, prev: Option<Entry>, a3: Entry)
    ensures var e := AfterAttention(a, input, env, prev, AfterMerge(input, env, prev, AfterLoops(a, env, prev, a3)));
            && e.warmed == a3.warmed && e.drove == a3.drove && e.driveNotified == a3.driveNotified
            && e.finished == a3.finished && e.finishedInRun == a3.finishedInRun && e.running == a3.running
            && e.drivenAt == a3.drivenAt && e.errors == a3.errors && e.errorsAt == a3.errorsAt
            && e.stuckAt == a3.stuckAt
            && e.iosLoop == NextLoop(a, env, prev, Ios) && e.androidLoop == NextLoop(a, env, prev, Android)
            && e.pr == SeenPr(input, env, a3) && e.mergedInto == a3.mergedInto
  {
  }

  lemma StartKeeps(a: Look, input: Input, env: Env, e: Entry)
    ensures var a1 := AfterStart(a, input, env, e);
            && a1.errors == e.errors && a1.errorsAt == e.errorsAt && a1.stuckAt == e.stuckAt && a1.running == e.running
            && a1.pr == e.pr && a1.mergedInto == e.mergedInto
  {
  }

  lemma FinishKeeps(a: Look, input: Input, env: Env, e: Entry)
    ensures var a2 := AfterFinish(a, input, env, e);
            && a2.errors == e.errors && a2.errorsAt == e.errorsAt && a2.stuckAt == e.stuckAt && a2.running == e.running
            && a2.drivenAt == e.drivenAt && a2.pr == e.pr && a2.mergedInto == e.mergedInto
  {
  }

  lemma LeftEarly(a: Look, input: Input, env: Env, prev: Option<Entry>, a3: Entry)
    requires a3 == Entry3(a, input, env, prev)
    ensures Left(env, Entry1(a, input, env, prev), Entry2(a, input, env, prev), a3, a3)
    ensures a3.pr == Fresh(a, env, prev).pr && a3.mergedInto == Fresh(a, env, prev).mergedInto
  {
    StartKeeps(a, input, env, Fresh(a, env, prev));
    FinishKeeps(a, input, env, Entry1(a, input, env, prev));
    StuckKeeps(a, input, env, Since(a, input, env, prev), Entry2(a, input, env, prev));
  }

  lemma LeftLate(a: Look, input: Input, env: Env, prev: Option<Entry>, a1: Entry, a2: Entry, a3: Entry)
    requires Left(env, a1, a2, a3, a3)
    ensures var e := AfterAttention(a, input, env, prev, AfterMerge(input, env, prev, AfterLoops(a, env, prev, a3)));
            Left(env, a1, a2, a3, e)
  {
    LaterKeeps(a, input, env, prev, a3);
  }

  lemma NextFields(a: Look, input: Input, env: Env, prev: Option<Entry>)
    ensures Leaves(a, input, env, prev, NextEntry(a, input, env, prev))
  {
    var a3 := Entry3(a, input, env, prev);
    LeftEarly(a, input, env, prev, a3);
    LeftLate(a, input, env, prev, Entry1(a, input, env, prev), Entry2(a, input, env, prev), a3);
    LaterKeeps(a, input, env, prev, a3);
  }

  /** A workspace's drive is announced again only when it is idle; its warming never. */
  lemma StartAgain(a: Look, b: Look, input: Input, env: Env, a0: Entry, e: Entry)
    requires Again(a, b)
    requires var a1 := AfterStart(a, input, env, a0); var a2 := AfterFinish(a, input, env, a1);
             e.warmed == a2.warmed && e.driveNotified == a2.driveNotified
    ensures StartNotes(b, input, env, Fresh(b, env, Some(e))) != [] <==> IdleYetDriven(input, env) && Loud(b, Started)
  {
    var a1 := AfterStart(a, input, env, a0);
    if Driven(env, input).Some? { assert !MayFinish(input, env, a1); }
  }

  /** The time of the last activity, and whether the run counts as driven, carry over to the next look. */
  ghost predicate Carried(input: Input, env: Env, a1: Entry, a2: Entry, b1: Entry) {
    && b1.errorsAt == a1.errorsAt
    && (Driven(env, input).None? ==> b1.drivenAt == a1.drivenAt && b1.drove == a2.drove && b1.finished == a2.finished)
    && (Driven(env, input).Some? ==> b1.drove && !b1.finished && a1.drove && !a1.finished)
  }

  lemma StartCarries(a: Look, b: Look, input: Input, env: Env, a0: Entry, a2: Entry, e: Entry)
    requires var a1 := AfterStart(a, input, env, a0);
             e.errors == env.errors && e.errorsAt == a1.errorsAt && e.drivenAt == a1.drivenAt && e.drove == a2.drove
             && e.finished == a2.finished
    ensures var a1, b1 := AfterStart(a, input, env, a0), AfterStart(b, input, env, Fresh(b, env, Some(e)));
            Carried(input, env, a1, a2, b1) && b1.stuckAt == e.stuckAt
  {
  }

  /** A run still waits to count as finished at the next look exactly when it waited at this one. */
  lemma StillWaits(a: Look, input: Input, env: Env, a1: Entry, b1: Entry)
    requires Carried(input, env, a1, AfterFinish(a, input, env, a1), b1)
             && QuietSince(input, env, b1) == QuietSince(input, env, a1)
    ensures MayFinish(input, env, b1) <==> MayFinish(input, env, a1) && !Finishes(a, input, env, a1)
    ensures b1.finished ==> a1.finished || Finishes(a, input, env, a1)
    ensures b1.drove && !Idle(env) && !b1.finished <==> AfterFinish(a, input, env, a1).drove
  {
    var a2 := AfterFinish(a, input, env, a1);
    var idle, done := Idle(env), a1.finished || Finishes(a, input, env, a1);
    assert a2.drove == (a1.drove && !idle && !done) && a2.finished == (done && !idle);
    if Driven(env, input).Some? {
      assert !MayFinish(input, env, a1) && !MayFinish(input, env, b1);
    }
  }

  lemma FinishAgain(a: Look, b: Look, input: Input, env: Env, a1: Entry, b1: Entry)
    requires Again(a, b) && Carried(input, env, a1, AfterFinish(a, input, env, a1), b1)
             && Below(b.now, FinishWakes(a, input, env, a1))
    requires QuietSince(input, env, b1) == QuietSince(input, env, a1)
    ensures FinishNotes(b, input, env, b1) == [] && FinishWakes(b, input, env, b1) == FinishWakes(a, input, env, a1)
    ensures AfterFinish(b, input, env, b1).drove == AfterFinish(a, input, env, a1).drove
    ensures AfterFinish(b, input, env, b1).stuckAt == b1.stuckAt
  {
    StillWaits(a, input, env, a1, b1);
    if MayFinish(input, env, a1) && !Idle(env) {
      var due := QuietSince(input, env, a1).value + FINISH_SETTLE_MS;
      if due > a.now { assert FinishWakes(a, input, env, a1)[0] == due; }
    }
    assert !Finishes(b, input, env, b1);
  }

  lemma StuckAgain(a: Look, b: Look, input: Input, env: Env, since: Stamp, a2: Entry, b2: Entry)
    requires Again(a, b) && Below(b.now, StuckWakes(a, input, env, since, a2))
    requires b2.drove == a2.drove && b2.stuckAt == AfterStuck(a, input, env, since, a2).stuckAt
    ensures StuckNotes(b, input, env, since, b2) == []
    ensures StuckWakes(b, input, env, since, b2) == StuckWakes(a, input, env, since, a2)
  {
    if MayBeStuck(input, env, since, a2) {
      var due := StuckDue(a, since.value);
      if due > a.now { assert StuckWakes(a, input, env, since, a2)[0] == due; }
    }
  }

  lemma LoopAgain(a: Look, b: Look, env: Env, prev: Option<Entry>, e: Entry, p: Platform)
    requires Again(a, b) && LoopOf(Some(e), p) == NextLoop(a, env, prev, p)
    ensures LoopNotes(b, env, Some(e), p) == []
  {
  }

  lemma MergeAgain(b: Look, input: Input, env: Env, prev: Option<Entry>, a0: Entry, e: Entry, b4: Entry)
    requires e.pr == SeenPr(input, env, a0) && b4.pr == e.pr && b4.mergedInto == e.mergedInto
    ensures MergeNotes(b, input, env, Some(e), b4) == []
  {
  }

  /** Starting, finishing and being stuck, together. */
  lemma ProgressAgain(a: Look, b: Look, input: Input, env: Env, prev: Option<Entry>, e: Entry)
    requires Again(a, b)
             && Left(env, Entry1(a, input, env, prev), Entry2(a, input, env, prev), Entry3(a, input, env, prev), e)
    requires Below(b.now, FinishWakes(a, input, env, Entry1(a, input, env, prev)))
    requires Below(b.now, StuckWakes(a, input, env, Since(a, input, env, prev), Entry2(a, input, env, prev)))
    ensures StartNotes(b, input, env, Fresh(b, env, Some(e))) != [] <==> IdleYetDriven(input, env) && Loud(b, Started)
    ensures FinishNotes(b, input, env, Entry1(b, input, env, Some(e))) == []
    ensures FinishWakes(b, input, env, Entry1(b, input, env, Some(e))) ==
              FinishWakes(a, input, env, Entry1(a, input, env, prev))
    ensures StuckNotes(b, input, env, Since(b, input, env, Some(e)), Entry2(b, input, env, Some(e))) == []
    ensures StuckWakes(b, input, env, Since(b, input, env, Some(e)), Entry2(b, input, env, Some(e)))
            == StuckWakes(a, input, env, Since(a, input, env, prev), Entry2(a, input, env, prev))
  {
    var a0, a1, a2, b1 := Fresh(a, env, prev), Entry1(a, input, env, prev), Entry2(a, input, env, prev),
                          Entry1(b, input, env, Some(e));
    StartAgain(a, b, input, env, a0, e);
    StartCarries(a, b, input, env, a0, a2, e);
    assert QuietSince(input, env, b1) == QuietSince(input, env, a1);
    FinishAgain(a, b, input, env, a1, b1);
    StuckAgain(a, b, input, env, Since(a, input, env, prev), a2, Entry2(b, input, env, Some(e)));
  }

  lemma MergeFields(b: Look, input: Input, env: Env, e: Entry)
    ensures var b4 := Entry4(b, input, env, Some(e));
            b4.pr == e.pr && b4.mergedInto == Fresh(b, env, Some(e)).mergedInto
  {
    StartKeeps(b, input, env, Fresh(b, env, Some(e)));
    FinishKeeps(b, input, env, Entry1(b, input, env, Some(e)));
    StuckKeeps(b, input, env, Since(b, input, env, Some(e)), Entry2(b, input, env, Some(e)));
  }

  // ---------------------------------------------------------------- attention items

  lemma {:induction false} LeasesAgain(ds: seq<Leased>, t: int, u: int)
    requires t <= u && Below(u, LeaseWakes(ds, t))
    ensures LeaseItems(ds, u) == LeaseItems(ds, t) && LeaseWakes(ds, u) == LeaseWakes(ds, t)
    decreases |ds|
  {
    if ds != [] {
      var first := if ds[0].expiresAt.Some? then WakeAt(true, ds[0].expiresAt.value, t) else [];
      BelowSplit(u, first, LeaseWakes(ds[1..], t));
      LeasesAgain(ds[1..], t, u);
      if first != [] { assert u < first[0]; }
    }
  }

  lemma {:induction false} SessionsAgain(ss: seq<Session>, t: int, u: int)
    requires t <= u && Below(u, EasWakes(ss, t))
    ensures EasItems(ss, u) == EasItems(ss, t) && EasWakes(ss, u) == EasWakes(ss, t)
    decreases |ss|
  {
    if ss != [] {
      var first := if EasDue(ss[0]).Some? then WakeAt(true, EasDue(ss[0]).value, t) else [];
      BelowSplit(u, first, EasWakes(ss[1..], t));
      SessionsAgain(ss[1..], t, u);
      if first != [] { assert u < first[0]; }
    }
  }

  /** No new item before the wake-up time: items may only age out. */
  lemma PendingAgain(input: Input, env: Env, t: int, u: int)
    requires t <= u && Below(u, ItemWakes(input, env, t))
    ensures ItemWakes(input, env, u) == ItemWakes(input, env, t)
    ensures forall item | item in Pending(input, env, u) :: item in Pending(input, env, t)
  {
    var eas := if RunningDriven(env.devices, input.ownLeases) then [] else EasWakes(env.remoteDevices, t);
    BelowSplit(u, LeaseWakes(env.physicalDevices, t), eas);
    LeasesAgain(env.physicalDevices, t, u);
    if !RunningDriven(env.devices, input.ownLeases) { SessionsAgain(env.remoteDevices, t, u); }
  }

  lemma {:induction false} AllKept(look: Look, env: Env, before: seq<ItemId>, items: seq<ItemId>, raised: bool)
    requires Settles(look, Attention)
    ensures RaiseItems(look, env, before, items, raised).kept == items
    decreases |items|
  {
    if items != [] {
      AllKept(look, env, before, items[1..], raised || ItemSaid(look, before, items[0], raised));
    }
  }

  lemma {:induction false} NoneSaid(look: Look, env: Env, before: seq<ItemId>, items: seq<ItemId>, raised: bool)
    requires !Loud(look, Attention) || forall item | item in items :: item in before
    ensures RaiseItems(look, env, before, items, raised).notes == []
    decreases |items|
  {
    if items != [] {
      assert items[0] in items;
      NoneSaid(look, env, before, items[1..], raised || ItemSaid(look, before, items[0], raised));
    }
  }

  lemma ItemsAgain(a: Look, b: Look, input: Input, env: Env, prev: Option<Entry>, e: Entry, spent: bool, raised: bool)
    requires Again(a, b) && Below(b.now, ItemWakes(input, env, a.now))
    requires e.attention == Raise(a, input, env, prev, spent).kept
    ensures ItemWakes(input, env, b.now) == ItemWakes(input, env, a.now)
    ensures Raise(b, input, env, Some(e), raised).notes == []
  {
    PendingAgain(input, env, a.now, b.now);
    if Settles(a, Attention) {
      AllKept(a, env, ItemsBefore(prev), Pending(input, env, a.now),
              spent && !AllowanceReturns(input, env, a.now, prev));
    }
    NoneSaid(b, env, e.attention, Pending(input, env, b.now), raised && !AllowanceReturns(input, env, b.now, Some(e)));
  }

  // ---------------------------------------------------------------- whole looks

  /** All a look leaves in an entry that the next look's notifications depend on. */
  ghost predicate Leaves(a: Look, input: Input, env: Env, prev: Option<Entry>, e: Entry) {
    && Left(env, Entry1(a, input, env, prev), Entry2(a, input, env, prev), Entry3(a, input, env, prev), e)
    && e.iosLoop == NextLoop(a, env, prev, Ios) && e.androidLoop == NextLoop(a, env, prev, Android)
    && e.pr == SeenPr(input, env, Fresh(a, env, prev)) && e.mergedInto == Fresh(a, env, prev).mergedInto
    && e.attention == Raise(a, input, env, prev, Entry5(a, input, env, prev).attentionRaised).kept
  }

  /** A second look at one workspace speaks only of an idle one that is driven, and waits for the same times. */
  lemma WorkspaceAgain(a: Look, b: Look, input: Input, env: Env, prev: Option<Entry>, e: Entry)
    requires Again(a, b) && Below(b.now, WorkspaceWakes(a, input, env, prev)) && Leaves(a, input, env, prev, e)
    ensures WorkspaceNotes(b, input, env, Some(e)) == [] <==> !(IdleYetDriven(input, env) && Loud(b, Started))
    ensures WorkspaceWakes(b, input, env, Some(e)) == WorkspaceWakes(a, input, env, prev)
  {
    var finish := FinishWakes(a, input, env, Entry1(a, input, env, prev));
    var stuck := StuckWakes(a, input, env, Since(a, input, env, prev), Entry2(a, input, env, prev));
    BelowSplit(b.now, finish + stuck, ItemWakes(input, env, a.now));
    BelowSplit(b.now, finish, stuck);
    ProgressAgain(a, b, input, env, prev, e);
    LoopAgain(a, b, env, prev, e, Ios);
    LoopAgain(a, b, env, prev, e, Android);
    MergeFields(b, input, env, e);
    MergeAgain(b, input, env, prev, Fresh(a, env, prev), e, Entry4(b, input, env, Some(e)));
    ItemsAgain(a, b, input, env, prev, e, Entry5(a, input, env, prev).attentionRaised,
               Entry5(b, input, env, Some(e)).attentionRaised);
  }

  ghost predicate Distinct(envs: seq<Env>) {
    forall i, j | 0 <= i < j < |envs| :: envs[i].path != envs[j].path
  }

  lemma {:induction false} CollectAt(f: Env -> Entry, envs: seq<Env>, i: nat)
    requires Distinct(envs) && i < |envs|
    ensures envs[i].path in Collect(f, envs) && Collect(f, envs)[envs[i].path] == f(envs[i])
    decreases |envs|
  {
    var last := |envs| - 1;
    if i < last {
      assert envs[..last][i] == envs[i] && envs[i].path != envs[last].path;
      CollectAt(f, envs[..last], i);
    }
  }

  lemma {:induction false} GatherBelow(t: int, f: Env -> seq<int>, envs: seq<Env>, i: nat)
    requires Below(t, Gather(f, envs)) && i < |envs|
    ensures Below(t, f(envs[i]))
    decreases |envs|
  {
    BelowSplit(t, f(envs[0]), Gather(f, envs[1..]));
    if i > 0 {
      assert envs[1..][i - 1] == envs[i];
      GatherBelow(t, f, envs[1..], i - 1);
    }
  }

  lemma {:induction false} GatherSame<T>(f: Env -> seq<T>, g: Env -> seq<T>, envs: seq<Env>)
    requires forall i | 0 <= i < |envs| :: f(envs[i]) == g(envs[i])
    ensures Gather(f, envs) == Gather(g, envs)
    decreases |envs|
  {
    if envs != [] {
      assert forall i | 0 <= i < |envs[1..]| :: envs[1..][i] == envs[i + 1];
      GatherSame(f, g, envs[1..]);
    }
  }

  lemma {:induction false} GatherEmpty<T>(f: Env -> seq<T>, envs: seq<Env>)
    ensures Gather(f, envs) == [] <==> forall i | 0 <= i < |envs| :: f(envs[i]) == []
    decreases |envs|
  {
    if envs != [] {
      GatherEmpty(f, envs[1..]);
      assert forall i | 0 <= i < |envs[1..]| :: envs[1..][i] == envs[i + 1];
      assert forall i | 0 < i < |envs| :: envs[i] == envs[1..][i - 1];
    }
  }

  /** The listed workspaces at a second look. */
  lemma EnvsAgain(a: Look, b: Look, input: Input, prev: Option<State>, next: State)
    requires Again(a, b) && Distinct(Envs(input)) && next.workspaces == NextWorkspaces(a, input, prev)
    requires Below(b.now, Gather(WakesOn(a, input, prev), Envs(input)))
    ensures Gather(NotesOn(b, input, Some(next)), Envs(input)) == []
            <==> !(Loud(b, Started) && exists i :: 0 <= i < |Envs(input)| && IdleYetDriven(input, Envs(input)[i]))
    ensures Gather(WakesOn(b, input, Some(next)), Envs(input)) == Gather(WakesOn(a, input, prev), Envs(input))
  {
    var envs := Envs(input);
    forall i | 0 <= i < |envs|
      ensures NotesOn(b, input, Some(next))(envs[i]) == [] <==> !(Loud(b, Started) && IdleYetDriven(input, envs[i]))
      ensures WakesOn(b, input, Some(next))(envs[i]) == WakesOn(a, input, prev)(envs[i])
    {
      EnvAgain(a, b, input, prev, next, i);
    }
    GatherEmpty(NotesOn(b, input, Some(next)), envs);
    GatherSame(WakesOn(b, input, Some(next)), WakesOn(a, input, prev), envs);
  }

  /** The entry a look leaves for a listed workspace. */
  lemma EntryIn(a: Look, input: Input, prev: Option<State>, next: State, i: nat)
    requires Distinct(Envs(input)) && next.workspaces == NextWorkspaces(a, input, prev) && i < |Envs(input)|
    ensures var env := Envs(input)[i];
            Before(Some(next), env.path) == Some(EntryOn(a, input, prev)(env))
  {
    CollectAt(EntryOn(a, input, prev), Envs(input), i);
  }

  lemma EntryLeaves(a: Look, input: Input, prev: Option<State>, env: Env, e: Entry)
    requires e == EntryOn(a, input, prev)(env)
    ensures Leaves(a, input, env, Before(prev, env.path), e)
  {
    NextFields(a, input, env, Before(prev, env.path));
  }

  lemma WakesAt(a: Look, input: Input, prev: Option<State>, t: int, i: nat)
    requires i < |Envs(input)| && Below(t, Gather(WakesOn(a, input, prev), Envs(input)))
    ensures Below(t, WorkspaceWakes(a, input, Envs(input)[i], Before(prev, Envs(input)[i].path)))
  {
    GatherBelow(t, WakesOn(a, input, prev), Envs(input), i);
  }

  lemma EnvAgain(a: Look, b: Look, input: Input, prev: Option<State>, next: State, i: nat)
    requires Again(a, b) && Distinct(Envs(input)) && next.workspaces == NextWorkspaces(a, input, prev)
             && i < |Envs(input)|
    requires Below(b.now, Gather(WakesOn(a, input, prev), Envs(input)))
    ensures NotesOn(b, input, Some(next))(Envs(input)[i]) == [] <==>
              !(Loud(b, Started) && IdleYetDriven(input, Envs(input)[i]))
    ensures WakesOn(b, input, Some(next))(Envs(input)[i]) == WakesOn(a, input, prev)(Envs(input)[i])
  {
    var env := Envs(input)[i];
    EntryIn(a, input, prev, next, i);
    var e := Before(Some(next), env.path).value;
    EntryLeaves(a, input, prev, env, e);
    WakesAt(a, input, prev, b.now, i);
    WorkspaceAgain(a, b, input, env, Before(prev, env.path), e);
  }

  /** Someone is announced at every look: an idle workspace is driven and "started" is on outside quiet hours. */
  ghost predicate Restless(input: Input, prefs: Prefs) {
    !prefs.quiet && Started in prefs.categories && exists i ::
                                                     0 <= i < |Envs(input)| && IdleYetDriven(input, Envs(input)[i])
  }

  /**
   Wake soundness, exactly: with the input and preferences unchanged, a second look at any time from
   the first up to the wake-up time says nothing if and only if no idle workspace is driven (or
   "started" is off, or it is quiet hours); and it asks for the same wake-up time.
   */
  lemma SecondLook(prev: Option<State>, input: Input, prefs: Prefs, t: int, u: int, awakeSince: int)
    requires Distinct(Envs(input)) && t <= u
    ensures var first := Oversee(prev, input, prefs, t, awakeSince);
            var second := Oversee(Some(first.state), input, prefs, u, awakeSince);
            first.wakeAt.None? || u < first.wakeAt.value ==>
              (second.notes == [] <==> !Restless(input, prefs)) && second.wakeAt == first.wakeAt
  {
    var a, b := LookAt(prev, prefs, t), Look(prefs, u, false);
    EarliestBelow(u, Wakes(a, input, prev, awakeSince));
    if Below(u, Wakes(a, input, prev, awakeSince)) {
      LookAgain(a, b, input, prev, NextState(a, input, prev, awakeSince), awakeSince);
    }
  }

  lemma LookAgain(a: Look, b: Look, input: Input, prev: Option<State>, next: State, awake: int)
    requires Again(a, b) && a.baseline == prev.None? && Distinct(Envs(input))
             && Below(b.now, Wakes(a, input, prev, awake))
    requires next.workspaces == NextWorkspaces(a, input, prev)
    requires next.link == NextLink(a, prev, input, awake) && next.disk == NextDisk(a, prev, input)
    requires next.memory == NextMemory(a, prev, input)
             && next.memoryKnown == (input.memoryPressure.Some? || MemoryKnown(prev))
    ensures Notes(b, input, Some(next), awake) == [] <==> !Restless(input, b.prefs)
    ensures Wakes(b, input, Some(next), awake) == Wakes(a, input, prev, awake)
  {
    BelowSplit(b.now, MachineWakes(a, input, prev, awake), Gather(WakesOn(a, input, prev), Envs(input)));
    MachineAgain(a, b, prev, next, input, awake);
    EnvsAgain(a, b, input, prev, next);
  }

  const DrivenDevice := Device(Ios, "default", true, Some(Activity(true, None, None, None)))
  const IdleEnv := Env("/w", false, IdlePhase, [DrivenDevice], None, None, [], [], [], None, None, [], [], 0)
  const IdleInput := Input(Some([IdleEnv]), None, None, None, map[], [])
  const StartedOnly := Prefs({Started}, 15, false)

  lemma IdleIsRestless()
    ensures Distinct(Envs(IdleInput)) && Restless(IdleInput, StartedOnly)
  {
    assert AgentDriven(DrivenDevice, []);
    assert IdleYetDriven(IdleInput, Envs(IdleInput)[0]);
  }

  ghost predicate SaidTwice(input: Input, prefs: Prefs) {
    var first := Oversee(None, input, prefs, 0, 0);
    first.wakeAt == None && Oversee(Some(first.state), input, prefs, 1, 0).notes != []
  }

  /** The exception happens: a workspace with no live session whose simulator an agent drives, and no wake-up time. */
  lemma AnnouncedAgain()
    ensures exists input, prefs :: SaidTwice(input, prefs)
  {
    IdleIsRestless();
    NoWakes(IdleInput, StartedOnly, IdleEnv);
    SecondLook(None, IdleInput, StartedOnly, 0, 1, 0);
    assert SaidTwice(IdleInput, StartedOnly);
  }

  lemma NoWakes(input: Input, prefs: Prefs, env: Env)
    requires input.status == Some([env]) && input.link.None? && input.memoryPressure.None?
    requires Idle(env) && env.physicalDevices == [] && env.remoteDevices == []
    ensures Oversee(None, input, prefs, 0, 0).wakeAt == None
  {
    var look := LookAt(None, prefs, 0);
    IdleNeverStuck(look, input, env);
    assert WakesOn(look, input, None)(env) == [];
    GatherEmpty(WakesOn(look, input, None), [env]);
    assert Earliest([]) == None;
  }

  lemma IdleNeverStuck(look: Look, input: Input, env: Env)
    requires Idle(env) && env.physicalDevices == [] && env.remoteDevices == []
    ensures WorkspaceWakes(look, input, env, None) == []
  {
    var e1 := Entry1(look, input, env, None);
    assert !AfterFinish(look, input, env, e1).drove;
    assert LeaseWakes([], look.now) == [] && EasWakes([], look.now) == [];
  }

  // ---------------------------------------------------------------- any number of looks

  /** The notifications of looks at these times, one after another. */
  function Keep(prev: State, input: Input, prefs: Prefs, times: seq<int>, awakeSince: int): seq<Note>
    decreases |times|
  {
    if times == [] then []
    else
      var r := Oversee(Some(prev), input, prefs, times[0], awakeSince);
      r.notes + Keep(r.state, input, prefs, times[1..], awakeSince)
  }

  ghost predicate Rising(from: int, times: seq<int>) {
    forall i | 0 <= i < |times| :: from <= times[i] && (i > 0 ==> times[i - 1] <= times[i])
  }

  lemma RisingTail(from: int, times: seq<int>)
    requires Rising(from, times) && times != []
    ensures Rising(times[0], times[1..])
  {
    forall i | 0 <= i < |times[1..]|
      ensures times[0] <= times[1..][i] && (i > 0 ==> times[1..][i - 1] <= times[1..][i])
    {
      Climbs(from, times, i + 1);
    }
  }

  lemma {:induction false} Climbs(from: int, times: seq<int>, i: nat)
    requires Rising(from, times) && i < |times|
    ensures times[0] <= times[i]
  {
    if i > 0 {
      Climbs(from, times, i - 1);
      assert times[i - 1] <= times[i];
    }
  }

  /**
   However often it looks before the wake-up time (or ever, when there is none), nothing is said while
   nothing changes.
   */
  lemma {:induction false} SilentUntilWake(prev: Option<State>, input: Input, prefs: Prefs, t: int, times: seq<int>,
                                           awakeSince: int)
    requires Distinct(Envs(input)) && !Restless(input, prefs) && Rising(t, times)
    ensures var first := Oversee(prev, input, prefs, t, awakeSince);
            Ahead(first.wakeAt, times) ==> Keep(first.state, input, prefs, times, awakeSince) == []
    decreases |times|
  {
    var first := Oversee(prev, input, prefs, t, awakeSince);
    if times != [] && Ahead(first.wakeAt, times) {
      assert first.wakeAt.None? || times[0] < first.wakeAt.value;
      SecondLook(prev, input, prefs, t, times[0], awakeSince);
      RisingTail(t, times);
      AheadTail(first.wakeAt, times);
      SilentUntilWake(Some(first.state), input, prefs, times[0], times[1..], awakeSince);
    }
  }

  /** All before the wake-up time, if there is one. */
  ghost predicate Ahead(at: Stamp, times: seq<int>) {
    at.None? || forall i | 0 <= i < |times| :: times[i] < at.value
  }

  lemma AheadTail(at: Stamp, times: seq<int>)
    requires Ahead(at, times) && times != []
    ensures Ahead(at, times[1..])
  {
  }
}
