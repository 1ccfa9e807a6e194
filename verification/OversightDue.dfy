/**
 Whom a notification names, and when the next look is due: exactly the times the readings give, and the
 earliest of them.
 */
module OversightDue {
  import opened Options
  import opened OversightModel
  import opened OversightWake
  import opened OversightRuns
  import opened OversightEpisodes
  import opened OversightQuiet
  import opened OversightSigns
  import opened OversightOwed
  import opened OversightMerges
  import opened OversightLasting

  // ---------------------------------------------------------------- whom a notification names

  /** The first device that is up. */
  ghost predicate FirstUp(env: Env, d: Device) {
    exists i :: 0 <= i < |env.devices| && env.devices[i] == d && d.running && forall j | 0 <= j < i ::
                                                                                !env.devices[j].running
  }

  /** The category and target of each kind of notification. */
  ghost predicate Names(input: Input, env: Env, n: Note) {
    match n.what
    case AboutWarming => n.category == Started && n.target == ToWorkspace(env.path)
    case AboutDriving =>
      n.category == Started && exists d: Device ::
                                 FirstToDrive(input, env, d) && n.target == ToDevice(env.path, d.platform, d.slot)
    case AboutStopped => n.category == Finished && n.target == ToWorkspace(env.path)
    case AboutStuck =>
      && n.category == Stuck
      && exists d: Device :: (if AgentDrives(input, env) then FirstToDrive(input, env, d) else FirstUp(env, d))
                             && n.target == ToDevice(env.path, d.platform, d.slot)
    case AboutLoop(p) => n.category == Looping && n.target == ToBuild(env.path, p)
    case AboutPrReady(_) => n.category == Finished && n.target == ToPr(env.path)
    case AboutPrMerged(_) => n.category == Finished && n.target == ToPr(env.path)
    case AboutMerged => n.category == Finished && n.target == ToWorkspace(env.path)
    case AboutItem(item) =>
      n.category == Attention && n.target == if item.RunItem? then ToBuild(env.path, item.platform)
                                             else ToWorkspace(env.path)
    case _ => false
  }

  lemma {:induction false} FirstUpIs(devices: seq<Device>)
    ensures FirstRunning(devices).Some? ==> exists i ::
              0 <= i < |devices| && devices[i] == FirstRunning(devices).value && devices[i].running
              && forall j | 0 <= j < i :: !devices[j].running
    decreases |devices|
  {
    if devices != [] && !devices[0].running {
      var rest := devices[1..];
      FirstUpIs(rest);
      if FirstRunning(rest).Some? {
        var i :| 0 <= i < |rest| && rest[i] == FirstRunning(rest).value && rest[i].running
        && forall j | 0 <= j < i :: !rest[j].running;
        assert devices[i + 1] == rest[i];
        forall j | 0 <= j < i + 1 ensures !devices[j].running {
          if j > 0 { assert devices[j] == rest[j - 1]; }
        }
      }
    }
  }

  lemma {:induction false} ItemNames(look: Look, env: Env, before: seq<ItemId>, items: seq<ItemId>, raised: bool,
                                     n: Note)
    requires n in RaiseItems(look, env, before, items, raised).notes
    ensures n.what.AboutItem? && n.category == Attention
    ensures n.target == if n.what.item.RunItem? then ToBuild(env.path, n.what.item.platform) else ToWorkspace(env.path)
    decreases |items|
  {
    var said := ItemSaid(look, before, items[0], raised);
    if !(said && n == Note(AboutItem(items[0]), Attention, ItemTarget(env, items[0]))) {
      ItemNames(look, env, before, items[1..], raised || said, n);
    }
  }

  lemma StuckNames(look: Look, input: Input, env: Env, since: Stamp, e: Entry, n: Note)
    requires n in StuckNotes(look, input, env, since, e)
    ensures Names(input, env, n)
  {
    DrivesIs(input, env);
    FirstUpIs(env.devices);
  }

  lemma EarlyNames(look: Look, input: Input, env: Env, prev: Option<Entry>, n: Note)
    requires n in WorkspaceNotes(look, input, env, prev)
             && (n.what.AboutWarming? || n.what.AboutDriving? || n.what.AboutStopped?)
    ensures Names(input, env, n)
  {
    EarlySource(look, input, env, prev, n);
    if n.what.AboutDriving? {
      DrivingNames(look, input, env, prev, n);
      DrivingSource(look, input, env, prev, n);
    }
  }

  /** Every notification of a workspace has the category of its kind, and names what it is about. */
  lemma NotesName(look: Look, input: Input, env: Env, prev: Option<Entry>, n: Note)
    requires n in WorkspaceNotes(look, input, env, prev)
    ensures Names(input, env, n)
  {
    RuleSource(look, input, env, prev, n);
    OwnNotes(look, input, env, prev);
    if n.what.AboutWarming? || n.what.AboutDriving? || n.what.AboutStopped? {
      EarlyNames(look, input, env, prev, n);
    } else if n.what.AboutStuck? {
      StuckNames(look, input, env, Since(look, input, env, prev), Entry2(look, input, env, prev), n);
    } else if n.what.AboutPrReady? || n.what.AboutPrMerged? {
      PrSource(look, input, env, prev, n);
    } else if n.what.AboutMerged? {
      BranchSource(look, input, env, prev, n);
    } else if n.what.AboutItem? {
      var raised := Entry5(look, input, env, prev).attentionRaised;
      ItemNames(look, env, ItemsBefore(prev), Pending(input, env, look.now),
                raised && !AllowanceReturns(input, env, look.now, prev), n);
    }
  }

  // ---------------------------------------------------------------- when the next look is due

  /** A link that is down and untold becomes due then. */
  ghost predicate LinkDueAt(r: Record, t: int) {
    exists kind: Link ::
      && r.turn.input.link == Some(kind) && kind != Open
      && var before := LinkBefore(r.prev, kind);
      && !(before.Some? && before.value.notified)
      && var since := if before.Some? then before.value.since else r.turn.now;
      t == (if since > r.turn.awakeSince then since else r.turn.awakeSince) + if kind == Offline then 60_000 else 0
  }

  ghost predicate MemoryDueAt(r: Record, t: int) {
    && r.turn.input.memoryPressure == Some(Critical) && MemoryKnown(r.prev)
    && var before := MemoryBefore(r.prev);
    && !(before.Some? && before.value.notified)
    && t == (if before.Some? then before.value.since else r.turn.now) + 60_000
  }

  /** The agent's work counts as stopped then, if nothing happens. */
  ghost predicate StopDueAt(run: seq<Record>, k: nat, path: string, t: int)
    requires Visits(run, k, path)
  {
    && DroveSince(run, k, path) && !DrivenAt(run, k, path) && NewestOk(EnvAt(run, k, path))
    && !BuildRuns(EnvAt(run, k, path))
    && !EndsAt(run, k, path) && LastWork(run, k, path, t - 300_000)
  }

  ghost predicate StuckDueAt(run: seq<Record>, k: nat, path: string, t: int)
    requires Visits(run, k, path)
  {
    var since, before := t - run[k].turn.prefs.stuckMinutes * 60_000, StuckBeforeAt(run, k, path);
    StandsStillAt(run, k, path) && LastWork(run, k, path, since) && (before.None? || since > before.value)
  }

  ghost predicate LeaseDueAt(env: Env, t: int) {
    exists i :: 0 <= i < |env.physicalDevices| && env.physicalDevices[i].expiresAt == Some(t)
  }

  ghost predicate SessionDueAt(input: Input, env: Env, t: int) {
    && !(exists i :: 0 <= i < |env.devices| && env.devices[i].running && DrivenByAgent(env.devices[i], input.ownLeases))
    && exists i :: 0 <= i < |env.remoteDevices| && env.remoteDevices[i].startedAt == Some(t - 1_800_000)
  }

  ghost predicate WorkspaceDueAt(run: seq<Record>, k: nat, path: string, t: int) {
    && Visits(run, k, path)
    && (|| StopDueAt(run, k, path, t) || StuckDueAt(run, k, path, t)
        || LeaseDueAt(EnvAt(run, k, path), t) || SessionDueAt(run[k].turn.input, EnvAt(run, k, path), t))
  }

  ghost predicate DueAt(run: seq<Record>, k: nat, t: int)
    requires k < |run|
  {
    LinkDueAt(run[k], t) || MemoryDueAt(run[k], t) || exists path: string :: WorkspaceDueAt(run, k, path, t)
  }

  lemma LinkWakesAre(run: seq<Record>, k: nat, t: int)
    requires k < |run|
    ensures t in LinkWakes(LookOf(run[k].prev, run[k].turn), run[k].prev, run[k].turn.input,
                           run[k].turn.awakeSince) <==>
              t > run[k].turn.now && LinkDueAt(run[k], t)
  {
  }

  lemma MemoryWakesAre(run: seq<Record>, k: nat, t: int)
    requires k < |run|
    ensures t in MemoryWakes(LookOf(run[k].prev, run[k].turn), run[k].prev, run[k].turn.input) <==>
              t > run[k].turn.now && MemoryDueAt(run[k], t)
  {
  }

  lemma {:induction false} LeaseWakesAre(ds: seq<Leased>, now: int, t: int)
    ensures t in LeaseWakes(ds, now) <==> t > now && exists i :: 0 <= i < |ds| && ds[i].expiresAt == Some(t)
    decreases |ds|
  {
    if ds != [] {
      LeaseWakesAre(ds[1..], now, t);
      assert forall i | 0 < i < |ds| :: ds[i] == ds[1..][i - 1];
      assert forall i | 0 <= i < |ds| - 1 :: ds[1..][i] == ds[i + 1];
    }
  }

  lemma {:induction false} SessionWakesAre(ss: seq<Session>, now: int, t: int)
    ensures t in EasWakes(ss, now) <==> t > now && exists i :: 0 <= i < |ss| && ss[i].startedAt == Some(t - 1_800_000)
    decreases |ss|
  {
    if ss != [] {
      SessionWakesAre(ss[1..], now, t);
      assert forall i | 0 < i < |ss| :: ss[i] == ss[1..][i - 1];
      assert forall i | 0 <= i < |ss| - 1 :: ss[1..][i] == ss[i + 1];
    }
  }

  lemma ItemWakesAre(input: Input, env: Env, now: int, t: int)
    ensures t in ItemWakes(input, env, now) <==> t > now && (LeaseDueAt(env, t) || SessionDueAt(input, env, t))
  {
    LeaseWakesAre(env.physicalDevices, now, t);
    SessionWakesAre(env.remoteDevices, now, t);
    RunningDrivenIs(env.devices, input.ownLeases);
  }

  /** A run may finish, by what the looks read. */
  lemma FinishIs(run: seq<Record>, k: nat, path: string)
    requires FromStart(run) && Visits(run, k, path)
    ensures var look, input, env, prev := LookOf(run[k].prev, run[k].turn), run[k].turn.input, EnvAt(run, k, path),
                                          EntryBefore(run, k, path);
            var e1 := Entry1(look, input, env, prev);
            && QuietSince(input, env, e1) == Since(look, input, env, prev)
            && (MayFinish(input, env, e1) <==>
                  && DroveSince(run, k, path) && !DrivenAt(run, k, path) && NewestOk(env) && !BuildRuns(env)
                  && Since(look, input, env, prev).Some?)
  {
    var prev := EntryBefore(run, k, path);
    AlwaysKnown(run, k, path);
    if prev.None? { NothingBefore(run, k, path); }
    DrivesIs(run[k].turn.input, EnvAt(run, k, path));
    ReadingsAre(EnvAt(run, k, path));
  }

  lemma FinishTimes(look: Look, input: Input, env: Env, e: Entry, t: int)
    ensures t in FinishWakes(look, input, env, e) <==>
              t > look.now && MayFinish(input, env, e) && !NoSession(env)
              && QuietSince(input, env, e) == Some(t - 300_000)
  {
    ReadingsAre(env);
  }

  lemma FinishWakesAre(run: seq<Record>, k: nat, path: string, t: int)
    requires FromStart(run) && Visits(run, k, path)
    ensures var look, input, env, prev := LookOf(run[k].prev, run[k].turn), run[k].turn.input, EnvAt(run, k, path),
                                          EntryBefore(run, k, path);
            t in FinishWakes(look, input, env, Entry1(look, input, env, prev)) <==>
              t > run[k].turn.now && StopDueAt(run, k, path, t)
  {
    var look, input, env, prev := LookOf(run[k].prev, run[k].turn), run[k].turn.input, EnvAt(run, k, path),
                                  EntryBefore(run, k, path);
    FinishTimes(look, input, env, Entry1(look, input, env, prev), t);
    FinishIs(run, k, path);
    WorkIs(run, k, path);
  }

  lemma StuckTimes(look: Look, input: Input, env: Env, since: Stamp, e: Entry, wait: int, t: int)
    requires wait == look.prefs.stuckMinutes * 60_000
    ensures t in StuckWakes(look, input, env, since, e) <==>
              t > look.now && since == Some(t - wait) && MayBeStuck(input, env, since, e)
  {
  }

  lemma StuckWakesAre(run: seq<Record>, k: nat, path: string, t: int)
    requires FromStart(run) && Visits(run, k, path)
    ensures var look, input, env, prev := LookOf(run[k].prev, run[k].turn), run[k].turn.input, EnvAt(run, k, path),
                                          EntryBefore(run, k, path);
            t in StuckWakes(look, input, env, Since(look, input, env, prev), Entry2(look, input, env, prev)) <==>
              t > run[k].turn.now && StuckDueAt(run, k, path, t)
  {
    var look, input, env, prev := LookOf(run[k].prev, run[k].turn), run[k].turn.input, EnvAt(run, k, path),
                                  EntryBefore(run, k, path);
    var wait := run[k].turn.prefs.stuckMinutes * 60_000;
    StuckTimes(look, input, env, Since(look, input, env, prev), Entry2(look, input, env, prev), wait, t);
    StuckDueIs(run, k, path, wait, t);
    StillIs(run, k, path);
    WorkIs(run, k, path);
  }

  lemma StuckDueIs(run: seq<Record>, k: nat, path: string, wait: int, t: int)
    requires Visits(run, k, path) && wait == run[k].turn.prefs.stuckMinutes * 60_000
    ensures var before := StuckBeforeAt(run, k, path);
            StuckDueAt(run, k, path, t) <==>
              StandsStillAt(run, k, path) && LastWork(run, k, path, t - wait)
              && (before.None? || t - wait > before.value)
  {
  }

  lemma WorkspaceWakesAre(run: seq<Record>, k: nat, path: string, t: int)
    requires FromStart(run) && Visits(run, k, path)
    ensures t in WorkspaceWakes(LookOf(run[k].prev, run[k].turn), run[k].turn.input, EnvAt(run, k, path),
                                EntryBefore(run, k, path)) <==>
              t > run[k].turn.now && WorkspaceDueAt(run, k, path, t)
  {
    FinishWakesAre(run, k, path, t);
    StuckWakesAre(run, k, path, t);
    ItemWakesAre(run[k].turn.input, EnvAt(run, k, path), run[k].turn.now, t);
  }

  lemma GatheredWakes(run: seq<Record>, k: nat, t: int)
    requires FromStart(run) && k < |run|
    ensures t in Gather(WakesOn(LookOf(run[k].prev, run[k].turn), run[k].turn.input, run[k].prev),
                        Envs(run[k].turn.input)) <==>
              t > run[k].turn.now && exists path: string :: WorkspaceDueAt(run, k, path, t)
  {
    var f, envs := WakesOn(LookOf(run[k].prev, run[k].turn), run[k].turn.input, run[k].prev), Envs(run[k].turn.input);
    assert Looked(run[k]);
    if t in Gather(f, envs) {
      var i := GatheredFrom(f, envs, t);
      var path := envs[i].path;
      FindAt(envs, i);
      BeforeIs(run, k, path);
      WorkspaceWakesAre(run, k, path, t);
    }
    if path: string :| WorkspaceDueAt(run, k, path, t) && t > run[k].turn.now {
      var i := FindIndex(envs, path);
      BeforeIs(run, k, path);
      WorkspaceWakesAre(run, k, path, t);
      GatherHas(f, envs, i, t);
    }
  }

  lemma WakesAre(run: seq<Record>, k: nat, t: int)
    requires FromStart(run) && k < |run|
    ensures t in Wakes(LookOf(run[k].prev, run[k].turn), run[k].turn.input, run[k].prev, run[k].turn.awakeSince) <==>
              t > run[k].turn.now && DueAt(run, k, t)
  {
    LinkWakesAre(run, k, t);
    MemoryWakesAre(run, k, t);
    GatheredWakes(run, k, t);
  }

  lemma EarliestExactly(times: seq<int>, t: int)
    ensures Earliest(times) == Some(t) <==> t in times && forall u: int | u in times :: t <= u
  {
    EarliestIs(times);
    if Earliest(times).Some? { assert Earliest(times).value in times; }
  }

  /**
   Over every run, the time a look asks to be woken at is the earliest time after it at which, if nothing happens, a
   rule becomes due: a link or memory pressure settles, work stops or stands still, a lease ends, or a
   remote session has lasted half an hour.
   */
  lemma WakesExactly(run: seq<Record>, k: nat, t: int)
    requires FromStart(run) && k < |run|
    ensures Take(run[k].prev, run[k].turn).wakeAt == Some(t) <==>
              && t > run[k].turn.now && DueAt(run, k, t)
              && forall u: int | u > run[k].turn.now && DueAt(run, k, u) :: t <= u
  {
    var times := Wakes(LookOf(run[k].prev, run[k].turn), run[k].turn.input, run[k].prev, run[k].turn.awakeSince);
    EarliestExactly(times, t);
    WakesAre(run, k, t);
    forall u: int ensures u in times <==> u > run[k].turn.now && DueAt(run, k, u) {
      WakesAre(run, k, u);
    }
  }
}
