/**
 packages/core/oversight.ts in its own form: a Run record that each rule updates, pushing
 notifications, lowering the wake-up time and changing the entry of the workspace in hand. Every
 method is tied to the functions of OversightModel, and `Oversee` to the whole of them.
 */
module OversightLook {
  import opened Options
  import opened OversightModel

  /** The sooner of two times. */
  function Sooner(a: Stamp, b: Stamp): Stamp {
    if a.None? then b else if b.None? || a.value <= b.value then a else b
  }

  lemma {:induction false} EarliestOfBoth(a: seq<int>, b: seq<int>)
    ensures Earliest(a + b) == Sooner(Earliest(a), Earliest(b))
    decreases |a|
  {
    if a == [] {
      assert a + b == b;
    } else {
      assert (a + b)[1..] == a[1..] + b;
      EarliestOfBoth(a[1..], b);
    }
  }

  // ---------------------------------------------------------------- what a look reads off the status

  method LowestFree(volumes: seq<int>) returns (lowest: Stamp)
    ensures lowest == Lowest(volumes)
  {
    lowest := None;
    for i := 0 to |volumes|
      invariant Sooner(lowest, Earliest(volumes[i..])) == Earliest(volumes)
    {
      assert volumes[i..][0] == volumes[i] && volumes[i..][1..] == volumes[i + 1..];
      lowest := if lowest.None? then Some(volumes[i])
                else if lowest.value <= volumes[i] then lowest else Some(volumes[i]);
    }
  }

  /** lastActivityAt: the latest of all readable times. */
  method LastActivityAt(env: Env, errorsAt: Stamp, drivenAt: Stamp) returns (at: Stamp)
    ensures at == LastActivity(env, errorsAt, drivenAt)
  {
    at := Later(errorsAt, drivenAt);
    ghost var seen := at;
    for i := 0 to |env.devices|
      invariant Later(at, DevicesActivity(env.devices[i..])) == Later(seen, DevicesActivity(env.devices))
    {
      assert env.devices[i..][0] == env.devices[i] && env.devices[i..][1..] == env.devices[i + 1..];
      at := Later(at, DeviceActivity(env.devices[i]));
    }
    at := Later(at, Later(BuildActivity(env.lastIos), BuildActivity(env.lastAndroid)));
    at := Later(at, if env.build.Some? then env.build.value.startedAt else None);
  }

  /** failureStreak's count. */
  method CountStreak(history: seq<Build>) returns (streak: Option<Streak>)
    ensures streak == FailureStreak(history)
  {
    if history == [] || !Failed(history[0]) { return None; }
    var cause := Cause(history[0]);
    var count := 0;
    while count < |history| && Failed(history[count]) && Cause(history[count]) == cause
      invariant count <= |history|
      invariant StreakOf(history, cause) == count + StreakOf(history[count..], cause)
    {
      assert history[count..][0] == history[count] && history[count..][1..] == history[count + 1..];
      count := count + 1;
    }
    assert count < |history| ==> history[count..][0] == history[count];
    return Some(Streak(cause, count));
  }

  method IssuesPending(issues: seq<Issue>) returns (items: seq<ItemId>)
    ensures items == IssueItems(issues)
  {
    items := [];
    for i := 0 to |issues|
      invariant items + IssueItems(issues[i..]) == IssueItems(issues)
    {
      var issue := issues[i];
      assert issues[i..][0] == issue && issues[i..][1..] == issues[i + 1..];
      if issue.severity == Info || issue.code !in PERSON_ISSUES { continue; }
      items := items + [IssueItem(issue.code, if issue.slot.Some? then issue.slot.value else "default")];
    }
  }

  method LeasesPending(devices: seq<Leased>, now: int) returns (items: seq<ItemId>, at: Stamp)
    ensures items == LeaseItems(devices, now) && at == Earliest(LeaseWakes(devices, now))
  {
    items, at := [], None;
    for i := 0 to |devices|
      invariant items + LeaseItems(devices[i..], now) == LeaseItems(devices, now)
      invariant Sooner(at, Earliest(LeaseWakes(devices[i..], now))) == Earliest(LeaseWakes(devices, now))
    {
      var expiresAt := devices[i].expiresAt;
      LeaseStep(devices, i, now, items, at);
      if expiresAt.Some? && expiresAt.value > now {
        at := Sooner(at, expiresAt);
      } else if expiresAt.Some? {
        items := items + [LeaseItem(devices[i].platform, devices[i].slot)];
      }
    }
  }

  method SessionsPending(sessions: seq<Session>, now: int) returns (items: seq<ItemId>, at: Stamp)
    ensures items == EasItems(sessions, now) && at == Earliest(EasWakes(sessions, now))
  {
    items, at := [], None;
    for i := 0 to |sessions|
      invariant items + EasItems(sessions[i..], now) == EasItems(sessions, now)
      invariant Sooner(at, Earliest(EasWakes(sessions[i..], now))) == Earliest(EasWakes(sessions, now))
    {
      var due := EasDue(sessions[i]);
      SessionStep(sessions, i, now, items, at);
      if due.Some? && due.value > now {
        at := Sooner(at, due);
      } else if due.Some? {
        items := items + [EasItem(sessions[i].sessionId)];
      }
    }
  }

  /** workspaceAttention's items that notify, and the time at which another may be due. */
  method ItemsPending(input: Input, env: Env, now: int) returns (items: seq<ItemId>, at: Stamp)
    ensures items == Pending(input, env, now) && at == Earliest(ItemWakes(input, env, now))
  {
    items := IssuesPending(env.issues);
    items := items + RunItems(env, Ios, now) + RunItems(env, Android, now);
    var leases, expiry := LeasesPending(env.physicalDevices, now);
    items := items + leases;
    at := expiry;
    var driven := RunningDriven(env.devices, input.ownLeases);
    var eas := if driven then [] else EasWakes(env.remoteDevices, now);
    EarliestOfBoth(LeaseWakes(env.physicalDevices, now), eas);
    if !driven {
      var sessions, due := SessionsPending(env.remoteDevices, now);
      items := items + sessions;
      at := Sooner(at, due);
    }
  }

  // ---------------------------------------------------------------- the run

  class Run {
    const input: Input
    const look: Look
    var notifications: seq<Note>
    var wakeAt: Stamp
    var entry: Entry

    constructor (input: Input, look: Look, entry: Entry)
      ensures this.input == input && this.look == look && notifications == [] && wakeAt == None
    {
      this.input, this.look, this.entry := input, look, entry;
      notifications, wakeAt := [], None;
    }

    method Wake(at: int)
      modifies this`wakeAt
      ensures wakeAt == Sooner(old(wakeAt), Earliest(WakeAt(true, at, look.now)))
    {
      if at > look.now {
        wakeAt := if wakeAt.None? then Some(at) else if wakeAt.value <= at then wakeAt else Some(at);
      }
    }

    /** event: one that may not be said now is dropped. */
    method Event(n: Note)
      modifies this`notifications
      ensures notifications == old(notifications) + Say(Loud(look, n.category), n)
    {
      if !look.baseline && !look.prefs.quiet && n.category in look.prefs.categories {
        notifications := notifications + [n];
      }
    }

    /** lasting: whether the problem is settled, by saying it or by dropping it. */
    method Lasting(n: Note) returns (settled: bool)
      modifies this`notifications
      ensures notifications == old(notifications) + Say(Loud(look, n.category), n)
      ensures settled == Settles(look, n.category)
    {
      if look.baseline || n.category !in look.prefs.categories { return true; }
      if look.prefs.quiet { return false; }
      notifications := notifications + [n];
      return true;
    }

    // -------------------------------------------------------------- the machine

    method OverseeLink(prev: Option<State>, awakeSince: int) returns (link: Option<HeldLink>)
      modifies this`notifications, this`wakeAt
      ensures link == NextLink(look, prev, input, awakeSince)
      ensures notifications == old(notifications) + LinkNotes(look, prev, input, awakeSince)
      ensures wakeAt == Sooner(old(wakeAt), Earliest(LinkWakes(look, prev, input, awakeSince)))
    {
      if input.link.None? || input.link.value == Open { return None; }
      var kind := input.link.value;
      var held := HeldFor(LinkBefore(prev, kind), look.now);
      var from := if held.since > awakeSince then held.since else awakeSince;
      var due := from + if kind == Offline then OFFLINE_SETTLE_MS else 0;
      if !held.notified && look.now < due {
        Wake(due);
      } else if !held.notified {
        var settled := Lasting(Note(AboutLink, Machine, ToMachine));
        held := held.(notified := settled);
      }
      return Some(HeldLink(kind, held));
    }

    method OverseeDisk(prev: Option<State>) returns (disk: Option<Held>)
      modifies this`notifications
      ensures disk == NextDisk(look, prev, input)
      ensures notifications == old(notifications) + DiskNotes(look, prev, input)
    {
      if input.volumes.None? { return DiskBefore(prev); }
      var lowest := LowestFree(input.volumes.value);
      var before := DiskBefore(prev);
      if lowest.None? || lowest.value >= (if before.Some? then DISK_RECOVERED_BYTES else DISK_CRITICAL_BYTES) {
        return None;
      }
      var held := HeldFor(before, look.now);
      if !held.notified {
        var settled := Lasting(Note(AboutDisk, Machine, ToMachine));
        held := held.(notified := settled);
      }
      return Some(held);
    }

    method OverseeMemory(prev: Option<State>) returns (memory: Option<Held>)
      modifies this`notifications, this`wakeAt
      ensures memory == NextMemory(look, prev, input)
      ensures notifications == old(notifications) + MemoryNotes(look, prev, input)
      ensures wakeAt == Sooner(old(wakeAt), Earliest(MemoryWakes(look, prev, input)))
    {
      if input.memoryPressure == Some(Critical) {
        var held := HeldFor(MemoryBefore(prev), look.now);
        if !MemoryKnown(prev) { held := held.(notified := true); }
        var due := held.since + MEMORY_SETTLE_MS;
        if !held.notified && look.now < due && !look.baseline {
          Wake(due);
        } else if !held.notified {
          var settled := Lasting(Note(AboutMemory, Machine, ToMachine));
          held := held.(notified := settled);
        }
        return Some(held);
      }
      return if input.memoryPressure.None? then MemoryBefore(prev) else None;
    }

    // -------------------------------------------------------------- a workspace

    method OverseeStart(env: Env)
      modifies this`notifications, this`entry
      ensures entry == AfterStart(look, input, env, old(entry))
      ensures notifications == old(notifications) + StartNotes(look, input, env, old(entry))
    {
      var first := FirstDriven(env.devices, input.ownLeases);
      var warming, driving := env.phase == Warming && !entry.warmed, first.Some? && !entry.driveNotified;
      entry := entry.(warmed := entry.warmed || env.phase == Warming,
                      drove := entry.drove || first.Some?,
                      drivenAt := if first.Some? then Some(look.now) else entry.drivenAt,
                      finished := entry.finished && first.None?,
                      driveNotified := entry.driveNotified || first.Some?);
      if warming { Event(Note(AboutWarming, Started, ToWorkspace(env.path))); }
      if driving { Event(Note(AboutDriving, Started, ToDevice(env.path, first.value.platform, first.value.slot))); }
    }

    /** overseeProgress: the agent stopped after a green build. */
    method OverseeFinish(env: Env, quietSince: Stamp)
      requires quietSince == QuietSince(input, env, entry)
      modifies this`notifications, this`entry, this`wakeAt
      ensures var done := Finishes(look, input, env, old(entry));
              entry == old(entry).(finished := old(entry).finished || done,
                                   finishedInRun := old(entry).finishedInRun || done)
      ensures notifications == old(notifications) + FinishNotes(look, input, env, old(entry))
      ensures wakeAt == Sooner(old(wakeAt), Earliest(FinishWakes(look, input, env, old(entry))))
    {
      if entry.drove && ReleasedGreen(input, env) && !Building(env) && quietSince.Some? && !entry.finished {
        var due := quietSince.value + FINISH_SETTLE_MS;
        if !Idle(env) && look.now < due {
          Wake(due);
        } else {
          if !entry.finishedInRun {
            Event(Note(AboutStopped, Finished, ToWorkspace(env.path)));
          }
          entry := entry.(finished := true, finishedInRun := true);
        }
      }
    }

    /** overseeProgress: a finished run is no longer driven, and an idle workspace's run is over. */
    method EndRun(env: Env)
      modifies this`entry
      ensures var e, idle := old(entry), Idle(env);
              entry == e.(drove := e.drove && !idle && !e.finished,
                          driveNotified := e.driveNotified && !idle && !e.finished,
                          warmed := e.warmed && !idle, finished := e.finished && !idle,
                          finishedInRun := e.finishedInRun && !idle)
    {
      if Idle(env) || entry.finished { entry := entry.(drove := false, driveNotified := false); }
      if Idle(env) { entry := entry.(warmed := false, finished := false, finishedInRun := false); }
    }

    /** overseeProgress: nothing has happened for too long. */
    method OverseeStuck(env: Env, quietSince: Stamp)
      modifies this`notifications, this`entry, this`wakeAt
      ensures entry == AfterStuck(look, input, env, quietSince, old(entry))
      ensures notifications == old(notifications) + StuckNotes(look, input, env, quietSince, old(entry))
      ensures wakeAt == Sooner(old(wakeAt), Earliest(StuckWakes(look, input, env, quietSince, old(entry))))
    {
      var stuckAt := StuckStill(quietSince, entry);
      if MayBeStuck(input, env, quietSince, entry) {
        var device, due := StuckDevice(input, env).value, StuckDue(look, quietSince.value);
        if look.now < due {
          Wake(due);
        } else {
          var settled := Lasting(Note(AboutStuck, Stuck, ToDevice(env.path, device.platform, device.slot)));
          if settled { stuckAt := quietSince; }
        }
      }
      entry := entry.(stuckAt := stuckAt);
    }

    method OverseeLoop(env: Env, prev: Option<Entry>, p: Platform) returns (loop: Option<Loop>)
      modifies this`notifications
      ensures loop == NextLoop(look, env, prev, p)
      ensures notifications == old(notifications) + LoopNotes(look, env, prev, p)
    {
      var streak := CountStreak(History(env, p));
      if streak.None? { return None; }
      var before := LoopOf(prev, p);
      var held := if before.Some? && before.value.signature == streak.value.signature
                     && streak.value.count >= LOOP_COUNT
                  then before.value else Loop(streak.value.signature, false);
      if streak.value.count >= LOOP_COUNT && !held.notified {
        var settled := Lasting(Note(AboutLoop(p), Looping, ToBuild(env.path, p)));
        held := held.(notified := settled);
      }
      return Some(held);
    }

    /** overseeMerge: a pull request that became ready or merged. */
    method OverseePullRequest(env: Env)
      modifies this`notifications, this`entry
      ensures entry ==
                old(entry).(pr := SeenPr(input, env, old(entry)), mergeNotified := MergeTold(input, env, old(entry)))
      ensures notifications == old(notifications) + PrNotes(look, input, env, old(entry))
    {
      if env.path in input.pullRequests {
        var pr, known, told := input.pullRequests[env.path], entry.pr, entry.mergeNotified;
        var current := Seen(pr);
        if pr.Some? && known != Unlooked {
          var same := known.Pr? && known.number == pr.value.number;
          if current.ready && !(same && known.ready) {
            Event(Note(AboutPrReady(pr.value.number), Finished, ToPr(env.path)));
          }
          if current.merged && !(same && known.merged) && !told {
            told := true;
            Event(Note(AboutPrMerged(pr.value.number), Finished, ToPr(env.path)));
          }
        } else if current.Pr? && current.merged {
          told := true;
        }
        entry := entry.(pr := current, mergeNotified := told);
      }
    }

    /** overseeMerge: without GitHub, a branch git finds merged. */
    method OverseeBranch(env: Env, prev: Option<Entry>)
      modifies this`notifications, this`entry
      ensures entry == old(entry).(mergeNotified := BranchTold(env, prev, old(entry)))
      ensures notifications == old(notifications)
              + Say(BranchMerged(prev, old(entry)) && Loud(look, Finished),
                    Note(AboutMerged, Finished, ToWorkspace(env.path)))
    {
      if prev.None? {
        if entry.mergedInto.Some? { entry := entry.(mergeNotified := true); }
      } else if entry.mergedInto.None? {
        if env.git.Some? && !(entry.pr.Pr? && entry.pr.merged) { entry := entry.(mergeNotified := false); }
      } else if prev.value.mergedInto.None? && !entry.mergeNotified {
        entry := entry.(mergeNotified := true);
        Event(Note(AboutMerged, Finished, ToWorkspace(env.path)));
      }
    }

    /** One turn of overseeAttention's loop: the item is said, or noted, or left for after quiet hours. */
    method RaiseOne(env: Env, before: seq<ItemId>, item: ItemId, spent: bool) returns (keep: bool, raised: bool)
      modifies this`notifications
      ensures keep == ItemKept(look, before, item, spent) && raised == (spent || ItemSaid(look, before, item, spent))
      ensures notifications == old(notifications)
              + Say(ItemSaid(look, before, item, spent), Note(AboutItem(item), Attention, ItemTarget(env, item)))
    {
      if item in before || spent { return true, spent; }
      var sent := |notifications|;
      keep := Lasting(Note(AboutItem(item), Attention, ItemTarget(env, item)));
      raised := |notifications| > sent;
    }

    method RaisePending(env: Env, before: seq<ItemId>, pending: seq<ItemId>,
                        spent: bool) returns (kept: seq<ItemId>, raised: bool)
      modifies this`notifications
      ensures var r := RaiseItems(look, env, before, pending, spent);
              kept == r.kept && raised == r.raised && notifications == old(notifications) + r.notes
    {
      ghost var goal := RaiseItems(look, env, before, pending, spent);
      kept, raised := [], spent;
      ghost var said: seq<Note> := [];
      assert pending[0..] == pending;
      for i := 0 to |pending|
        invariant Resumes(goal, kept, said, RaiseItems(look, env, before, pending[i..], raised))
        invariant notifications == old(notifications) + said
      {
        ghost var rest := RaiseItems(look, env, before, pending[i..], raised);
        ghost var n := Say(ItemSaid(look, before, pending[i], raised),
                           Note(AboutItem(pending[i]), Attention, ItemTarget(env, pending[i])));
        RaiseStep(look, env, before, pending, i, raised);
        var keep, next := RaiseOne(env, before, pending[i], raised);
        var more := if keep then [pending[i]] else [];
        ResumesNext(goal, kept, said, more, n, rest, RaiseItems(look, env, before, pending[i + 1..], next));
        kept, raised, said := kept + more, next, said + n;
      }
    }

    /** The pending items; a look is due when the next one may be. */
    method FindPending(env: Env) returns (pending: seq<ItemId>)
      modifies this`wakeAt
      ensures pending == Pending(input, env, look.now)
      ensures wakeAt == Sooner(old(wakeAt), Earliest(ItemWakes(input, env, look.now)))
    {
      var at;
      pending, at := ItemsPending(input, env, look.now);
      if at.Some? {
        LateWakes(env, input, look.now);
        Wake(at.value);
      }
    }

    method OverseeAttention(env: Env, prev: Option<Entry>)
      modifies this`notifications, this`entry, this`wakeAt
      ensures entry == AfterAttention(look, input, env, prev, old(entry))
      ensures notifications == old(notifications) + Raise(look, input, env, prev, old(entry).attentionRaised).notes
      ensures wakeAt == Sooner(old(wakeAt), Earliest(ItemWakes(input, env, look.now)))
    {
      var pending := FindPending(env);
      var spent := entry.attentionRaised;
      if pending == [] || (!Idle(env) && !(prev.Some? && prev.value.running)) { spent := false; }
      var kept, raised := RaisePending(env, ItemsBefore(prev), pending, spent);
      entry := entry.(attention := kept, attentionRaised := raised);
    }

    // -------------------------------------------------------------- one workspace after another

    /** The two halves of overseeProgress that end a run. */
    method OverseeEnd(env: Env, quietSince: Stamp)
      requires quietSince == QuietSince(input, env, entry)
      modifies this`notifications, this`entry, this`wakeAt
      ensures entry == AfterFinish(look, input, env, old(entry))
      ensures notifications == old(notifications) + FinishNotes(look, input, env, old(entry))
      ensures wakeAt == Sooner(old(wakeAt), Earliest(FinishWakes(look, input, env, old(entry))))
    {
      OverseeFinish(env, quietSince);
      EndRun(env);
    }

    method OverseeProgress(env: Env)
      modifies this`notifications, this`entry, this`wakeAt
      ensures var e := old(entry); var since := QuietSince(input, env, e); var e2 := AfterFinish(look, input, env, e);
              && entry == AfterStuck(look, input, env, since, e2)
              && notifications == old(notifications)
              + (FinishNotes(look, input, env, e) + StuckNotes(look, input, env, since, e2))
              && wakeAt == Sooner(old(wakeAt),
                                  Earliest(FinishWakes(look, input, env, e) + StuckWakes(look, input, env, since, e2)))
    {
      var driven := FirstDriven(env.devices, input.ownLeases).Some?;
      var quietSince := LastActivityAt(env, entry.errorsAt, if driven then None else entry.drivenAt);
      ghost var e := entry;
      OverseeEnd(env, quietSince);
      ghost var e2 := entry;
      EarliestOfBoth(FinishWakes(look, input, env, e), StuckWakes(look, input, env, quietSince, e2));
      OverseeStuck(env, quietSince);
    }

    method OverseeLoops(env: Env, prev: Option<Entry>)
      modifies this`notifications, this`entry
      ensures entry == AfterLoops(look, env, prev, old(entry))
      ensures notifications == old(notifications)
              + (LoopNotes(look, env, prev, Ios) + LoopNotes(look, env, prev, Android))
    {
      var ios := OverseeLoop(env, prev, Ios);
      var android := OverseeLoop(env, prev, Android);
      entry := entry.(iosLoop := ios, androidLoop := android);
    }

    method OverseeMerge(env: Env, prev: Option<Entry>)
      modifies this`notifications, this`entry
      ensures entry == AfterMerge(input, env, prev, old(entry))
      ensures notifications == old(notifications) + MergeNotes(look, input, env, prev, old(entry))
    {
      ghost var e := entry;
      OverseePullRequest(env);
      assert entry == AfterPr(input, env, e);
      OverseeBranch(env, prev);
    }

    /** overseeWorkspace, up to the stuck rule. */
    method OverseeEarly(env: Env, prev: Option<Entry>)
      modifies this`notifications, this`entry, this`wakeAt
      ensures entry == Entry3(look, input, env, prev)
      ensures notifications == old(notifications) + EarlyNotes(look, input, env, prev)
      ensures wakeAt == Sooner(old(wakeAt), Earliest(EarlyWakes(look, input, env, prev)))
    {
      entry := Fresh(look, env, prev);
      OverseeStart(env);
      OverseeProgress(env);
    }

    /** overseeWorkspace, from the loops on. */
    method OverseeLate(env: Env, prev: Option<Entry>)
      modifies this`notifications, this`entry, this`wakeAt
      ensures var e4 := AfterLoops(look, env, prev, old(entry)); var e5 := AfterMerge(input, env, prev, e4);
              && entry == AfterAttention(look, input, env, prev, e5)
              && notifications == old(notifications) + LateNotes(look, input, env, prev, e4, e5)
              && wakeAt == Sooner(old(wakeAt), Earliest(ItemWakes(input, env, look.now)))
    {
      ghost var said := notifications;
      OverseeLoops(env, prev);
      ghost var e4 := entry;
      OverseeMerge(env, prev);
      ghost var e5 := entry;
      OverseeAttention(env, prev);
      OneByOne(said, LoopNotes(look, env, prev, Ios) + LoopNotes(look, env, prev, Android),
               MergeNotes(look, input, env, prev, e4), Raise(look, input, env, prev, e5.attentionRaised).notes);
    }

    /** overseeWorkspace. */
    method OverseeWorkspace(env: Env, prev: Option<Entry>)
      modifies this`notifications, this`entry, this`wakeAt
      ensures entry == NextEntry(look, input, env, prev)
      ensures notifications == old(notifications) + WorkspaceNotes(look, input, env, prev)
      ensures wakeAt == Sooner(old(wakeAt), Earliest(WorkspaceWakes(look, input, env, prev)))
    {
      ghost var said := notifications;
      OverseeEarly(env, prev);
      OverseeLate(env, prev);
      EarliestOfBoth(EarlyWakes(look, input, env, prev), ItemWakes(input, env, look.now));
      Together(look, input, env, prev, said);
    }
  }

  ghost function EarlyNotes(look: Look, input: Input, env: Env, prev: Option<Entry>): seq<Note> {
    var e1, e2 := Entry1(look, input, env, prev), Entry2(look, input, env, prev);
    StartNotes(look, input, env, Fresh(look, env, prev))
    + (FinishNotes(look, input, env, e1) + StuckNotes(look, input, env, Since(look, input, env, prev), e2))
  }

  ghost function EarlyWakes(look: Look, input: Input, env: Env, prev: Option<Entry>): seq<int> {
    FinishWakes(look, input, env, Entry1(look, input, env, prev))
    + StuckWakes(look, input, env, Since(look, input, env, prev), Entry2(look, input, env, prev))
  }

  ghost function LateNotes(look: Look, input: Input, env: Env, prev: Option<Entry>, e4: Entry, e5: Entry): seq<Note> {
    (LoopNotes(look, env, prev, Ios) + LoopNotes(look, env, prev, Android))
    + MergeNotes(look, input, env, prev, e4) + Raise(look, input, env, prev, e5.attentionRaised).notes
  }

  /** What the two halves said is what the workspace's rules say, in their order. */
  lemma Together(look: Look, input: Input, env: Env, prev: Option<Entry>, said: seq<Note>)
    ensures var e4, e5 := Entry4(look, input, env, prev), Entry5(look, input, env, prev);
            said + EarlyNotes(look, input, env, prev) + LateNotes(look, input, env, prev, e4, e5) == said
            + WorkspaceNotes(look, input, env, prev)
  {
    var e1, e2, since := Entry1(look, input, env, prev), Entry2(look, input, env, prev), Since(look, input, env, prev);
    Regroup(said, StartNotes(look, input, env, Fresh(look, env, prev)), FinishNotes(look, input, env, e1),
            StuckNotes(look, input, env, since, e2), LoopNotes(look, env, prev, Ios)
                                                     + LoopNotes(look, env, prev, Android),
            MergeNotes(look, input, env, prev, Entry4(look, input, env, prev)),
            Raise(look, input, env, prev, Entry5(look, input, env, prev).attentionRaised).notes);
  }

  lemma OneByOne(said: seq<Note>, a: seq<Note>, b: seq<Note>, c: seq<Note>)
    ensures said + a + b + c == said + (a + b + c)
  {
  }

  lemma Regroup(said: seq<Note>, a: seq<Note>, b: seq<Note>, c: seq<Note>, d: seq<Note>, e: seq<Note>, f: seq<Note>)
    ensures said + (a + (b + c)) + (d + e + f) == said + (a + b + c + d + e + f)
  {
  }

  lemma {:induction false} GatherLast<T>(f: Env -> seq<T>, envs: seq<Env>, i: nat)
    requires i < |envs|
    ensures Gather(f, envs[..i + 1]) == Gather(f, envs[..i]) + f(envs[i])
    decreases i
  {
    if i == 0 {
      assert envs[..1][1..] == [] && envs[..0] == [];
      assert Gather(f, envs[..1]) == f(envs[0]) + Gather(f, envs[..1][1..]);
    } else {
      var tail := envs[1..];
      assert envs[..i + 1][1..] == tail[..i] && envs[..i][1..] == tail[..i - 1] && tail[i - 1] == envs[i];
      GatherLast(f, tail, i - 1);
      assert (f(envs[0]) + Gather(f, tail[..i - 1])) + f(envs[i]) == f(envs[0])
             + (Gather(f, tail[..i - 1]) + f(envs[i]));
    }
  }

  lemma CollectLast(f: Env -> Entry, envs: seq<Env>, i: nat)
    requires i < |envs|
    ensures Collect(f, envs[..i + 1]) == Collect(f, envs[..i])[envs[i].path := f(envs[i])]
  {
    assert envs[..i + 1][..i] == envs[..i];
  }

  /** What the loop over the environments has done of `envs`, from notifications `said` and wake-up time `due`. */
  ghost predicate Done(look: Look, input: Input, prev: Option<State>, envs: seq<Env>, said: seq<Note>, due: Stamp,
                       workspaces: map<string, Entry>, notifications: seq<Note>, wakeAt: Stamp) {
    && workspaces == Collect(EntryOn(look, input, prev), envs)
    && notifications == said + Gather(NotesOn(look, input, prev), envs)
    && wakeAt == Sooner(due, Earliest(Gather(WakesOn(look, input, prev), envs)))
  }

  lemma DoneNext(f: Env -> Entry, g: Env -> seq<Note>, h: Env -> seq<int>, envs: seq<Env>, i: nat, said: seq<Note>,
                 due: Stamp)
    requires i < |envs|
    ensures Collect(f, envs[..i + 1]) == Collect(f, envs[..i])[envs[i].path := f(envs[i])]
    ensures said + Gather(g, envs[..i + 1]) == said + Gather(g, envs[..i]) + g(envs[i])
    ensures Sooner(due, Earliest(Gather(h, envs[..i + 1]))) ==
              Sooner(Sooner(due, Earliest(Gather(h, envs[..i]))), Earliest(h(envs[i])))
  {
    CollectLast(f, envs, i);
    GatherLast(g, envs, i);
    GatherLast(h, envs, i);
    EarliestOfBoth(Gather(h, envs[..i]), h(envs[i]));
  }

  /** oversee's loop over the environments: one turn of it, then all. */
  method OverseeNext(run: Run, prev: Option<State>, envs: seq<Env>, i: nat, before: map<string, Entry>,
                     ghost said: seq<Note>, ghost due: Stamp)
    returns (workspaces: map<string, Entry>)
    requires i < |envs| && Done(run.look, run.input, prev, envs[..i], said, due, before, run.notifications, run.wakeAt)
    modifies run
    ensures Done(run.look, run.input, prev, envs[..i + 1], said, due, workspaces, run.notifications, run.wakeAt)
  {
    DoneNext(EntryOn(run.look, run.input, prev), NotesOn(run.look, run.input, prev), WakesOn(run.look, run.input, prev),
             envs, i, said, due);
    run.OverseeWorkspace(envs[i], Before(prev, envs[i].path));
    workspaces := before[envs[i].path := run.entry];
  }

  method OverseeAll(run: Run, prev: Option<State>, envs: seq<Env>) returns (workspaces: map<string, Entry>)
    modifies run
    ensures Done(run.look, run.input, prev, envs, old(run.notifications), old(run.wakeAt), workspaces,
                 run.notifications, run.wakeAt)
  {
    workspaces := map[];
    for i := 0 to |envs|
      invariant Done(run.look, run.input, prev, envs[..i], old(run.notifications), old(run.wakeAt), workspaces,
                     run.notifications, run.wakeAt)
    {
      workspaces := OverseeNext(run, prev, envs, i, workspaces, old(run.notifications), old(run.wakeAt));
    }
    assert envs[..|envs|] == envs;
  }

  /** The listed entries, and of the others those done with and not yet forgotten. */
  ghost predicate Kept(workspaces: map<string, Entry>, listed: map<string, Entry>, before: map<string, Entry>,
                       todo: set<string>, now: int) {
    && (forall p :: p in workspaces <==>
                      p in listed || (p in before && p !in todo && now - before[p].seenAt < FORGET_MS))
    && (forall p | p in workspaces :: workspaces[p] == if p in listed then listed[p] else before[p])
  }

  lemma KeptNext(workspaces: map<string, Entry>, listed: map<string, Entry>, before: map<string, Entry>,
                 todo: set<string>, now: int, p: string)
    requires todo <= before.Keys && p in todo && Kept(workspaces, listed, before, todo, now)
    ensures Kept(if p !in workspaces && now - before[p].seenAt < FORGET_MS then workspaces[p := before[p]]
                 else workspaces,
                 listed, before, todo - {p}, now)
  {
  }

  lemma KeptAll(workspaces: map<string, Entry>, listed: map<string, Entry>, prev: Option<State>, now: int)
    requires Kept(workspaces, listed, Workspaces(prev), {}, now)
    ensures workspaces == Remembered(prev, now) + listed
  {
  }

  /** oversee's loop over the remembered entries: one not listed now stays until it is forgotten. */
  method Remember(listed: map<string, Entry>, prev: Option<State>, now: int) returns (workspaces: map<string, Entry>)
    ensures workspaces == Remembered(prev, now) + listed
  {
    workspaces := listed;
    var before := Workspaces(prev);
    var todo := before.Keys;
    while todo != {}
      invariant todo <= before.Keys && Kept(workspaces, listed, before, todo, now)
      decreases |todo|
    {
      var p: string :| p in todo;
      KeptNext(workspaces, listed, before, todo, now, p);
      todo := todo - {p};
      if p !in workspaces && now - before[p].seenAt < FORGET_MS { workspaces := workspaces[p := before[p]]; }
    }
    KeptAll(workspaces, listed, prev, now);
  }

  /** oversee. */
  method Oversee(prev: Option<State>, input: Input, prefs: Prefs, now: int, awakeSince: int) returns (r: Result)
    ensures r == OversightModel.Oversee(prev, input, prefs, now, awakeSince)
  {
    var look := Look(prefs, now, prev.None?);
    var blank := Entry(0, false, false, None, false, 0, None, None, false, false, false, [], false, None, None,
                       Unlooked, None, false);
    var run := new Run(input, look, blank);
    var link := run.OverseeLink(prev, awakeSince);
    var disk := run.OverseeDisk(prev);
    var memory := run.OverseeMemory(prev);
    EarliestOfBoth(LinkWakes(look, prev, input, awakeSince), MemoryWakes(look, prev, input));
    assert run.notifications == MachineNotes(look, input, prev, awakeSince);
    assert run.wakeAt == Earliest(MachineWakes(look, input, prev, awakeSince));
    EarliestOfBoth(MachineWakes(look, input, prev, awakeSince), Gather(WakesOn(look, input, prev), Envs(input)));
    var listed := OverseeAll(run, prev, Envs(input));
    var workspaces := Workspaces(prev);
    if input.status.Some? { workspaces := Remember(listed, prev, now); }
    var state := State(workspaces, disk, memory, input.memoryPressure.Some? || MemoryKnown(prev), link);
    return Result(state, run.notifications, run.wakeAt);
  }

  // ---------------------------------------------------------------- steps of the loops

  lemma LeaseStep(ds: seq<Leased>, i: nat, now: int, items: seq<ItemId>, at: Stamp)
    requires i < |ds|
    ensures var d := ds[i]; var due := d.expiresAt.Some? && d.expiresAt.value <= now;
            items + LeaseItems(ds[i..], now) == (if due then items + [LeaseItem(d.platform, d.slot)] else items)
            + LeaseItems(ds[i + 1..], now)
    ensures var later := ds[i].expiresAt.Some? && ds[i].expiresAt.value > now;
            Sooner(at, Earliest(LeaseWakes(ds[i..], now))) ==
              Sooner(if later then Sooner(at, ds[i].expiresAt) else at, Earliest(LeaseWakes(ds[i + 1..], now)))
  {
    assert ds[i..][0] == ds[i] && ds[i..][1..] == ds[i + 1..];
    EarliestOfBoth(if ds[i].expiresAt.Some? then WakeAt(true, ds[i].expiresAt.value, now) else [],
                   LeaseWakes(ds[i + 1..], now));
  }

  lemma SessionStep(ss: seq<Session>, i: nat, now: int, items: seq<ItemId>, at: Stamp)
    requires i < |ss|
    ensures var due := EasDue(ss[i]).Some? && EasDue(ss[i]).value <= now;
            items + EasItems(ss[i..], now) == (if due then items + [EasItem(ss[i].sessionId)] else items)
            + EasItems(ss[i + 1..], now)
    ensures var later := EasDue(ss[i]).Some? && EasDue(ss[i]).value > now;
            Sooner(at, Earliest(EasWakes(ss[i..], now))) ==
              Sooner(if later then Sooner(at, EasDue(ss[i])) else at, Earliest(EasWakes(ss[i + 1..], now)))
  {
    assert ss[i..][0] == ss[i] && ss[i..][1..] == ss[i + 1..];
    EarliestOfBoth(if EasDue(ss[i]).Some? then WakeAt(true, EasDue(ss[i]).value, now) else [],
                   EasWakes(ss[i + 1..], now));
  }

  /** `rest` is what remains of `goal` after `kept` and `said`. */
  ghost predicate Resumes(goal: Raising, kept: seq<ItemId>, said: seq<Note>, rest: Raising) {
    goal.kept == kept + rest.kept && goal.raised == rest.raised && goal.notes == said + rest.notes
  }

  lemma ResumesNext(goal: Raising, kept: seq<ItemId>, said: seq<Note>, k: seq<ItemId>, n: seq<Note>, now: Raising,
                    rest: Raising)
    requires Resumes(goal, kept, said, now) && now == Raising(k + rest.kept, rest.raised, n + rest.notes)
    ensures Resumes(goal, kept + k, said + n, rest)
  {
  }

  lemma RaiseStep(look: Look, env: Env, before: seq<ItemId>, items: seq<ItemId>, i: nat, raised: bool)
    requires i < |items|
    ensures var item := items[i];
            var said := ItemSaid(look, before, item, raised);
            var rest := RaiseItems(look, env, before, items[i + 1..], raised || said);
            RaiseItems(look, env, before, items[i..], raised) ==
              Raising((if ItemKept(look, before, item, raised) then [item] else []) + rest.kept, rest.raised,
                      Say(said, Note(AboutItem(item), Attention, ItemTarget(env, item))) + rest.notes)
  {
    assert items[i..][0] == items[i] && items[i..][1..] == items[i + 1..];
  }

  /** Times to wake at lie ahead. */
  lemma LateWakes(env: Env, input: Input, now: int)
    ensures var at := Earliest(ItemWakes(input, env, now)); at.Some? ==> at.value > now
  {
    LateLeases(env.physicalDevices, now);
    LateSessions(env.remoteDevices, now);
    EarliestOfBoth(LeaseWakes(env.physicalDevices, now),
                   if RunningDriven(env.devices, input.ownLeases) then [] else EasWakes(env.remoteDevices, now));
  }

  lemma {:induction false} LateLeases(ds: seq<Leased>, now: int)
    ensures var at := Earliest(LeaseWakes(ds, now)); at.Some? ==> at.value > now
    decreases |ds|
  {
    if ds != [] {
      LateLeases(ds[1..], now);
      EarliestOfBoth(if ds[0].expiresAt.Some? then WakeAt(true, ds[0].expiresAt.value, now) else [],
                     LeaseWakes(ds[1..], now));
    }
  }

  lemma {:induction false} LateSessions(ss: seq<Session>, now: int)
    ensures var at := Earliest(EasWakes(ss, now)); at.Some? ==> at.value > now
    decreases |ss|
  {
    if ss != [] {
      LateSessions(ss[1..], now);
      EarliestOfBoth(if EasDue(ss[0]).Some? then WakeAt(true, EasDue(ss[0]).value, now) else [],
                     EasWakes(ss[1..], now));
    }
  }
}
