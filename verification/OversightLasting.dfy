/**
 When lasting problems are told of: for each kind, exactly which reading of a look makes it speak, by
 what the state before it has already told of.
 */
module OversightLasting {
  import opened Options
  import opened OversightModel
  import opened OversightWake
  import opened OversightRuns
  import opened OversightEpisodes
  import opened OversightQuiet
  import opened OversightSigns
  import opened OversightOwed

  // ---------------------------------------------------------------- the machine

  /** The look settles a lasting problem of this category: it is told, or never will be. */
  ghost predicate MaySettle(run: seq<Record>, k: nat, c: Category)
    requires k < |run|
  {
    run[k].prev.None? || c !in run[k].turn.prefs.categories || !run[k].turn.prefs.quiet
  }

  lemma SettlesIs(run: seq<Record>, k: nat, c: Category)
    requires k < |run|
    ensures Settles(LookOf(run[k].prev, run[k].turn), c) <==> MaySettle(run, k, c)
  {
  }

  /** A known volume is under five gigabytes, or under six while an episode lasts. */
  ghost predicate VolumeLow(run: seq<Record>, k: nat)
    requires k < |run|
  {
    && run[k].turn.input.volumes.Some?
    && exists v :: v in run[k].turn.input.volumes.value && v < if DiskBefore(run[k].prev).Some? then 6_000_000_000
                                                               else 5_000_000_000
  }

  lemma {:induction false} EarliestIs(times: seq<int>)
    ensures Earliest(times).None? <==> times == []
    ensures Earliest(times).Some? ==> Earliest(times).value in times && forall t | t in times ::
                                                                          Earliest(times).value <= t
    decreases |times|
  {
    if times != [] {
      EarliestIs(times[1..]);
      assert forall t | t in times :: t == times[0] || t in times[1..];
    }
  }

  lemma LowIs(prev: Option<State>, input: Input)
    ensures DiskLow(prev, input) <==>
              && input.volumes.Some?
              && exists v :: v in input.volumes.value && v < if DiskBefore(prev).Some? then 6_000_000_000
                                                             else 5_000_000_000
  {
    if input.volumes.Some? {
      var low := Lowest(input.volumes.value);
      EarliestIs(input.volumes.value);
      if low.Some? { assert low.value in input.volumes.value; }
    }
  }

  /** Whether an episode is open after a look, and told of. */
  ghost predicate NowHeld(before: Option<Held>, after: Option<Held>, lasts: bool, told: bool, now: int) {
    && (after.Some? <==> lasts)
    && (lasts ==> after == Some(Held(if before.Some? then before.value.since else now, told)))
  }

  /** The disk is told of exactly when a volume is low and it was not told of in this episode; and so the state says. */
  lemma DiskExactly(run: seq<Record>, k: nat)
    requires IsRun(run) && k < |run|
    ensures var before := DiskBefore(run[k].prev);
            var told := before.Some? && before.value.notified;
            && (Says(run[k], AboutDisk) <==> VolumeLow(run, k) && !told && MaySpeak(run, k, Machine))
            && (run[k].turn.input.volumes.None? ==> run[k].next.disk == before)
            && (run[k].turn.input.volumes.Some? ==>
                  NowHeld(before, run[k].next.disk, VolumeLow(run, k), told || MaySettle(run, k, Machine),
                          run[k].turn.now))
  {
    LowIs(run[k].prev, run[k].turn.input);
    LoudIs(run, k, Machine);
    SettlesIs(run, k, Machine);
    if Says(run[k], AboutDisk) { MachineRule(run, k, AboutDisk); }
    if DiskNotes(LookOf(run[k].prev, run[k].turn), run[k].prev, run[k].turn.input) != [] { SaysDisk(run, k); }
    MachineNext(run, k);
  }

  /** Memory pressure is told of exactly when it was known before, has lasted a minute, and was not told of. */
  lemma MemoryExactly(run: seq<Record>, k: nat)
    requires IsRun(run) && k < |run|
    ensures Says(run[k], AboutMemory) <==>
              && run[k].turn.input.memoryPressure == Some(Critical) && MemoryKnown(run[k].prev)
              && (exists since ::
                    MemoryBefore(run[k].prev) == Some(Held(since, false)) && since + 60_000 <= run[k].turn.now)
              && MaySpeak(run, k, Machine)
    ensures run[k].next.memoryKnown == (run[k].turn.input.memoryPressure.Some? || MemoryKnown(run[k].prev))
    ensures var before, now := MemoryBefore(run[k].prev), run[k].turn.now;
            match run[k].turn.input.memoryPressure
            case None => run[k].next.memory == before
            case Some(OtherPressure) => run[k].next.memory == None
            case Some(Critical) =>
              var since := if before.Some? then before.value.since else now;
              run[k].next.memory ==
                Some(Held(since, || !MemoryKnown(run[k].prev) || (before.Some? && before.value.notified)
                                 || (since + 60_000 <= now && MaySettle(run, k, Machine))))
  {
    LoudIs(run, k, Machine);
    SettlesIs(run, k, Machine);
    MachineNext(run, k);
    if Says(run[k], AboutMemory) { MachineRule(run, k, AboutMemory); }
    if MemoryNotes(LookOf(run[k].prev, run[k].turn), run[k].prev, run[k].turn.input) != [] {
      MachineSaid(run, k, Note(AboutMemory, Machine, ToMachine));
    }
  }

  /**
   The link is told of exactly when it is down, was not told of in this way, and has been so, and the checker awake,
   for its settle time: a minute when offline, none otherwise.
   */
  lemma LinkExactly(run: seq<Record>, k: nat)
    requires IsRun(run) && k < |run|
    ensures Says(run[k], AboutLink) <==>
              && (exists kind :: run[k].turn.input.link == Some(kind) && kind != Open
                                 && LinkUnsaid(run[k], kind))
              && MaySpeak(run, k, Machine)
    ensures var link := run[k].turn.input.link;
            if link.None? || link == Some(Open) then run[k].next.link == None
            else
              var before := LinkBefore(run[k].prev, link.value);
              run[k].next.link ==
                Some(HeldLink(link.value, Held(if before.Some? then before.value.since else run[k].turn.now,
                                               || (before.Some? && before.value.notified)
                                               || (LinkUnsaid(run[k], link.value) && MaySettle(run, k, Machine)))))
  {
    LoudIs(run, k, Machine);
    SettlesIs(run, k, Machine);
    MachineNext(run, k);
    if Says(run[k], AboutLink) { MachineRule(run, k, AboutLink); }
    if LinkNotes(LookOf(run[k].prev, run[k].turn), run[k].prev, run[k].turn.input, run[k].turn.awakeSince) != [] {
      SaysLink(run, k);
    }
  }

  ghost predicate LinkUnsaid(r: Record, kind: Link) {
    var before := LinkBefore(r.prev, kind);
    var settle := if kind == Offline then 60_000 else 0;
    && !(before.Some? && before.value.notified)
    && (if before.Some? then before.value.since else r.turn.now) + settle <= r.turn.now
    && r.turn.awakeSince + settle <= r.turn.now
  }

  // ---------------------------------------------------------------- a standstill

  /** A sign of work, as look `k` sees it: the last time it was driven counts only when nobody drives now. */
  ghost predicate WorkAt(run: seq<Record>, k: nat, path: string, t: int)
    requires Visits(run, k, path)
  {
    || ShowsWork(EnvAt(run, k, path), t) || LastErrors(run, k + 1, path, t)
    || (!DrivenAt(run, k, path) && LastDriven(run, k, path, t))
  }

  ghost predicate LastWork(run: seq<Record>, k: nat, path: string, t: int)
    requires Visits(run, k, path)
  {
    WorkAt(run, k, path, t) && forall s: int | WorkAt(run, k, path, s) :: s <= t
  }

  /** The device an agent drives is up, or with none driven some device is. */
  ghost predicate DeviceUp(input: Input, env: Env) {
    if AgentDrives(input, env) then exists d: Device :: FirstToDrive(input, env, d) && d.running
    else exists i :: 0 <= i < |env.devices| && env.devices[i].running
  }

  /** An agent's work stands still at this look. */
  ghost predicate StandsStillAt(run: seq<Record>, k: nat, path: string)
    requires Visits(run, k, path)
  {
    var input, env := run[k].turn.input, EnvAt(run, k, path);
    && DroveSince(run, k + 1, path) && DeviceUp(input, env) && !BuildRuns(env)
    && (AgentDrives(input, env) || !NewestOk(env))
  }

  lemma {:induction false} RunningIs(devices: seq<Device>)
    ensures FirstRunning(devices).Some? <==> exists i :: 0 <= i < |devices| && devices[i].running
    ensures FirstRunning(devices).Some? ==> FirstRunning(devices).value.running
    decreases |devices|
  {
    if devices != [] {
      RunningIs(devices[1..]);
      if i :| 0 < i < |devices| && devices[i].running { assert devices[1..][i - 1] == devices[i]; }
      if i :| 0 <= i < |devices[1..]| && devices[1..][i].running { assert devices[i + 1] == devices[1..][i]; }
    }
  }

  lemma OneFirst(input: Input, env: Env, c: Device, d: Device)
    requires FirstToDrive(input, env, c) && FirstToDrive(input, env, d)
    ensures c == d
  {
  }

  lemma UpIs(input: Input, env: Env)
    ensures StuckDevice(input, env).Some? && StuckDevice(input, env).value.running <==> DeviceUp(input, env)
  {
    DrivesIs(input, env);
    RunningIs(env.devices);
    if AgentDrives(input, env) {
      var c := Driven(env, input).value;
      forall d: Device | FirstToDrive(input, env, d) ensures d == c {
        OneFirst(input, env, c, d);
      }
    }
  }

  /** The times the looks saw work at, as the state has them. */
  lemma WorkSigns(run: seq<Record>, k: nat, path: string, t: int)
    requires FromStart(run) && Visits(run, k, path)
    ensures var look, env, prev := LookOf(run[k].prev, run[k].turn), EnvAt(run, k, path), EntryBefore(run, k, path);
            var driven := if AgentDrives(run[k].turn.input, env) then None else DrivenBefore(prev);
            Sign(env, ErrorsSince(look, env, prev), driven, t) <==> WorkAt(run, k, path, t)
  {
    AlwaysKnown(run, k, path);
    ListedStays(run, k, path);
    SignsAre(run, k, path, LookOf(run[k].prev, run[k].turn));
  }

  lemma LatestIs(s: Stamp, times: iset<int>)
    requires Latest(s, times)
    ensures forall t: int :: s == Some(t) <==> t in times && forall u: int | u in times :: u <= t
  {
    if s.Some? {
      assert s.value in times;
      forall t: int | t in times && forall u: int | u in times :: u <= t ensures t == s.value {
        assert s.value <= t <= s.value;
      }
    }
  }

  lemma WorkIs(run: seq<Record>, k: nat, path: string)
    requires FromStart(run) && Visits(run, k, path)
    ensures var look, env, prev := LookOf(run[k].prev, run[k].turn), EnvAt(run, k, path), EntryBefore(run, k, path);
            var since := Since(look, run[k].turn.input, env, prev);
            forall t: int :: since == Some(t) <==> LastWork(run, k, path, t)
  {
    var look, env, prev := LookOf(run[k].prev, run[k].turn), EnvAt(run, k, path), EntryBefore(run, k, path);
    var errors := ErrorsSince(look, env, prev);
    var driven := if AgentDrives(run[k].turn.input, env) then None else DrivenBefore(prev);
    var T := iset t: int | WorkAt(run, k, path, t);
    SinceIs(look, run[k].turn.input, env, prev);
    ActivityLatest(env, errors, driven);
    forall t: int ensures Sign(env, errors, driven, t) <==> WorkAt(run, k, path, t) {
      WorkSigns(run, k, path, t);
    }
    assert T == iset t: int | Sign(env, errors, driven, t);
    LatestIs(LastActivity(env, errors, driven), T);
    forall t: int ensures t in T <==> WorkAt(run, k, path, t) {
    }
  }

  lemma SinceIs(look: Look, input: Input, env: Env, prev: Option<Entry>)
    ensures Since(look, input, env, prev) ==
              LastActivity(env, ErrorsSince(look, env, prev),
                           if AgentDrives(input, env) then None else DrivenBefore(prev))
  {
    DrivesIs(input, env);
  }

  lemma StuckSource(look: Look, input: Input, env: Env, prev: Option<Entry>)
    ensures var since, e2 := Since(look, input, env, prev), Entry2(look, input, env, prev);
            Speaks(WorkspaceNotes(look, input, env, prev), AboutStuck) <==>
              MayBeStuck(input, env, since, e2) && look.now >= StuckDue(look, since.value) && Loud(look, Stuck)
  {
    var since, e2 := Since(look, input, env, prev), Entry2(look, input, env, prev);
    if MayBeStuck(input, env, since, e2) {
      var d := StuckDevice(input, env).value;
      PartOf(look, input, env, prev, Note(AboutStuck, Stuck, ToDevice(env.path, d.platform, d.slot)));
    }
    if Speaks(WorkspaceNotes(look, input, env, prev), AboutStuck) {
      var n: Note :| n in WorkspaceNotes(look, input, env, prev) && n.what == AboutStuck;
      RuleSource(look, input, env, prev, n);
    }
  }

  function StuckBeforeAt(run: seq<Record>, k: nat, path: string): Stamp
    requires k <= |run|
  {
    if EntryBefore(run, k, path).None? then None else EntryBefore(run, k, path).value.stuckAt
  }

  lemma StuckFields(look: Look, input: Input, env: Env, prev: Option<Entry>)
    ensures var e2, e := Entry2(look, input, env, prev), NextEntry(look, input, env, prev);
            && e2.drove == e.drove && e2.stuckAt == (if prev.None? then None else prev.value.stuckAt)
            && e.stuckAt == AfterStuck(look, input, env, Since(look, input, env, prev), e2).stuckAt
  {
  }

  /**
   "Stuck" is said of a workspace exactly by a look that may speak and finds an agent's work standing still, its
   last sign as old as the preference says, when no standstill since that sign was told of. And then, or when
   the look settles it unsaid, that sign is what the state remembers as told.
   */
  lemma StuckExactly(run: seq<Record>, k: nat, path: string)
    requires FromStart(run) && Visits(run, k, path)
    ensures var before, minutes := StuckBeforeAt(run, k, path), run[k].turn.prefs.stuckMinutes;
            SaysOf(run[k], path, AboutStuck) <==>
              && StandsStillAt(run, k, path) && MaySpeak(run, k, Stuck)
              && exists t: int :: LastWork(run, k, path, t) && t + minutes * 60_000 <= run[k].turn.now
                                  && (before.None? || t > before.value)
    ensures var before, after := StuckBeforeAt(run, k, path), StuckBeforeAt(run, k + 1, path);
            forall t: int | LastWork(run, k, path, t) ::
              if before.Some? && t <= before.value then after == before
              else if && StandsStillAt(run, k, path) && MaySettle(run, k, Stuck)
                      && t + run[k].turn.prefs.stuckMinutes * 60_000 <= run[k].turn.now then after == Some(t)
              else after == None
  {
    var look, input, env, prev := LookOf(run[k].prev, run[k].turn), run[k].turn.input, EnvAt(run, k, path),
                                  EntryBefore(run, k, path);
    SaysExactly(run, k, path, AboutStuck);
    StuckSource(look, input, env, prev);
    StuckFields(look, input, env, prev);
    StillIs(run, k, path);
    WorkIs(run, k, path);
    LoudIs(run, k, Stuck);
    SettlesIs(run, k, Stuck);
    EntryRule(run, k, path);
    BeforeIs(run, k, path);
  }

  /** The rule's test, without the time. */
  lemma StillIs(run: seq<Record>, k: nat, path: string)
    requires FromStart(run) && Visits(run, k, path)
    ensures var look, input, env, prev := LookOf(run[k].prev, run[k].turn), run[k].turn.input, EnvAt(run, k, path),
                                          EntryBefore(run, k, path);
            forall since: Stamp :: MayBeStuck(input, env, since, Entry2(look, input, env, prev)) <==>
              && StandsStillAt(run, k, path) && since.Some?
              && (StuckBeforeAt(run, k, path).None? || since.value > StuckBeforeAt(run, k, path).value)
  {
    var look, input, env, prev := LookOf(run[k].prev, run[k].turn), run[k].turn.input, EnvAt(run, k, path),
                                  EntryBefore(run, k, path);
    EntryRule(run, k, path);
    BeforeIs(run, k, path);
    AlwaysKnown(run, k + 1, path);
    StuckFields(look, input, env, prev);
    UpIs(input, env);
    DrivesIs(input, env);
    ReadingsAre(env);
  }

  // ---------------------------------------------------------------- builds that fail in a row

  ghost predicate FailedBuild(b: Build) {
    b.result == Some("failed") || (b.result.None? && b.status == "failed")
  }

  ghost predicate Locates(d: Diagnostic) {
    d.file.Some? && d.file.value != "" && d.line.Some?
  }

  /** The cause of a failure: the first place a diagnostic names, else the error code, else that it failed. */
  ghost predicate HasCause(b: Build, cause: string) {
    if exists i :: 0 <= i < |b.diagnostics| && Locates(b.diagnostics[i]) then
      exists i ::
        && 0 <= i < |b.diagnostics| && Locates(b.diagnostics[i])
        && (forall j | 0 <= j < i :: !Locates(b.diagnostics[j]))
        && cause == b.diagnostics[i].file.value + ":" + Decimal(b.diagnostics[i].line.value)
    else cause == if b.errorCode.Some? then b.errorCode.value else "failed"
  }

  /** The three newest builds failed from this cause. */
  ghost predicate InARow(history: seq<Build>, cause: string) {
    |history| >= 3 && forall i | 0 <= i < 3 :: FailedBuild(history[i]) && HasCause(history[i], cause)
  }

  function BuildsOf(env: Env, p: Platform): seq<Build> {
    if p == Ios then env.iosBuilds else env.androidBuilds
  }

  /** A number as its decimal digits say it. */
  function NumberOf(s: string): int {
    if s == [] then 0
    else NumberOf(s[..|s| - 1]) * 10 + (s[|s| - 1] as int - '0' as int)
  }

  /** The digits of a line number say that number. */
  lemma {:induction false} DecimalIs(n: int)
    requires n >= 0
    ensures Decimal(n) != [] && NumberOf(Decimal(n)) == n && forall c | c in Decimal(n) :: '0' <= c <= '9'
    decreases n
  {
    var digits := "0123456789";
    assert forall i | 0 <= i < 10 :: digits[i] as int == '0' as int + i;
    if n < 10 {
      assert Decimal(n) == [digits[n]] && Decimal(n)[..0] == [];
    } else {
      DecimalIs(n / 10);
      var s := Decimal(n / 10) + [digits[n % 10]];
      assert s[..|s| - 1] == Decimal(n / 10) && s[|s| - 1] == digits[n % 10];
    }
  }

  lemma {:induction false} LocatedIs(ds: seq<Diagnostic>)
    ensures Located(ds).None? <==> forall i | 0 <= i < |ds| :: !Locates(ds[i])
    ensures Located(ds).Some? ==> exists i ::
              0 <= i < |ds| && ds[i] == Located(ds).value && Locates(ds[i]) && forall j | 0 <= j < i :: !Locates(ds[j])
    decreases |ds|
  {
    if ds != [] && !Locates(ds[0]) {
      var rest := ds[1..];
      LocatedIs(rest);
      if Located(rest).Some? {
        var i :| 0 <= i < |rest| && rest[i] == Located(rest).value && Locates(rest[i])
        && forall j | 0 <= j < i :: !Locates(rest[j]);
        assert ds[i + 1] == rest[i];
        forall j | 0 <= j < i + 1 ensures !Locates(ds[j]) {
          if j > 0 { assert ds[j] == rest[j - 1]; }
        }
      } else {
        assert forall i | 0 < i < |ds| :: ds[i] == rest[i - 1];
      }
    }
  }

  lemma CauseIs(b: Build, cause: string)
    ensures HasCause(b, cause) <==> cause == Cause(b)
  {
    LocatedIs(b.diagnostics);
  }

  lemma {:induction false} StreakIs(history: seq<Build>, cause: string, n: nat)
    ensures StreakOf(history, cause) >= n <==>
              n <= |history| && forall i | 0 <= i < n :: Failed(history[i]) && Cause(history[i]) == cause
    decreases n
  {
    if n > 0 && history != [] && Failed(history[0]) && Cause(history[0]) == cause {
      StreakIs(history[1..], cause, n - 1);
      assert forall i | 0 < i < |history| :: history[i] == history[1..][i - 1];
      assert forall i | 0 <= i < |history| - 1 :: history[1..][i] == history[i + 1];
    }
  }

  lemma RowIs(env: Env, p: Platform, cause: string)
    requires p != Chrome
    ensures Loops(env, p) && FailureStreak(History(env, p)).value.signature == cause <==>
              InARow(BuildsOf(env, p), cause)
  {
    var h := History(env, p);
    forall b: Build ensures Failed(b) <==> FailedBuild(b) {
    }
    forall b: Build, c: string ensures HasCause(b, c) <==> c == Cause(b) {
      CauseIs(b, c);
    }
    if h != [] { StreakIs(h, Cause(h[0]), 3); }
  }

  /** Whether the builds fail in a row at all, and from what. */
  lemma RowsAre(env: Env, p: Platform)
    requires p != Chrome
    ensures Loops(env, p) <==> exists cause: string :: InARow(BuildsOf(env, p), cause)
    ensures forall cause: string | InARow(BuildsOf(env, p), cause) ::
              Loops(env, p) && FailureStreak(History(env, p)).value.signature == cause
  {
    forall cause: string | InARow(BuildsOf(env, p), cause)
      ensures Loops(env, p) && FailureStreak(History(env, p)).value.signature == cause
    {
      RowIs(env, p, cause);
    }
    if Loops(env, p) { RowIs(env, p, FailureStreak(History(env, p)).value.signature); }
  }

  lemma LoopRule(look: Look, env: Env, prev: Option<Entry>, p: Platform)
    requires p != Chrome
    ensures LoopNotes(look, env, prev, p) != [] <==>
              && Loud(look, Looping)
              && exists cause: string :: InARow(BuildsOf(env, p), cause) && LoopOf(prev, p) != Some(Loop(cause, true))
    ensures forall cause: string | InARow(BuildsOf(env, p), cause) ::
              NextLoop(look, env, prev, p) ==
                Some(Loop(cause, LoopOf(prev, p) == Some(Loop(cause, true)) || Settles(look, Looping)))
  {
    RowsAre(env, p);
  }

  /**
   "Failing in a row" is said of a platform's builds exactly by a look that may speak and finds the three newest
   failed from one cause, when that row was not told of; and so the state says.
   */
  lemma LoopExactly(run: seq<Record>, k: nat, path: string, p: Platform)
    requires FromStart(run) && Visits(run, k, path) && p != Chrome
    ensures var before := LoopOf(EntryBefore(run, k, path), p);
            SaysOf(run[k], path, AboutLoop(p)) <==>
              && MaySpeak(run, k, Looping)
              && exists cause: string ::
                   InARow(BuildsOf(EnvAt(run, k, path), p), cause) && before != Some(Loop(cause, true))
    ensures var before, after := LoopOf(EntryBefore(run, k, path), p), LoopOf(EntryBefore(run, k + 1, path), p);
            forall cause: string | InARow(BuildsOf(EnvAt(run, k, path), p), cause) ::
              after == Some(Loop(cause, before == Some(Loop(cause, true)) || MaySettle(run, k, Looping)))
  {
    var look, input, env, prev := LookOf(run[k].prev, run[k].turn), run[k].turn.input, EnvAt(run, k, path),
                                  EntryBefore(run, k, path);
    SaysExactly(run, k, path, AboutLoop(p));
    LoopSource(look, input, env, prev, p);
    LoopRule(look, env, prev, p);
    LoudIs(run, k, Looping);
    SettlesIs(run, k, Looping);
    LoopLeft(run, k, path, p);
  }

  lemma LoopLeft(run: seq<Record>, k: nat, path: string, p: Platform)
    requires FromStart(run) && Visits(run, k, path) && p != Chrome
    ensures LoopOf(EntryBefore(run, k + 1, path), p) ==
              NextLoop(LookOf(run[k].prev, run[k].turn), EnvAt(run, k, path), EntryBefore(run, k, path), p)
  {
    EntryRule(run, k, path);
    BeforeIs(run, k, path);
    NextFields(LookOf(run[k].prev, run[k].turn), run[k].turn.input, EnvAt(run, k, path), EntryBefore(run, k, path));
  }

  lemma LoopSource(look: Look, input: Input, env: Env, prev: Option<Entry>, p: Platform)
    requires p != Chrome
    ensures Speaks(WorkspaceNotes(look, input, env, prev), AboutLoop(p)) <==> LoopNotes(look, env, prev, p) != []
  {
    var n := Note(AboutLoop(p), Looping, ToBuild(env.path, p));
    PartOf(look, input, env, prev, n);
    if Speaks(WorkspaceNotes(look, input, env, prev), AboutLoop(p)) {
      var m: Note :| m in WorkspaceNotes(look, input, env, prev) && m.what == AboutLoop(p);
      RuleSource(look, input, env, prev, m);
    }
    if LoopNotes(look, env, prev, p) != [] { assert n in LoopNotes(look, env, prev, p); }
  }

  // ---------------------------------------------------------------- what needs a person

  ghost predicate HasIssue(env: Env, code: string, slot: string) {
    && code in {"port-not-ours", "supervisor-unverified", "browser-unverified", "avd-unchecked"}
    && exists i ::
         && 0 <= i < |env.issues| && env.issues[i].code == code && env.issues[i].severity != Info
         && slot == if env.issues[i].slot.Some? then env.issues[i].slot.value else "default"
  }

  /** The last build failed to sign, lately, with no build of the platform running and no row of failures. */
  ghost predicate SigningNeeded(env: Env, p: Platform, now: int) {
    && p != Chrome
    && exists b: Build ::
         && (if p == Ios then env.lastIos else env.lastAndroid) == Some(b) && b.status == "failed"
         && (exists code: string :: b.errorCode == Some(code)
               && code in {"STIM_NO_SIGNING_IDENTITY", "STIM_CODESIGN_FAILED", "STIM_NO_PROFILE",
                           "STIM_PROFILE_MISMATCH"})
         && (env.live || exists t: int :: (if b.finishedAt.Some? then b.finishedAt.value else b.startedAt) == Some(t)
                                          && now - t < 86_400_000)
         && !(env.build.Some? && env.build.value.running && env.build.value.platform == Some(p))
         && !exists cause: string :: InARow(BuildsOf(env, p), cause)
  }

  ghost predicate LeaseOver(env: Env, platform: string, slot: string, now: int) {
    exists i :: 0 <= i < |env.physicalDevices| && env.physicalDevices[i].platform == platform
                && env.physicalDevices[i].slot == slot
                && exists t: int :: env.physicalDevices[i].expiresAt == Some(t) && t <= now
  }

  /** A remote session is half an hour old and no agent drives a running device. */
  ghost predicate SessionLong(input: Input, env: Env, id: string, now: int) {
    && !(exists i :: 0 <= i < |env.devices| && env.devices[i].running && DrivenByAgent(env.devices[i], input.ownLeases))
    && exists i :: 0 <= i < |env.remoteDevices| && env.remoteDevices[i].sessionId == id
                   && exists t: int :: env.remoteDevices[i].startedAt == Some(t) && t + 1_800_000 <= now
  }

  lemma {:induction false} IssuesAre(issues: seq<Issue>, item: ItemId)
    ensures item in IssueItems(issues) <==> exists i ::
              && 0 <= i < |issues| && issues[i].severity != Info && issues[i].code in PERSON_ISSUES
              && item == IssueItem(issues[i].code, if issues[i].slot.Some? then issues[i].slot.value else "default")
    decreases |issues|
  {
    if issues != [] {
      IssuesAre(issues[1..], item);
      assert forall i | 0 < i < |issues| :: issues[i] == issues[1..][i - 1];
      assert forall i | 0 <= i < |issues| - 1 :: issues[1..][i] == issues[i + 1];
    }
  }

  lemma {:induction false} LeasesAre(ds: seq<Leased>, now: int, item: ItemId)
    ensures item in LeaseItems(ds, now) <==> exists i ::
              0 <= i < |ds| && ds[i].expiresAt.Some? && ds[i].expiresAt.value <= now
              && item == LeaseItem(ds[i].platform, ds[i].slot)
    decreases |ds|
  {
    if ds != [] {
      LeasesAre(ds[1..], now, item);
      assert forall i | 0 < i < |ds| :: ds[i] == ds[1..][i - 1];
      assert forall i | 0 <= i < |ds| - 1 :: ds[1..][i] == ds[i + 1];
    }
  }

  lemma {:induction false} SessionsAre(ss: seq<Session>, now: int, item: ItemId)
    ensures item in EasItems(ss, now) <==> exists i ::
              0 <= i < |ss| && ss[i].startedAt.Some? && ss[i].startedAt.value + 1_800_000 <= now
              && item == EasItem(ss[i].sessionId)
    decreases |ss|
  {
    if ss != [] {
      SessionsAre(ss[1..], now, item);
      assert forall i | 0 < i < |ss| :: ss[i] == ss[1..][i - 1];
      assert forall i | 0 <= i < |ss| - 1 :: ss[1..][i] == ss[i + 1];
    }
  }

  lemma {:induction false} RunningDrivenIs(devices: seq<Device>, ownLeases: seq<string>)
    ensures RunningDriven(devices, ownLeases) <==> exists i ::
                                                     0 <= i < |devices| && devices[i].running
                                                     && DrivenByAgent(devices[i], ownLeases)
    decreases |devices|
  {
    if devices != [] {
      DrivenIs(devices[0], ownLeases);
      RunningDrivenIs(devices[1..], ownLeases);
      assert forall i | 0 < i < |devices| :: devices[i] == devices[1..][i - 1];
      assert forall i | 0 <= i < |devices| - 1 :: devices[1..][i] == devices[i + 1];
    }
  }

  lemma SigningIs(env: Env, p: Platform, now: int)
    requires p != Chrome
    ensures SigningFailed(env, p, now) <==> SigningNeeded(env, p, now)
  {
    RowsAre(env, p);
  }

  lemma IssueIs(env: Env, code: string, slot: string)
    ensures IssueItem(code, slot) in IssueItems(env.issues) <==> HasIssue(env, code, slot)
    ensures forall item | item in IssueItems(env.issues) :: item.IssueItem?
  {
    IssuesAre(env.issues, IssueItem(code, slot));
    forall item | item in IssueItems(env.issues) ensures item.IssueItem? {
      IssuesAre(env.issues, item);
    }
  }

  lemma LeaseIs(env: Env, platform: string, slot: string, now: int)
    ensures LeaseItem(platform, slot) in LeaseItems(env.physicalDevices, now) <==> LeaseOver(env, platform, slot, now)
    ensures forall item | item in LeaseItems(env.physicalDevices, now) :: item.LeaseItem?
  {
    LeasesAre(env.physicalDevices, now, LeaseItem(platform, slot));
    forall item | item in LeaseItems(env.physicalDevices, now) ensures item.LeaseItem? {
      LeasesAre(env.physicalDevices, now, item);
    }
  }

  function SessionItems(input: Input, env: Env, now: int): seq<ItemId> {
    if RunningDriven(env.devices, input.ownLeases) then [] else EasItems(env.remoteDevices, now)
  }

  lemma SessionIs(input: Input, env: Env, id: string, now: int)
    ensures EasItem(id) in SessionItems(input, env, now) <==> SessionLong(input, env, id, now)
    ensures forall item | item in SessionItems(input, env, now) :: item.EasItem?
  {
    RunningDrivenIs(env.devices, input.ownLeases);
    SessionsAre(env.remoteDevices, now, EasItem(id));
    forall item | item in SessionItems(input, env, now) ensures item.EasItem? {
      SessionsAre(env.remoteDevices, now, item);
    }
  }

  lemma PendingParts(input: Input, env: Env, now: int, item: ItemId)
    ensures item in Pending(input, env, now) <==>
              || item in IssueItems(env.issues) || item in RunItems(env, Ios, now)
              || item in RunItems(env, Android, now)
              || item in LeaseItems(env.physicalDevices, now) || item in SessionItems(input, env, now)
  {
  }

  /** What needs a person at a look: exactly these. */
  lemma PendingExactly(input: Input, env: Env, now: int, item: ItemId)
    ensures item in Pending(input, env, now) <==>
              match item
              case IssueItem(code, slot) => HasIssue(env, code, slot)
              case RunItem(p) => SigningNeeded(env, p, now)
              case LeaseItem(platform, slot) => LeaseOver(env, platform, slot, now)
              case EasItem(id) => SessionLong(input, env, id, now)
  {
    PendingParts(input, env, now, item);
    IssueIs(env, if item.IssueItem? then item.code else "", if item.IssueItem? then item.slot else "");
    LeaseIs(env, if item.LeaseItem? then item.leased else "", if item.LeaseItem? then item.slot else "", now);
    SessionIs(input, env, if item.EasItem? then item.sessionId else "", now);
    SigningIs(env, Ios, now);
    SigningIs(env, Android, now);
  }

  /** The workspace may raise another notification: it raised none in this run, or the run is a new one. */
  ghost predicate Unspent(run: seq<Record>, k: nat, path: string)
    requires Visits(run, k, path)
  {
    var prev := EntryBefore(run, k, path);
    || prev.None? || !prev.value.attentionRaised
    || Pending(run[k].turn.input, EnvAt(run, k, path), run[k].turn.now) == []
    || (!NoSession(EnvAt(run, k, path)) && !prev.value.running)
  }

  lemma {:induction false} FirstOnly(look: Look, env: Env, before: seq<ItemId>, items: seq<ItemId>)
    requires Loud(look, Attention)
    ensures var first := FirstNew(before, items);
            RaiseItems(look, env, before, items, false).notes ==
              if first.None? then [] else [Note(AboutItem(first.value), Attention, ItemTarget(env, first.value))]
    decreases |items|
  {
    if items != [] {
      if items[0] in before { FirstOnly(look, env, before, items[1..]); }
      else { RaisedOnce(look, env, before, items[1..], true); }
    }
  }

  lemma {:induction false} QuietRaise(look: Look, env: Env, before: seq<ItemId>, items: seq<ItemId>, raised: bool)
    requires raised || !Loud(look, Attention)
    ensures RaiseItems(look, env, before, items, raised).notes == []
    decreases |items|
  {
    if items != [] { QuietRaise(look, env, before, items[1..], raised); }
  }

  lemma ItemsSource(look: Look, input: Input, env: Env, prev: Option<Entry>, item: ItemId)
    ensures Speaks(WorkspaceNotes(look, input, env, prev), AboutItem(item)) <==>
              Speaks(Raise(look, input, env, prev, Entry5(look, input, env, prev).attentionRaised).notes,
                     AboutItem(item))
  {
    var raised := Raise(look, input, env, prev, Entry5(look, input, env, prev).attentionRaised).notes;
    if Speaks(raised, AboutItem(item)) {
      var n: Note :| n in raised && n.what == AboutItem(item);
      PartOf(look, input, env, prev, n);
    }
    if Speaks(WorkspaceNotes(look, input, env, prev), AboutItem(item)) {
      var n: Note :| n in WorkspaceNotes(look, input, env, prev) && n.what == AboutItem(item);
      RuleSource(look, input, env, prev, n);
    }
  }

  lemma RaiseRule(look: Look, input: Input, env: Env, prev: Option<Entry>, spent: bool, item: ItemId)
    requires spent <==> prev.Some? && prev.value.attentionRaised && !AllowanceReturns(input, env, look.now, prev)
    ensures Speaks(Raise(look, input, env, prev, Entry5(look, input, env, prev).attentionRaised).notes,
                   AboutItem(item)) <==>
              FirstNew(ItemsBefore(prev), Pending(input, env, look.now)) == Some(item) && !spent
              && Loud(look, Attention)
  {
    var items, before := Pending(input, env, look.now), ItemsBefore(prev);
    AllowanceKept(look, input, env, prev);
    if !spent && Loud(look, Attention) {
      FirstOnly(look, env, before, items);
    } else {
      QuietRaise(look, env, before, items, spent);
    }
  }

  lemma UnspentIs(run: seq<Record>, k: nat, path: string)
    requires Visits(run, k, path)
    ensures var prev, env := EntryBefore(run, k, path), EnvAt(run, k, path);
            Unspent(run, k, path) <==>
              !(prev.Some? && prev.value.attentionRaised
                && !AllowanceReturns(run[k].turn.input, env, run[k].turn.now, prev))
  {
    ReadingsAre(EnvAt(run, k, path));
  }

  /**
   What needs a person is told of exactly by a look that may speak, when the workspace's allowance is unspent,
   and then of the first item pending that was not noted before.
   */
  lemma AttentionExactly(run: seq<Record>, k: nat, path: string, item: ItemId)
    requires FromStart(run) && Visits(run, k, path)
    ensures SaysOf(run[k], path, AboutItem(item)) <==>
              FirstNewAt(run[k], path) == Some(item) && Unspent(run, k, path) && MaySpeak(run, k, Attention)
  {
    var look, input, env, prev := LookOf(run[k].prev, run[k].turn), run[k].turn.input, EnvAt(run, k, path),
                                  EntryBefore(run, k, path);
    SaysExactly(run, k, path, AboutItem(item));
    BeforeIs(run, k, path);
    ItemsSource(look, input, env, prev, item);
    LoudIs(run, k, Attention);
    UnspentIs(run, k, path);
    RaiseRule(look, input, env, prev, !Unspent(run, k, path), item);
  }

  lemma {:induction false} KeptAre(look: Look, env: Env, before: seq<ItemId>, items: seq<ItemId>, raised: bool,
                                   item: ItemId)
    ensures item in RaiseItems(look, env, before, items, raised).kept <==>
              item in items && (item in before || raised || Settles(look, Attention))
    decreases |items|
  {
    if items != [] { KeptAre(look, env, before, items[1..], raised || ItemSaid(look, before, items[0], raised), item); }
  }

  /**
   An item is noted after a look exactly if it is pending and was noted, the allowance is spent, or the
   look settles it.
   */
  lemma NotedExactly(run: seq<Record>, k: nat, path: string, item: ItemId)
    requires FromStart(run) && Visits(run, k, path)
    ensures var prev := EntryBefore(run, k, path);
            item in ItemsBefore(EntryBefore(run, k + 1, path)) <==>
              && item in Pending(run[k].turn.input, EnvAt(run, k, path), run[k].turn.now)
              && (item in ItemsBefore(prev) || !Unspent(run, k, path) || MaySettle(run, k, Attention))
  {
    var look, input, env, prev := LookOf(run[k].prev, run[k].turn), run[k].turn.input, EnvAt(run, k, path),
                                  EntryBefore(run, k, path);
    EntryRule(run, k, path);
    BeforeIs(run, k, path);
    NextFields(look, input, env, prev);
    AllowanceKept(look, input, env, prev);
    UnspentIs(run, k, path);
    SettlesIs(run, k, Attention);
    KeptAre(look, env, ItemsBefore(prev), Pending(input, env, look.now), !Unspent(run, k, path), item);
  }
}
