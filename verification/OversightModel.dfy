/**
 packages/core/oversight.ts: one look at a machine and its workspaces, as functions on values. A look
 reads the state the last one left and gives the next state, the notifications owed, and the times at
 which a rule may become due. Times are integers; a missing or unreadable time is `None`.
 Notifications keep their kind, category and target; their wording is left out.
 */
module OversightModel {
  import opened Options

  type Stamp = Option<int>

  const DISK_CRITICAL_BYTES: int := 5_000_000_000
  const DISK_RECOVERED_BYTES: int := 6_000_000_000
  const MEMORY_SETTLE_MS: int := 60_000
  const OFFLINE_SETTLE_MS: int := 60_000
  const FINISH_SETTLE_MS: int := 300_000
  const LOOP_COUNT: nat := 3
  const FORGET_MS: int := 120_000
  const EAS_SESSION_MINUTES: int := 30
  const STALE_MS: int := 86_400_000

  // ---------------------------------------------------------------- what a look reads

  datatype Category = Started | Stuck | Looping | Finished | Machine | Control | Attention

  datatype Driver = Driver(tool: string, since: Option<string>, sinceAt: Stamp)

  datatype Recent = Recent(agentAction: Stamp, metroBundle: Stamp, workspaceUse: Stamp, pageLog: Stamp)

  datatype Activity = Activity(driven: bool, driver: Option<Driver>, lastActivityAt: Stamp, recent: Option<Recent>)

  /** A device of any slot, or the owned Chrome page. */
  datatype Device = Device(platform: Platform, slot: string, running: bool, activity: Option<Activity>)

  datatype Diagnostic = Diagnostic(file: Option<string>, line: Option<int>)

  datatype Build = Build(status: string, result: Option<string>, startedAt: Stamp, finishedAt: Option<Stamp>,
                         errorCode: Option<string>, diagnostics: seq<Diagnostic>)

  datatype Current = Current(running: bool, startedAt: Stamp, platform: Option<Platform>)

  datatype Severity = Info | Warning | Error

  datatype Issue = Issue(code: string, severity: Severity, slot: Option<string>)

  datatype Leased = Leased(platform: string, slot: string, expiresAt: Stamp)

  datatype Session = Session(sessionId: string, startedAt: Stamp)

  datatype Phase = NoPhase | IdlePhase | Warming | OtherPhase

  datatype Platform = Ios | Android | Chrome

  datatype Env = Env(
    path: string,
    live: bool,
    phase: Phase,
    devices: seq<Device>,
    git: Option<Option<string>>,
    build: Option<Current>,
    issues: seq<Issue>,
    physicalDevices: seq<Leased>,
    remoteDevices: seq<Session>,
    lastIos: Option<Build>,
    lastAndroid: Option<Build>,
    iosBuilds: seq<Build>,
    androidBuilds: seq<Build>,
    errors: int)

  datatype PrState = OpenPr | MergedPr | ClosedPr

  datatype PullRequest = PullRequest(number: int, state: PrState, draft: bool)

  datatype Link = Open | Offline | Refused | Unpaired

  datatype Pressure = Critical | OtherPressure

  datatype Input = Input(
    status: Option<seq<Env>>,
    volumes: Option<seq<int>>,
    memoryPressure: Option<Pressure>,
    link: Option<Link>,
    pullRequests: map<string, Option<PullRequest>>,
    ownLeases: seq<string>)

  datatype Prefs = Prefs(categories: set<Category>, stuckMinutes: int, quiet: bool)

  // ---------------------------------------------------------------- what it remembers and says

  datatype Loop = Loop(signature: string, notified: bool)

  datatype Known = Unlooked | NoPr | Pr(number: int, ready: bool, merged: bool)

  datatype ItemId =
    | IssueItem(code: string, slot: string)
    | RunItem(platform: Platform)
    | LeaseItem(leased: string, slot: string)
    | EasItem(sessionId: string)

  datatype Entry = Entry(
    seenAt: int,
    warmed: bool,
    drove: bool,
    drivenAt: Stamp,
    driveNotified: bool,
    errors: int,
    errorsAt: Stamp,
    stuckAt: Stamp,
    finished: bool,
    finishedInRun: bool,
    running: bool,
    attention: seq<ItemId>,
    attentionRaised: bool,
    iosLoop: Option<Loop>,
    androidLoop: Option<Loop>,
    pr: Known,
    mergedInto: Option<string>,
    mergeNotified: bool)

  datatype Held = Held(since: int, notified: bool)

  datatype HeldLink = HeldLink(kind: Link, held: Held)

  datatype State = State(workspaces: map<string, Entry>, disk: Option<Held>, memory: Option<Held>, memoryKnown: bool,
                         link: Option<HeldLink>)

  /** What a notification is about, in place of its text. */
  datatype What =
    | AboutLink
    | AboutDisk
    | AboutMemory
    | AboutWarming
    | AboutDriving
    | AboutStopped
    | AboutStuck
    | AboutLoop(platform: Platform)
    | AboutPrReady(number: int)
    | AboutPrMerged(number: int)
    | AboutMerged
    | AboutItem(item: ItemId)

  datatype Target =
    | ToMachine
    | ToWorkspace(path: string)
    | ToDevice(path: string, platform: Platform, slot: string)
    | ToBuild(path: string, platform: Platform)
    | ToPr(path: string)

  datatype Note = Note(what: What, category: Category, target: Target)

  datatype Look = Look(prefs: Prefs, now: int, baseline: bool)

  // ---------------------------------------------------------------- the shared rules

  /** Whether a notification of this category is sent now. */
  predicate Loud(look: Look, category: Category) {
    !look.baseline && !look.prefs.quiet && category in look.prefs.categories
  }

  /** Whether a lasting problem is settled now: sent, or dropped on the first look or with its category off. */
  predicate Settles(look: Look, category: Category) {
    look.baseline || category !in look.prefs.categories || !look.prefs.quiet
  }

  function Say(on: bool, n: Note): seq<Note> {
    if on then [n] else []
  }

  /** A time to wake at; one that has passed is dropped. */
  function WakeAt(on: bool, at: int, now: int): seq<int> {
    if on && at > now then [at] else []
  }

  function Earliest(times: seq<int>): Stamp {
    if times == [] then None
    else
      var rest := Earliest(times[1..]);
      if rest.None? || times[0] <= rest.value then Some(times[0]) else rest
  }

  /** The later of two times. */
  function Later(a: Stamp, b: Stamp): Stamp {
    if a.None? then b else if b.None? || a.value >= b.value then a else b
  }

  // ---------------------------------------------------------------- the machine

  function HeldFor(held: Option<Held>, now: int): Held {
    if held.Some? then held.value else Held(now, false)
  }

  function LinkBefore(prev: Option<State>, kind: Link): Option<Held> {
    if prev.Some? && prev.value.link.Some? && prev.value.link.value.kind == kind then Some(prev.value.link.value.held)
    else None
  }

  predicate LinkDown(input: Input) {
    input.link.Some? && input.link.value != Open
  }

  function LinkDue(kind: Link, since: int, awakeSince: int): int {
    (if since > awakeSince then since else awakeSince) + if kind == Offline then OFFLINE_SETTLE_MS else 0
  }

  function LinkHeld(look: Look, prev: Option<State>, input: Input): Held
    requires LinkDown(input)
  {
    HeldFor(LinkBefore(prev, input.link.value), look.now)
  }

  function NextLink(look: Look, prev: Option<State>, input: Input, awakeSince: int): Option<HeldLink> {
    if !LinkDown(input) then None
    else
      var held := LinkHeld(look, prev, input);
      var due := LinkDue(input.link.value, held.since, awakeSince);
      Some(HeldLink(input.link.value,
                    if !held.notified && look.now >= due && Settles(look, Machine) then held.(notified := true)
                    else held))
  }

  function LinkNotes(look: Look, prev: Option<State>, input: Input, awakeSince: int): seq<Note> {
    if !LinkDown(input) then []
    else
      var held := LinkHeld(look, prev, input);
      Say(!held.notified && look.now >= LinkDue(input.link.value, held.since, awakeSince) && Loud(look, Machine),
          Note(AboutLink, Machine, ToMachine))
  }

  function LinkWakes(look: Look, prev: Option<State>, input: Input, awakeSince: int): seq<int> {
    if !LinkDown(input) then []
    else
      var held := LinkHeld(look, prev, input);
      WakeAt(!held.notified, LinkDue(input.link.value, held.since, awakeSince), look.now)
  }

  function Lowest(volumes: seq<int>): Stamp {
    Earliest(volumes)
  }

  function DiskBefore(prev: Option<State>): Option<Held> {
    if prev.Some? then prev.value.disk else None
  }

  /** Whether a known volume is under the threshold: the critical one, or the recovery one once an episode has begun. */
  predicate DiskLow(prev: Option<State>, input: Input) {
    && input.volumes.Some? && Lowest(input.volumes.value).Some?
    && Lowest(input.volumes.value).value < if DiskBefore(prev).Some? then DISK_RECOVERED_BYTES else DISK_CRITICAL_BYTES
  }

  function NextDisk(look: Look, prev: Option<State>, input: Input): Option<Held> {
    if input.volumes.None? then DiskBefore(prev)
    else if !DiskLow(prev, input) then None
    else
      var held := HeldFor(DiskBefore(prev), look.now);
      Some(if !held.notified && Settles(look, Machine) then held.(notified := true) else held)
  }

  function DiskNotes(look: Look, prev: Option<State>, input: Input): seq<Note> {
    Say(DiskLow(prev, input) && !HeldFor(DiskBefore(prev), look.now).notified && Loud(look, Machine),
        Note(AboutDisk, Machine, ToMachine))
  }

  function MemoryBefore(prev: Option<State>): Option<Held> {
    if prev.Some? then prev.value.memory else None
  }

  predicate MemoryKnown(prev: Option<State>) {
    prev.Some? && prev.value.memoryKnown
  }

  /** The episode before the rule runs: the first reading ever counts as notified. */
  function MemoryHeld(look: Look, prev: Option<State>): Held {
    var held := HeldFor(MemoryBefore(prev), look.now);
    if MemoryKnown(prev) then held else held.(notified := true)
  }

  predicate MemoryDue(look: Look, prev: Option<State>) {
    look.baseline || look.now >= MemoryHeld(look, prev).since + MEMORY_SETTLE_MS
  }

  function NextMemory(look: Look, prev: Option<State>, input: Input): Option<Held> {
    if input.memoryPressure == Some(Critical) then
      var held := MemoryHeld(look, prev);
      Some(if !held.notified && MemoryDue(look, prev) && Settles(look, Machine) then held.(notified := true) else held)
    else if input.memoryPressure.None? then MemoryBefore(prev)
    else None
  }

  function MemoryNotes(look: Look, prev: Option<State>, input: Input): seq<Note> {
    Say(input.memoryPressure == Some(Critical) && !MemoryHeld(look, prev).notified && MemoryDue(look, prev)
        && Loud(look, Machine),
        Note(AboutMemory, Machine, ToMachine))
  }

  function MemoryWakes(look: Look, prev: Option<State>, input: Input): seq<int> {
    WakeAt(input.memoryPressure == Some(Critical) && !MemoryHeld(look, prev).notified && !look.baseline,
           MemoryHeld(look, prev).since + MEMORY_SETTLE_MS, look.now)
  }

  // ---------------------------------------------------------------- what a workspace shows

  /** Driven, and not by a person through a lease stim-server holds. */
  predicate AgentDriven(d: Device, ownLeases: seq<string>) {
    && d.activity.Some? && d.activity.value.driven
    && !(d.activity.value.driver.Some? && d.activity.value.driver.value.tool == "stim device lock"
         && d.activity.value.driver.value.since.Some? && d.activity.value.driver.value.since.value != ""
         && d.activity.value.driver.value.since.value in ownLeases)
  }

  /** The first device an agent drives. */
  function FirstDriven(devices: seq<Device>, ownLeases: seq<string>): Option<Device> {
    if devices == [] then None
    else if AgentDriven(devices[0], ownLeases) then Some(devices[0])
    else FirstDriven(devices[1..], ownLeases)
  }

  function FirstRunning(devices: seq<Device>): Option<Device> {
    if devices == [] then None else if devices[0].running then Some(devices[0]) else FirstRunning(devices[1..])
  }

  predicate Idle(env: Env) {
    !env.live && (env.phase == NoPhase || env.phase == IdlePhase)
  }

  predicate Building(env: Env) {
    env.build.Some? && env.build.value.running
  }

  function NewestBuild(env: Env): Option<Build> {
    if env.lastIos.None? then env.lastAndroid
    else if env.lastAndroid.Some? && env.lastAndroid.value.startedAt.Some? && env.lastIos.value.startedAt.Some?
            && env.lastAndroid.value.startedAt.value > env.lastIos.value.startedAt.value then env.lastAndroid
    else env.lastIos
  }

  predicate Green(env: Env) {
    NewestBuild(env).Some? && NewestBuild(env).value.status == "ok"
  }

  /** The last work seen on a device: app log records do not count, but an agent-driven page's log does. */
  function DeviceActivity(d: Device): Stamp {
    if d.activity.None? then None
    else
      var a := d.activity.value;
      Later(if a.driver.Some? then a.driver.value.sinceAt else None,
            if a.recent.None? then a.lastActivityAt
            else Later(Later(a.recent.value.agentAction, a.recent.value.metroBundle),
                       Later(a.recent.value.workspaceUse,
                             if d.platform == Chrome && a.driven then a.recent.value.pageLog else None)))
  }

  function DevicesActivity(devices: seq<Device>): Stamp {
    if devices == [] then None else Later(DeviceActivity(devices[0]), DevicesActivity(devices[1..]))
  }

  function BuildActivity(b: Option<Build>): Stamp {
    if b.None? then None
    else Later(b.value.startedAt, if b.value.finishedAt.Some? then b.value.finishedAt.value else None)
  }

  /** The last sign of work a workspace shows. */
  function Shown(env: Env): Stamp {
    Later(DevicesActivity(env.devices),
          Later(Later(BuildActivity(env.lastIos), BuildActivity(env.lastAndroid)),
                if env.build.Some? then env.build.value.startedAt else None))
  }

  /** lastActivityAt: what the workspace shows and what the looks themselves saw. */
  function LastActivity(env: Env, errorsAt: Stamp, drivenAt: Stamp): Stamp {
    Later(Later(errorsAt, drivenAt), Shown(env))
  }

  // ---------------------------------------------------------------- a workspace, rule by rule

  function Fresh(look: Look, env: Env, prev: Option<Entry>): Entry {
    var git := if env.git.Some? then env.git.value else if prev.Some? then prev.value.mergedInto else None;
    if prev.None? then
      Entry(look.now, false, false, None, false, env.errors, None, None, false, false, !Idle(env), [], false, None,
            None, Unlooked, git, false)
    else
      var p := prev.value;
      Entry(look.now, p.warmed, p.drove, p.drivenAt, p.driveNotified, env.errors,
            if p.errors != env.errors then Some(look.now) else p.errorsAt,
            p.stuckAt, p.finished, p.finishedInRun, !Idle(env), [], p.attentionRaised, None, None, p.pr,
            git, p.mergeNotified)
  }

  function Driven(env: Env, input: Input): Option<Device> {
    FirstDriven(env.devices, input.ownLeases)
  }

  /** overseeStart. */
  function AfterStart(look: Look, input: Input, env: Env, e: Entry): Entry {
    var driven := Driven(env, input).Some?;
    e.(warmed := e.warmed || env.phase == Warming,
       drove := e.drove || driven,
       drivenAt := if driven then Some(look.now) else e.drivenAt,
       finished := e.finished && !driven,
       driveNotified := e.driveNotified || driven)
  }

  function StartNotes(look: Look, input: Input, env: Env, e: Entry): seq<Note> {
    var driven := Driven(env, input);
    Say(env.phase == Warming && !e.warmed && Loud(look, Started), Note(AboutWarming, Started, ToWorkspace(env.path)))
    + if driven.None? then []
      else Say(!e.driveNotified && Loud(look, Started),
               Note(AboutDriving, Started, ToDevice(env.path, driven.value.platform, driven.value.slot)))
  }

  function QuietSince(input: Input, env: Env, e: Entry): Stamp {
    LastActivity(env, e.errorsAt, if Driven(env, input).Some? then None else e.drivenAt)
  }

  /** overseeProgress, its first half: a run that may count as finished. */
  predicate ReleasedGreen(input: Input, env: Env) {
    Driven(env, input).None? && Green(env)
  }

  predicate MayFinish(input: Input, env: Env, e: Entry) {
    e.drove && ReleasedGreen(input, env) && !Building(env) && QuietSince(input, env, e).Some? && !e.finished
  }

  predicate Finishes(look: Look, input: Input, env: Env, e: Entry) {
    MayFinish(input, env, e) && (Idle(env) || look.now >= QuietSince(input, env, e).value + FINISH_SETTLE_MS)
  }

  function AfterFinish(look: Look, input: Input, env: Env, e: Entry): Entry {
    var done, idle := e.finished || Finishes(look, input, env, e), Idle(env);
    e.(drove := e.drove && !idle && !done,
       driveNotified := e.driveNotified && !idle && !done,
       warmed := e.warmed && !idle,
       finished := done && !idle,
       finishedInRun := (e.finishedInRun || Finishes(look, input, env, e)) && !idle)
  }

  function FinishNotes(look: Look, input: Input, env: Env, e: Entry): seq<Note> {
    Say(Finishes(look, input, env, e) && !e.finishedInRun && Loud(look, Finished),
        Note(AboutStopped, Finished, ToWorkspace(env.path)))
  }

  function FinishWakes(look: Look, input: Input, env: Env, e: Entry): seq<int> {
    if MayFinish(input, env, e) && !Idle(env)
    then WakeAt(true, QuietSince(input, env, e).value + FINISH_SETTLE_MS, look.now) else []
  }

  /** A stuck episode ends with the first activity after it. */
  function StuckStill(since: Stamp, e: Entry): Stamp {
    if e.stuckAt.Some? && since.Some? && since.value > e.stuckAt.value then None else e.stuckAt
  }

  function StuckDevice(input: Input, env: Env): Option<Device> {
    if Driven(env, input).Some? then Driven(env, input) else FirstRunning(env.devices)
  }

  /** overseeProgress, its second half: `e` is the entry after the first. */
  predicate MayBeStuck(input: Input, env: Env, since: Stamp, e: Entry) {
    && e.drove && StuckDevice(input, env).Some? && StuckDevice(input, env).value.running && !Building(env)
    && since.Some? && !ReleasedGreen(input, env) && StuckStill(since, e).None?
  }

  function StuckDue(look: Look, since: int): int {
    since + look.prefs.stuckMinutes * 60_000
  }

  function AfterStuck(look: Look, input: Input, env: Env, since: Stamp, e: Entry): Entry {
    e.(stuckAt := if MayBeStuck(input, env, since, e) && look.now >= StuckDue(look, since.value) && Settles(look, Stuck)
                  then since else StuckStill(since, e))
  }

  function StuckNotes(look: Look, input: Input, env: Env, since: Stamp, e: Entry): seq<Note> {
    if MayBeStuck(input, env, since, e) then
      var d := StuckDevice(input, env).value;
      Say(look.now >= StuckDue(look, since.value) && Loud(look, Stuck),
          Note(AboutStuck, Stuck, ToDevice(env.path, d.platform, d.slot)))
    else []
  }

  function StuckWakes(look: Look, input: Input, env: Env, since: Stamp, e: Entry): seq<int> {
    if MayBeStuck(input, env, since, e) then WakeAt(true, StuckDue(look, since.value), look.now) else []
  }

  // ---------------------------------------------------------------- failing builds in a row

  predicate Failed(b: Build) {
    (if b.result.Some? then b.result.value else b.status) == "failed"
  }

  function Decimal(n: int): string
    decreases if n < 0 then 1 - n else n
  {
    if n < 0 then "-" + Decimal(-n)
    else if n < 10 then ["0123456789"[n]]
    else Decimal(n / 10) + ["0123456789"[n % 10]]
  }

  function Located(ds: seq<Diagnostic>): Option<Diagnostic> {
    if ds == [] then None
    else if ds[0].file.Some? && ds[0].file.value != "" && ds[0].line.Some? then Some(ds[0])
    else Located(ds[1..])
  }

  /** The cause of a failure: where it was first located, else its error code. */
  function Cause(b: Build): string {
    var at := Located(b.diagnostics);
    if at.Some? && at.value.file.Some? && at.value.line.Some?
    then at.value.file.value + ":" + Decimal(at.value.line.value)
    else if b.errorCode.Some? then b.errorCode.value
    else "failed"
  }

  function StreakOf(history: seq<Build>, cause: string): nat {
    if history == [] || !Failed(history[0]) || Cause(history[0]) != cause then 0 else 1 + StreakOf(history[1..], cause)
  }

  datatype Streak = Streak(signature: string, count: nat)

  /** failureStreak. */
  function FailureStreak(history: seq<Build>): Option<Streak> {
    if history == [] || !Failed(history[0]) then None
    else Some(Streak(Cause(history[0]), StreakOf(history, Cause(history[0]))))
  }

  function History(env: Env, p: Platform): seq<Build> {
    if p == Ios then env.iosBuilds else env.androidBuilds
  }

  function LoopOf(e: Option<Entry>, p: Platform): Option<Loop> {
    if e.None? then None else if p == Ios then e.value.iosLoop else e.value.androidLoop
  }

  /** overseeLoops before it notifies: the loop carried on, or a new one. */
  function LoopHeld(env: Env, prev: Option<Entry>, p: Platform): Option<Loop> {
    var streak := FailureStreak(History(env, p));
    if streak.None? then None
    else
      var before := LoopOf(prev, p);
      if before.Some? && before.value.signature == streak.value.signature && streak.value.count >= LOOP_COUNT
      then before
      else Some(Loop(streak.value.signature, false))
  }

  predicate Loops(env: Env, p: Platform) {
    FailureStreak(History(env, p)).Some? && FailureStreak(History(env, p)).value.count >= LOOP_COUNT
  }

  function NextLoop(look: Look, env: Env, prev: Option<Entry>, p: Platform): Option<Loop> {
    var held := LoopHeld(env, prev, p);
    if held.Some? && Loops(env, p) && !held.value.notified && Settles(look, Looping)
    then Some(held.value.(notified := true)) else held
  }

  function LoopNotes(look: Look, env: Env, prev: Option<Entry>, p: Platform): seq<Note> {
    var held := LoopHeld(env, prev, p);
    Say(held.Some? && Loops(env, p) && !held.value.notified && Loud(look, Looping),
        Note(AboutLoop(p), Looping, ToBuild(env.path, p)))
  }

  function AfterLoops(look: Look, env: Env, prev: Option<Entry>, e: Entry): Entry {
    e.(iosLoop := NextLoop(look, env, prev, Ios), androidLoop := NextLoop(look, env, prev, Android))
  }

  // ---------------------------------------------------------------- pull requests and merges

  function Seen(pr: Option<PullRequest>): Known {
    if pr.None? then NoPr
    else Pr(pr.value.number, pr.value.state == OpenPr && !pr.value.draft, pr.value.state == MergedPr)
  }

  function SeenPr(input: Input, env: Env, e: Entry): Known {
    if env.path in input.pullRequests then Seen(input.pullRequests[env.path]) else e.pr
  }

  /** The pull request is looked up, was looked up before, and is there. */
  predicate PrNews(input: Input, env: Env, e: Entry) {
    env.path in input.pullRequests && input.pullRequests[env.path].Some? && e.pr != Unlooked
  }

  predicate PrReady(input: Input, env: Env, e: Entry) {
    && PrNews(input, env, e)
    && var now := Seen(input.pullRequests[env.path]);
       now.ready && !(e.pr.Pr? && e.pr.number == now.number && e.pr.ready)
  }

  predicate PrMerged(input: Input, env: Env, e: Entry) {
    && PrNews(input, env, e) && !e.mergeNotified
    && var now := Seen(input.pullRequests[env.path]);
       now.merged && !(e.pr.Pr? && e.pr.number == now.number && e.pr.merged)
  }

  /** A pull request already merged when it is first looked up. */
  predicate FoundMerged(input: Input, env: Env, e: Entry) {
    env.path in input.pullRequests && Seen(input.pullRequests[env.path]).Pr?
    && Seen(input.pullRequests[env.path]).merged && e.pr == Unlooked
  }

  function MergeTold(input: Input, env: Env, e: Entry): bool {
    e.mergeNotified || PrMerged(input, env, e) || FoundMerged(input, env, e)
  }

  /** Without GitHub: git finds the branch merged, did not at the last look, and no merge was told. */
  predicate BranchMerged(prev: Option<Entry>, e: Entry) {
    prev.Some? && e.mergedInto.Some? && prev.value.mergedInto.None? && !e.mergeNotified
  }

  function BranchTold(env: Env, prev: Option<Entry>, e: Entry): bool {
    if prev.None? then e.mergeNotified || e.mergedInto.Some?
    else if e.mergedInto.None? then e.mergeNotified && !(env.git.Some? && !(e.pr.Pr? && e.pr.merged))
    else e.mergeNotified || prev.value.mergedInto.None?
  }

  function AfterPr(input: Input, env: Env, e: Entry): Entry {
    e.(pr := SeenPr(input, env, e), mergeNotified := MergeTold(input, env, e))
  }

  /** overseeMerge: first the pull request, then the branch. */
  function AfterMerge(input: Input, env: Env, prev: Option<Entry>, e: Entry): Entry {
    e.(pr := SeenPr(input, env, e), mergeNotified := BranchTold(env, prev, AfterPr(input, env, e)))
  }

  function PrNotes(look: Look, input: Input, env: Env, e: Entry): seq<Note> {
    if PrNews(input, env, e) then
      var n := input.pullRequests[env.path].value.number;
      Say(PrReady(input, env, e) && Loud(look, Finished), Note(AboutPrReady(n), Finished, ToPr(env.path)))
      + Say(PrMerged(input, env, e) && Loud(look, Finished), Note(AboutPrMerged(n), Finished, ToPr(env.path)))
    else []
  }

  function MergeNotes(look: Look, input: Input, env: Env, prev: Option<Entry>, e: Entry): seq<Note> {
    PrNotes(look, input, env, e)
    + Say(BranchMerged(prev, AfterPr(input, env, e)) && Loud(look, Finished),
          Note(AboutMerged, Finished, ToWorkspace(env.path)))
  }

  // ---------------------------------------------------------------- what needs a person

  const PERSON_ISSUES: set<string> := {"port-not-ours", "supervisor-unverified", "browser-unverified", "avd-unchecked"}
  const SIGNING_CODES: set<string> := {"STIM_NO_SIGNING_IDENTITY", "STIM_CODESIGN_FAILED", "STIM_NO_PROFILE",
                                       "STIM_PROFILE_MISMATCH"}

  function IssueItems(issues: seq<Issue>): seq<ItemId> {
    if issues == [] then []
    else (if issues[0].severity != Info && issues[0].code in PERSON_ISSUES
          then [IssueItem(issues[0].code, if issues[0].slot.Some? then issues[0].slot.value else "default")] else [])
         + IssueItems(issues[1..])
  }

  predicate IsRecent(env: Env, at: Stamp, now: int) {
    env.live || (at.Some? && now - at.value < STALE_MS)
  }

  function LastBuild(env: Env, p: Platform): Option<Build> {
    if p == Ios then env.lastIos else env.lastAndroid
  }

  /** A failed signing that no running build may repair and that is not yet a loop. */
  predicate SigningFailed(env: Env, p: Platform, now: int) {
    var last := LastBuild(env, p);
    && last.Some? && last.value.status == "failed"
    && !(Building(env) && env.build.value.platform == Some(p))
    && last.value.errorCode.Some? && last.value.errorCode.value in SIGNING_CODES
    && IsRecent(env, if last.value.finishedAt.Some? then last.value.finishedAt.value else last.value.startedAt, now)
    && !Loops(env, p)
  }

  function RunItems(env: Env, p: Platform, now: int): seq<ItemId> {
    if SigningFailed(env, p, now) then [RunItem(p)] else []
  }

  function LeaseItems(ds: seq<Leased>, now: int): seq<ItemId> {
    if ds == [] then []
    else (if ds[0].expiresAt.Some? && ds[0].expiresAt.value <= now then [LeaseItem(ds[0].platform, ds[0].slot)] else [])
         + LeaseItems(ds[1..], now)
  }

  function LeaseWakes(ds: seq<Leased>, now: int): seq<int> {
    if ds == [] then []
    else (if ds[0].expiresAt.Some? then WakeAt(true, ds[0].expiresAt.value, now) else []) + LeaseWakes(ds[1..], now)
  }

  function EasDue(s: Session): Stamp {
    if s.startedAt.None? then None else Some(s.startedAt.value + EAS_SESSION_MINUTES * 60_000)
  }

  function EasItems(ss: seq<Session>, now: int): seq<ItemId> {
    if ss == [] then []
    else (if EasDue(ss[0]).Some? && EasDue(ss[0]).value <= now then [EasItem(ss[0].sessionId)] else [])
         + EasItems(ss[1..], now)
  }

  function EasWakes(ss: seq<Session>, now: int): seq<int> {
    if ss == [] then []
    else (if EasDue(ss[0]).Some? then WakeAt(true, EasDue(ss[0]).value, now) else []) + EasWakes(ss[1..], now)
  }

  predicate RunningDriven(devices: seq<Device>, ownLeases: seq<string>) {
    devices != [] && ((devices[0].running && AgentDriven(devices[0], ownLeases))
                      || RunningDriven(devices[1..], ownLeases))
  }

  /** The items of workspaceAttention that overseeAttention keeps, in their order. */
  function Pending(input: Input, env: Env, now: int): seq<ItemId> {
    IssueItems(env.issues) + RunItems(env, Ios, now) + RunItems(env, Android, now)
    + LeaseItems(env.physicalDevices, now)
    + if RunningDriven(env.devices, input.ownLeases) then [] else EasItems(env.remoteDevices, now)
  }

  function ItemWakes(input: Input, env: Env, now: int): seq<int> {
    LeaseWakes(env.physicalDevices, now) + if RunningDriven(env.devices, input.ownLeases) then []
                                           else EasWakes(env.remoteDevices, now)
  }

  function ItemTarget(env: Env, item: ItemId): Target {
    if item.RunItem? then ToBuild(env.path, item.platform) else ToWorkspace(env.path)
  }

  /** Whether an item is taken note of: it was before, the allowance is spent, or it is settled now. */
  predicate ItemKept(look: Look, before: seq<ItemId>, item: ItemId, raised: bool) {
    item in before || raised || Settles(look, Attention)
  }

  predicate ItemSaid(look: Look, before: seq<ItemId>, item: ItemId, raised: bool) {
    item !in before && !raised && Loud(look, Attention)
  }

  datatype Raising = Raising(kept: seq<ItemId>, raised: bool, notes: seq<Note>)

  /** The loop over pending items. */
  function RaiseItems(look: Look, env: Env, before: seq<ItemId>, items: seq<ItemId>, raised: bool): Raising
    decreases |items|
  {
    if items == [] then Raising([], raised, [])
    else
      var item := items[0];
      var said := ItemSaid(look, before, item, raised);
      var rest := RaiseItems(look, env, before, items[1..], raised || said);
      Raising((if ItemKept(look, before, item, raised) then [item] else []) + rest.kept, rest.raised,
              Say(said, Note(AboutItem(item), Attention, ItemTarget(env, item))) + rest.notes)
  }

  /** The allowance starts over when nothing is pending or the workspace stops being idle. */
  predicate AllowanceReturns(input: Input, env: Env, now: int, prev: Option<Entry>) {
    Pending(input, env, now) == [] || (!Idle(env) && !(prev.Some? && prev.value.running))
  }

  function ItemsBefore(prev: Option<Entry>): seq<ItemId> {
    if prev.Some? then prev.value.attention else []
  }

  function Raise(look: Look, input: Input, env: Env, prev: Option<Entry>, raised: bool): Raising {
    RaiseItems(look, env, ItemsBefore(prev), Pending(input, env, look.now),
               raised && !AllowanceReturns(input, env, look.now, prev))
  }

  /** overseeAttention. */
  function AfterAttention(look: Look, input: Input, env: Env, prev: Option<Entry>, e: Entry): Entry {
    var r := Raise(look, input, env, prev, e.attentionRaised);
    e.(attention := r.kept, attentionRaised := r.raised)
  }

  // ---------------------------------------------------------------- a workspace, and a look

  /** The entry at each point of overseeWorkspace. */
  function Entry1(look: Look, input: Input, env: Env, prev: Option<Entry>): Entry {
    AfterStart(look, input, env, Fresh(look, env, prev))
  }

  function Entry2(look: Look, input: Input, env: Env, prev: Option<Entry>): Entry {
    AfterFinish(look, input, env, Entry1(look, input, env, prev))
  }

  function Since(look: Look, input: Input, env: Env, prev: Option<Entry>): Stamp {
    QuietSince(input, env, Entry1(look, input, env, prev))
  }

  function Entry3(look: Look, input: Input, env: Env, prev: Option<Entry>): Entry {
    AfterStuck(look, input, env, Since(look, input, env, prev), Entry2(look, input, env, prev))
  }

  function Entry4(look: Look, input: Input, env: Env, prev: Option<Entry>): Entry {
    AfterLoops(look, env, prev, Entry3(look, input, env, prev))
  }

  function Entry5(look: Look, input: Input, env: Env, prev: Option<Entry>): Entry {
    AfterMerge(input, env, prev, Entry4(look, input, env, prev))
  }

  function NextEntry(look: Look, input: Input, env: Env, prev: Option<Entry>): Entry {
    AfterAttention(look, input, env, prev, Entry5(look, input, env, prev))
  }

  function WorkspaceNotes(look: Look, input: Input, env: Env, prev: Option<Entry>): seq<Note> {
    StartNotes(look, input, env, Fresh(look, env, prev))
    + FinishNotes(look, input, env, Entry1(look, input, env, prev))
    + StuckNotes(look, input, env, Since(look, input, env, prev), Entry2(look, input, env, prev))
    + (LoopNotes(look, env, prev, Ios) + LoopNotes(look, env, prev, Android))
    + MergeNotes(look, input, env, prev, Entry4(look, input, env, prev))
    + Raise(look, input, env, prev, Entry5(look, input, env, prev).attentionRaised).notes
  }

  function WorkspaceWakes(look: Look, input: Input, env: Env, prev: Option<Entry>): seq<int> {
    FinishWakes(look, input, env, Entry1(look, input, env, prev))
    + StuckWakes(look, input, env, Since(look, input, env, prev), Entry2(look, input, env, prev))
    + ItemWakes(input, env, look.now)
  }

  function Before(prev: Option<State>, path: string): Option<Entry> {
    if prev.Some? && path in prev.value.workspaces then Some(prev.value.workspaces[path]) else None
  }

  /** One workspace after another. */
  function Gather<T>(f: Env -> seq<T>, envs: seq<Env>): seq<T> {
    if envs == [] then [] else f(envs[0]) + Gather(f, envs[1..])
  }

  /** The entries of the listed workspaces; of two with one path the later stays. */
  function Collect(f: Env -> Entry, envs: seq<Env>): map<string, Entry> {
    if envs == [] then map[]
    else Collect(f, envs[..|envs| - 1])[envs[|envs| - 1].path := f(envs[|envs| - 1])]
  }

  function NotesOn(look: Look, input: Input, prev: Option<State>): Env -> seq<Note> {
    (env: Env) => WorkspaceNotes(look, input, env, Before(prev, env.path))
  }

  function WakesOn(look: Look, input: Input, prev: Option<State>): Env -> seq<int> {
    (env: Env) => WorkspaceWakes(look, input, env, Before(prev, env.path))
  }

  function EntryOn(look: Look, input: Input, prev: Option<State>): Env -> Entry {
    (env: Env) => NextEntry(look, input, env, Before(prev, env.path))
  }

  function Workspaces(prev: Option<State>): map<string, Entry> {
    if prev.Some? then prev.value.workspaces else map[]
  }

  /** Entries of absent workspaces, until they are forgotten. */
  function Remembered(prev: Option<State>, now: int): map<string, Entry> {
    map p | p in Workspaces(prev) && now - Workspaces(prev)[p].seenAt < FORGET_MS :: Workspaces(prev)[p]
  }

  function NextWorkspaces(look: Look, input: Input, prev: Option<State>): map<string, Entry> {
    if input.status.None? then Workspaces(prev)
    else Remembered(prev, look.now) + Collect(EntryOn(look, input, prev), input.status.value)
  }

  function Envs(input: Input): seq<Env> {
    if input.status.None? then [] else input.status.value
  }

  function MachineNotes(look: Look, input: Input, prev: Option<State>, awakeSince: int): seq<Note> {
    LinkNotes(look, prev, input, awakeSince) + DiskNotes(look, prev, input) + MemoryNotes(look, prev, input)
  }

  function MachineWakes(look: Look, input: Input, prev: Option<State>, awakeSince: int): seq<int> {
    LinkWakes(look, prev, input, awakeSince) + MemoryWakes(look, prev, input)
  }

  datatype Result = Result(state: State, notes: seq<Note>, wakeAt: Stamp)

  function LookAt(prev: Option<State>, prefs: Prefs, now: int): Look {
    Look(prefs, now, prev.None?)
  }

  function NextState(look: Look, input: Input, prev: Option<State>, awakeSince: int): State {
    State(NextWorkspaces(look, input, prev), NextDisk(look, prev, input), NextMemory(look, prev, input),
          input.memoryPressure.Some? || MemoryKnown(prev), NextLink(look, prev, input, awakeSince))
  }

  function Notes(look: Look, input: Input, prev: Option<State>, awakeSince: int): seq<Note> {
    MachineNotes(look, input, prev, awakeSince) + Gather(NotesOn(look, input, prev), Envs(input))
  }

  function Wakes(look: Look, input: Input, prev: Option<State>, awakeSince: int): seq<int> {
    MachineWakes(look, input, prev, awakeSince) + Gather(WakesOn(look, input, prev), Envs(input))
  }

  /** oversee. */
  function Oversee(prev: Option<State>, input: Input, prefs: Prefs, now: int, awakeSince: int): Result {
    var look := LookAt(prev, prefs, now);
    Result(NextState(look, input, prev, awakeSince), Notes(look, input, prev, awakeSince),
           Earliest(Wakes(look, input, prev, awakeSince)))
  }
}
