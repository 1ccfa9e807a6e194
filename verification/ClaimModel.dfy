/**
 The claim set of packages/core/ownership-claim.ts as a transition system.

 Any number of threads run in any number of processes. One action is one filesystem call or one
 liveness question of one thread, the start of a thread, or the death of a process, so a list of
 actions is one interleaving and every interleaving is a list of actions. An action that is not
 possible leaves the state as it is.
 */
module ClaimModel {

  type Proc = nat

  datatype Mode = Exclusive | Shared

  /**
   A claim id. The source draws a random UUID for every attempt; naming the thread and its attempt is
   fresh by construction.
   */
  datatype Id = Id(t: nat, n: nat)

  /** The content of a `.child` file: declared before the spawn, or the recorded process. */
  datatype Child = Declared | Recorded(p: Proc)

  /** `exclusive/` or `shared/`: its `.claim` and `.child` files by claim id. */
  datatype Dir = Absent | Present(claims: set<Id>, children: map<Id, Child>)

  /** A `.staging-<id>` entry: a directory with or without its record (exclusive), or a file (shared). */
  datatype Staged = StagedDir(record: bool) | StagedFile

  /** Where an inspection stands, one constructor per filesystem call or liveness question. */
  datatype At =
    | AtRoot
    | AtList(d: Mode)
    | AtNext(d: Mode)
    | AtOwner(d: Mode, c: Id)
    | AtChild(d: Mode, c: Id)
    | AtGroup(d: Mode, c: Id, k: Proc)
    | AtOrphans
    | AtReap
    | AtUnlinkChild(c: Id)
    | AtUnlinkClaim(c: Id)
    | AtTidyExclusive
    | AtTidyShared

  datatype Survey = Survey(at: At, todo: set<Id>, live: set<Id>, dead: set<Id>, orphans: set<Id>)

  /** Which call of the inspection this is. */
  datatype Why = First | Settling | Resettling | Last

  datatype ReleaseAt = RelRead | RelChild | RelClaim | RelTidyDir | RelTidyRoot | RelTidySet(left: nat)

  datatype Outcome = Held | Failed | Released

  datatype PC =
    | MakeRoot
    | Inspect(why: Why, survey: Survey)
    | StageDir
    | StageRecord
    | RenameDir
    | MakeShared
    | StageFile
    | RenameFile
    | Unstage
    | Pending
    | Acquired
    | Rewriting
    | ClearList
    | Clearing(victims: set<Id>)
    | ClearUnlinked(rest: set<Id>, victim: Id)
    | Release(rel: ReleaseAt, out: Outcome)
    | Done(outcome: Outcome)

  /** One call of tryAcquireClaim and the life of its handle; `clear` is the call clearFreeClaimSet makes. */
  datatype Thread = Thread(proc: Proc, mode: Mode, clear: bool, n: nat, pc: PC)

  /** The claim store: whether its root exists, its two directories and its staging entries. */
  datatype Fs = Fs(root: bool, excl: Dir, shar: Dir, staging: map<Id, Staged>)

  /**
   `gone` is the set of processes (for a recorded child: the process and its whole group) that have
   died. `hollow` records the claims whose rename put a staging directory without its record in place.
   */
  datatype State = State(fs: Fs, gone: set<Proc>, hollow: set<Id>, threads: seq<Thread>)

  /** The outcome of one call of a thread: the filesystem after it, and where the thread goes on. */
  datatype Call = Call(fs: Fs, n: nat, pc: PC)

  /**
   What the environment decides: directory order, unreadable answers, recycled group ids, and what a
   holder does next.
   */
  datatype Choice =
    | Go
    | Refuse
    | Take(c: Id)
    | Skip(c: Id)
    | Recycled
    | Contended
    | Settle
    | GiveUp
    | DeclareChild
    | RecordChild(k: Proc)
    | ClearChild
    | Rewrite

  datatype Action =
    | Spawn(proc: Proc, mode: Mode)
    | SpawnClear(proc: Proc)
    | Die(proc: Proc)
    | Move(t: nat, choice: Choice)

  const PUBLISH_ATTEMPTS: nat := 64

  const Init := State(Fs(false, Absent, Absent, map[]), {}, {}, [])

  const NewSurvey := Survey(AtRoot, {}, {}, {}, {})

  // ---------------------------------------------------------------- directories

  function DirOf(f: Fs, m: Mode): Dir {
    if m == Exclusive then f.excl else f.shar
  }

  function WithDir(f: Fs, m: Mode, d: Dir): Fs {
    if m == Exclusive then f.(excl := d) else f.(shar := d)
  }

  function Claims(f: Fs, m: Mode): set<Id> {
    if DirOf(f, m).Present? then DirOf(f, m).claims else {}
  }

  function Children(f: Fs, m: Mode): map<Id, Child> {
    if DirOf(f, m).Present? then DirOf(f, m).children else map[]
  }

  predicate EmptyDir(d: Dir) {
    d.Present? && d.claims == {} && d.children == map[]
  }

  /** rmdir: succeeds only on an empty directory, and every caller ignores its failure. */
  function Tidy(f: Fs, m: Mode): Fs {
    if EmptyDir(DirOf(f, m)) then WithDir(f, m, Absent) else f
  }

  function TidyRoot(f: Fs): Fs {
    if f.excl.Absent? && f.shar.Absent? && f.staging == map[] then f.(root := false) else f
  }

  function UnlinkChild(f: Fs, m: Mode, c: Id): Fs {
    if DirOf(f, m).Present? then WithDir(f, m, DirOf(f, m).(children := DirOf(f, m).children - {c})) else f
  }

  function UnlinkClaim(f: Fs, m: Mode, c: Id): Fs {
    if DirOf(f, m).Present? then WithDir(f, m, DirOf(f, m).(claims := DirOf(f, m).claims - {c})) else f
  }

  /** writeChild: the rename lands only while the claim's directory exists. */
  function WriteChild(f: Fs, m: Mode, c: Id, body: Child): Fs {
    if DirOf(f, m).Present? then WithDir(f, m, DirOf(f, m).(children := DirOf(f, m).children[c := body])) else f
  }

  function AddClaim(f: Fs, m: Mode, c: Id): Fs {
    if DirOf(f, m).Present? then WithDir(f, m, DirOf(f, m).(claims := DirOf(f, m).claims + {c})) else f
  }

  function Unstaged(f: Fs, c: Id): Fs {
    f.(staging := f.staging - {c})
  }

  // ---------------------------------------------------------------- threads

  function Cur(s: State, t: nat): Id
    requires t < |s.threads|
  {
    Id(t, s.threads[t].n)
  }

  /** The state after thread `t` made a call; its process, mode and purpose never change. */
  function After(s: State, t: nat, r: Call): State
    requires t < |s.threads|
  {
    s.(fs := r.fs, threads := s.threads[t := s.threads[t].(n := r.n, pc := r.pc)])
  }

  function Goto(s: State, t: nat, pc: PC): State
    requires t < |s.threads|
  {
    After(s, t, Call(s.fs, s.threads[t].n, pc))
  }

  function ModeOf(s: State, c: Id): Mode
    requires c.t < |s.threads|
  {
    s.threads[c.t].mode
  }

  function OfMode(s: State, ids: set<Id>, m: Mode): set<Id> {
    set c <- ids | c.t < |s.threads| && ModeOf(s, c) == m
  }

  /** A contended publication gives up this id; after the last attempt the set is inspected once more. */
  function Retry(f: Fs, n: nat): Call {
    Call(f, n + 1, if n + 1 < PUBLISH_ATTEMPTS then MakeRoot else Inspect(Last, NewSurvey))
  }

  // ---------------------------------------------------------------- inspectClaimSet

  /** What tryAcquireClaim or settleClaim does with a finished inspection. */
  function Conclude(s: State, mode: Mode, why: Why, live: set<Id>): PC {
    match why
    case First =>
      if OfMode(s, live, Exclusive) != {} then Done(Held)
      else if mode == Shared then MakeShared
      else StageDir
    case Settling =>
      if mode == Shared then
        if OfMode(s, live, Exclusive) == {} then Acquired else Release(RelRead, Held)
      else if OfMode(s, live, Shared) == {} then Acquired else Pending
    case Resettling =>
      if OfMode(s, live, Shared) == {} then Acquired else Pending
    case Last =>
      if OfMode(s, live, Exclusive) != {} || (mode == Exclusive && OfMode(s, live, Shared) != {})
      then Done(Held) else Done(Failed)
  }

  /**
   A refusal before publication throws; after it the claim is released first; settleClaim leaves the
   pending claim.
   */
  function Refused(why: Why): PC {
    match why
    case First => Done(Failed)
    case Settling => Release(RelRead, Failed)
    case Resettling => Pending
    case Last => Done(Failed)
  }

  /** The reading half of an inspection, which changes nothing: list each directory, and judge each listed claim. */
  function Read(s: State, why: Why, v: Survey, ch: Choice): PC {
    match v.at
    case AtRoot => Inspect(why, v.(at := if s.fs.root then AtList(Exclusive) else AtOrphans))
    case AtList(d) =>
      Inspect(why, v.(at := AtNext(d), todo := Claims(s.fs, d),
                      orphans := v.orphans + (Children(s.fs, d).Keys - Claims(s.fs, d))))
    case AtNext(d) =>
      if v.todo == {} then Inspect(why, v.(at := if d == Exclusive then AtList(Shared) else AtOrphans))
      else if ch.Take? && ch.c in v.todo then
        Inspect(why, v.(todo := v.todo - {ch.c}, at := if ch.c in Claims(s.fs, d) then AtOwner(d, ch.c) else v.at))
      else Inspect(why, v)
    case AtOwner(d, c) =>
      if c.t >= |s.threads| then Inspect(why, v)
      else if s.threads[c.t].proc in s.gone then Inspect(why, v.(at := AtChild(d, c)))
      else Inspect(why, v.(at := AtNext(d), live := v.live + {c}))
    case AtChild(d, c) =>
      if c !in Children(s.fs, d) then Inspect(why, v.(at := AtNext(d), dead := v.dead + {c}))
      else if Children(s.fs, d)[c].Declared? then Refused(why)
      else Inspect(why, v.(at := AtGroup(d, c, Children(s.fs, d)[c].p)))
    case AtGroup(d, c, k) =>
      if k in s.gone && !ch.Recycled? then Inspect(why, v.(at := AtNext(d), dead := v.dead + {c}))
      else Inspect(why, v.(at := AtNext(d), live := v.live + {c}))
    case _ => Inspect(why, v)
  }

  predicate Sweeping(at: At) {
    at.AtOrphans? || at.AtReap? || at.AtUnlinkChild? || at.AtUnlinkClaim? || at.AtTidyExclusive? || at.AtTidyShared?
  }

  /** The removing half: orphans, then the claims judged dead (each read again first), then empty directories. */
  function Sweep(s: State, t: nat, why: Why, v: Survey, ch: Choice): Call
    requires t < |s.threads|
  {
    var th := s.threads[t];
    match v.at
    case AtOrphans =>
      if v.orphans == {} then Call(s.fs, th.n, Inspect(why, v.(at := AtReap)))
      else if ch.Take? && ch.c in v.orphans && ch.c.t < |s.threads| then
        Call(UnlinkChild(s.fs, ModeOf(s, ch.c), ch.c), th.n, Inspect(why, v.(orphans := v.orphans - {ch.c})))
      else Call(s.fs, th.n, th.pc)
    case AtReap =>
      if v.dead == {} then Call(s.fs, th.n, Inspect(why, v.(at := AtTidyExclusive)))
      else if ch.Take? && ch.c in v.dead && ch.c.t < |s.threads| then
        Call(s.fs, th.n, Inspect(why, v.(dead := v.dead - {ch.c},
                                         at := if ch.c in Claims(s.fs, ModeOf(s, ch.c)) then AtUnlinkChild(ch.c)
                                               else AtReap)))
      else if ch.Skip? then Call(s.fs, th.n, Inspect(why, v.(dead := v.dead - {ch.c})))
      else Call(s.fs, th.n, th.pc)
    case AtUnlinkChild(c) =>
      if c.t >= |s.threads| then Call(s.fs, th.n, th.pc)
      else Call(UnlinkChild(s.fs, ModeOf(s, c), c), th.n, Inspect(why, v.(at := AtUnlinkClaim(c))))
    case AtUnlinkClaim(c) =>
      if c.t >= |s.threads| then Call(s.fs, th.n, th.pc)
      else Call(UnlinkClaim(s.fs, ModeOf(s, c), c), th.n, Inspect(why, v.(at := AtReap)))
    case AtTidyExclusive =>
      Call(if OfMode(s, v.live, Exclusive) == {} then Tidy(s.fs, Exclusive) else s.fs, th.n,
           Inspect(why, v.(at := AtTidyShared)))
    case AtTidyShared =>
      Call(if OfMode(s, v.live, Shared) == {} then Tidy(s.fs, Shared) else s.fs, th.n,
           Conclude(s, th.mode, why, v.live))
    case _ => Call(s.fs, th.n, th.pc)
  }

  /** One call of an inspection of thread `t`. */
  function StepSurvey(s: State, t: nat, why: Why, v: Survey, ch: Choice): Call
    requires t < |s.threads|
  {
    if ch.Refuse? then Call(s.fs, s.threads[t].n, Refused(why))
    else if Sweeping(v.at) then Sweep(s, t, why, v, ch)
    else Call(s.fs, s.threads[t].n, Read(s, why, v, ch))
  }

  // ---------------------------------------------------------------- publish, hold, clear, release

  /** createClaimDir, writeFileSync and renameSync of publishExclusive and publishShared. */
  function StepPublish(s: State, t: nat, ch: Choice): Call
    requires t < |s.threads|
  {
    var th, c, f := s.threads[t], Cur(s, t), s.fs;
    if ch.Refuse? then
      if th.pc.MakeRoot? then Call(f, th.n, Done(Failed))
      else if th.pc.Unstage? then Call(Unstaged(f, c), th.n, Done(Failed))
      else Call(f, th.n, Unstage)
    else
    match th.pc
    case MakeRoot => if ch.Contended? then Retry(f, th.n) else Call(f.(root := true), th.n, Inspect(First, NewSurvey))
    case StageDir => Call(f.(root := true, staging := f.staging[c := StagedDir(false)]), th.n, StageRecord)
    case StageRecord =>
      if c in f.staging then Call(f.(staging := f.staging[c := StagedDir(true)]), th.n, RenameDir)
      else Call(f, th.n, Unstage)
    case RenameDir =>
      if Lands(f, c) then
        Call(Unstaged(f, c).(excl := Present(if f.staging[c].record then {c} else {}, map[])), th.n,
             Inspect(Settling, NewSurvey))
      else Call(f, th.n, Unstage)
    case MakeShared =>
      Call(f.(root := true, shar := if f.shar.Absent? then Present({}, map[]) else f.shar), th.n, StageFile)
    case StageFile =>
      if f.root then Call(f.(staging := f.staging[c := StagedFile]), th.n, RenameFile) else Call(f, th.n, Unstage)
    case RenameFile =>
      if c in f.staging && f.shar.Present?
      then Call(AddClaim(Unstaged(f, c), Shared, c), th.n, Inspect(Settling, NewSurvey))
      else Call(f, th.n, Unstage)
    case Unstage => Retry(Unstaged(f, c), th.n)
    case _ => Call(f, th.n, th.pc)
  }

  /** What the holder of a published claim may do: child records, details, settling, clearing, giving it up. */
  function StepHold(s: State, t: nat, ch: Choice): Call
    requires t < |s.threads|
  {
    var th, c, f := s.threads[t], Cur(s, t), s.fs;
    match th.pc
    case Pending =>
      if th.clear then Call(f, th.n, Release(RelRead, Held)) else
      (match ch
       case Settle => Call(f, th.n, Inspect(Resettling, NewSurvey))
       case GiveUp => Call(f, th.n, Release(RelRead, Released))
       case DeclareChild => Call(WriteChild(f, th.mode, c, Declared), th.n, th.pc)
       case RecordChild(k) => Call(WriteChild(f, th.mode, c, Recorded(k)), th.n, th.pc)
       case ClearChild => Call(UnlinkChild(f, th.mode, c), th.n, th.pc)
       case _ => Call(f, th.n, th.pc))
    case Acquired =>
      if th.clear then Call(f, th.n, ClearList) else
      (match ch
       case GiveUp => Call(f, th.n, Release(RelRead, Released))
       case DeclareChild => Call(WriteChild(f, th.mode, c, Declared), th.n, th.pc)
       case RecordChild(k) => Call(WriteChild(f, th.mode, c, Recorded(k)), th.n, th.pc)
       case ClearChild => Call(UnlinkChild(f, th.mode, c), th.n, th.pc)
       case Rewrite => Call(f, th.n, if c in Claims(f, th.mode) then Rewriting else th.pc)
       case _ => Call(f, th.n, th.pc))
    case Rewriting => Call(if ch.Refuse? then f else AddClaim(f, th.mode, c), th.n, Acquired)
    case ClearList => Call(f, th.n, Clearing(if ch.Refuse? then {} else f.staging.Keys))
    case Clearing(victims) =>
      if victims == {} || ch.Refuse? then Call(f, th.n, Release(RelRead, if ch.Refuse? then Failed else Released))
      else if ch.Take? && ch.c in victims then
        Call(f.(staging := if ch.c !in f.staging then f.staging
                           else if f.staging[ch.c].StagedDir? then f.staging[ch.c := StagedDir(false)]
                           else f.staging - {ch.c}),
             th.n, ClearUnlinked(victims - {ch.c}, ch.c))
      else Call(f, th.n, th.pc)
    case ClearUnlinked(rest, victim) =>
      // A removal that throws here leaves the directory without its record.
      if ch.Refuse? then Call(f, th.n, Release(RelRead, Failed))
      else if victim in f.staging && f.staging[victim].StagedDir? && f.staging[victim].record
      then Call(f, th.n, Clearing(rest + {victim}))
      else Call(Unstaged(f, victim), th.n, Clearing(rest))
    case _ => Call(f, th.n, th.pc)
  }

  /** releaseClaim, which stops at an answer it cannot use, and the tidySet that follows it in clearFreeClaimSet. */
  function StepRelease(s: State, t: nat, at: ReleaseAt, out: Outcome, ch: Choice): Call
    requires t < |s.threads|
  {
    var th, c, f := s.threads[t], Cur(s, t), s.fs;
    var over := if th.clear && out.Released? then Release(RelTidySet(3), out) else Done(out);
    match at
    case RelRead => Call(f, th.n, if c in Claims(f, th.mode) && !ch.Refuse? then Release(RelChild, out) else over)
    case RelChild => if ch.Refuse? then Call(f, th.n, over)
                     else Call(UnlinkChild(f, th.mode, c), th.n, Release(RelClaim, out))
    case RelClaim => if ch.Refuse? then Call(f, th.n, over)
                     else Call(UnlinkClaim(f, th.mode, c), th.n, Release(RelTidyDir, out))
    case RelTidyDir => Call(Tidy(f, th.mode), th.n, Release(RelTidyRoot, out))
    case RelTidyRoot => Call(TidyRoot(f), th.n, over)
    case RelTidySet(left) =>
      if left == 0 then Call(f, th.n, Done(out))
      else Call(if left == 3 then Tidy(f, Exclusive) else if left == 2 then Tidy(f, Shared) else TidyRoot(f),
                th.n, Release(RelTidySet(left - 1), out))
  }

  function StepThread(s: State, t: nat, ch: Choice): Call
    requires t < |s.threads|
  {
    match s.threads[t].pc
    case Inspect(why, v) => StepSurvey(s, t, why, v, ch)
    case Release(at, out) => StepRelease(s, t, at, out, ch)
    case MakeRoot | StageDir | StageRecord | RenameDir | MakeShared | StageFile | RenameFile | Unstage =>
      StepPublish(s, t, ch)
    case _ => StepHold(s, t, ch)
  }

  /** The guard of a rename that lands: rename(2) replaces a missing or empty directory and fails on any other. */
  predicate Lands(f: Fs, c: Id) {
    c in f.staging && f.staging[c].StagedDir? && (f.excl.Absent? || EmptyDir(f.excl))
  }

  /** The thread renames into place a staging directory whose record another thread's clearing has unlinked. */
  predicate LandsHollow(s: State, t: nat, ch: Choice)
    requires t < |s.threads|
  {
    s.threads[t].pc.RenameDir? && !ch.Refuse? && Lands(s.fs, Cur(s, t)) && !s.fs.staging[Cur(s, t)].record
  }

  function Step(s: State, a: Action): State {
    match a
    case Spawn(p, m) => s.(threads := s.threads + [Thread(p, m, false, 0, MakeRoot)])
    case SpawnClear(p) => s.(threads := s.threads + [Thread(p, Exclusive, true, 0, MakeRoot)])
    case Die(p) => s.(gone := s.gone + {p})
    case Move(t, ch) =>
      if t < |s.threads| && s.threads[t].proc !in s.gone
      then After(s, t, StepThread(s, t, ch)).(
             hollow := if LandsHollow(s, t, ch) then s.hollow + {Cur(s, t)} else s.hollow)
      else s
  }

  /** The state after a list of actions: one interleaving. */
  function Run(s: State, acts: seq<Action>): State
    decreases |acts|
  {
    if acts == [] then s else Run(Step(s, acts[0]), acts[1..])
  }
}
