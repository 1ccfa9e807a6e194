/**
 The link pool of packages/core/metro-bridge.ts: idle links, takers waiting for one, and a timer per
 waiting taker. First one call as a function on values, then whole runs, then the pool itself.
 */
module MetroLinks {
  import opened Options

  type Link = nat

  /** A call of `take`, numbered as it comes. */
  type Taker = nat

  const METRO_LINK_LIMIT: nat := 16

  /** `timers` are the takers whose timeout is armed. */
  datatype Pool = Pool(idle: seq<Link>, waiting: seq<Taker>, timers: set<Taker>, takers: nat, closed: bool)

  const Empty := Pool([], [], {}, 0, false)

  datatype Op = Add(link: Link) | Remove(link: Link) | Take | Timeout(taker: Taker) | Close

  datatype Answer = Answer(taker: Taker, link: Option<Link>)

  /** What a call did outside the pool: links accepted, removed and closed, and takers answered. */
  datatype Effect = Effect(accepted: seq<Link>, removed: seq<Link>, closed: seq<Link>, answers: seq<Answer>)

  const Nothing := Effect([], [], [], [])

  function IndexOf<T(==)>(s: seq<T>, x: T): (i: int)
    ensures -1 <= i < |s|
    ensures i >= 0 ==> s[i] == x
    ensures i == -1 <==> x !in s
  {
    if s == [] then -1 else if s[0] == x then 0 else
    var i := IndexOf(s[1..], x);
    if i < 0 then -1 else i + 1
  }

  function RemoveAt<T>(s: seq<T>, i: nat): seq<T>
    requires i < |s|
  {
    s[..i] + s[i + 1..]
  }

  /** `splice(index, 1)`: an index of -1 names the last element. */
  function Splice<T>(s: seq<T>, i: int): seq<T>
    requires -1 <= i < |s|
  {
    if i >= 0 then RemoveAt(s, i) else if s == [] then [] else s[..|s| - 1]
  }

  function Nulls(waiting: seq<Taker>): seq<Answer> {
    seq(|waiting|, i requires 0 <= i < |waiting| => Answer(waiting[i], None))
  }

  /** One call. A timeout whose timer is not armed does not happen. */
  function Do(p: Pool, op: Op): (Pool, Effect) {
    match op
    case Add(link) =>
      if p.closed then (p, Nothing)
      else if p.waiting != [] then
        (p.(waiting := p.waiting[1..], timers := p.timers - {p.waiting[0]}),
         Effect([link], [], [], [Answer(p.waiting[0], Some(link))]))
      else if |p.idle| >= METRO_LINK_LIMIT then (p.(idle := p.idle[1..] + [link]), Effect([link], [], [p.idle[0]], []))
      else (p.(idle := p.idle + [link]), Effect([link], [], [], []))
    case Remove(link) =>
      var i := IndexOf(p.idle, link);
      if i >= 0 then (p.(idle := RemoveAt(p.idle, i)), Effect([], [link], [], [])) else (p, Nothing)
    case Take =>
      var me := p.takers;
      if p.idle != [] then
        (p.(idle := p.idle[..|p.idle| - 1], takers := me + 1),
         Effect([], [], [], [Answer(me, Some(p.idle[|p.idle| - 1]))]))
      else if p.closed then (p.(takers := me + 1), Effect([], [], [], [Answer(me, None)]))
      else (p.(waiting := p.waiting + [me], timers := p.timers + {me}, takers := me + 1), Nothing)
    case Timeout(taker) =>
      if taker !in p.timers then (p, Nothing)
      else (p.(waiting := Splice(p.waiting, IndexOf(p.waiting, taker)), timers := p.timers - {taker}),
            Effect([], [], [], [Answer(taker, None)]))
    case Close => (p.(closed := true, idle := [], waiting := [], timers := {}),
                   Effect([], [], p.idle, Nulls(p.waiting)))
  }

  // ---------------------------------------------------------------- whole runs

  /** A run so far: the pool and everything it took in and gave out, in order. */
  datatype Run = Run(pool: Pool, log: Effect)

  const Begin := Run(Empty, Nothing)

  function Next(r: Run, op: Op): Run {
    var (p, e) := Do(r.pool, op);
    Run(p, Also(r.log, e))
  }

  function Also(a: Effect, b: Effect): Effect {
    Effect(a.accepted + b.accepted, a.removed + b.removed, a.closed + b.closed, a.answers + b.answers)
  }

  function RunAll(r: Run, ops: seq<Op>): Run
    decreases |ops|
  {
    if ops == [] then r else RunAll(Next(r, ops[0]), ops[1..])
  }

  /** How often `x` is in `s`. */
  function Times<T(==)>(s: seq<T>, x: T): nat {
    multiset(s)[x]
  }

  /** What the takers were answered with, and which takers. */
  function Given(answers: seq<Answer>): seq<Option<Link>> {
    seq(|answers|, i requires 0 <= i < |answers| => answers[i].link)
  }

  function Answered(answers: seq<Answer>): seq<Taker> {
    seq(|answers|, i requires 0 <= i < |answers| => answers[i].taker)
  }

  ghost predicate Rising(s: seq<Taker>, below: nat) {
    (forall i | 0 <= i < |s| :: s[i] < below) && forall i, j | 0 <= i < j < |s| :: s[i] < s[j]
  }

  /** Links and takers never both wait; each waiting taker, and no other, has its timer armed. */
  ghost predicate Shape(p: Pool) {
    && (p.idle == [] || p.waiting == []) && |p.idle| <= METRO_LINK_LIMIT
    && (p.closed ==> p.idle == [] && p.waiting == [])
    && p.timers == (set w | w in p.waiting) && Rising(p.waiting, p.takers)
  }

  /** Where a link is: as often as it was accepted it is idle, was handed to a taker, removed, or closed. */
  ghost predicate LinkOk(r: Run, l: Link) {
    Times(r.log.accepted, l) == Times(r.pool.idle, l) + Out(r.log, l)
  }

  /** How often a link left the pool. */
  function Out(e: Effect, l: Link): nat {
    Times(Given(e.answers), Some(l)) + Times(e.removed, l) + Times(e.closed, l)
  }

  /** Every taker so far waits or was answered, once. */
  ghost predicate TakerOk(r: Run, w: Taker) {
    Times(Answered(r.log.answers), w) + Times(r.pool.waiting, w) == if w < r.pool.takers then 1 else 0
  }

  lemma TimesBoth<T>(a: seq<T>, b: seq<T>, x: T)
    ensures Times(a + b, x) == Times(a, x) + Times(b, x)
  {
  }

  lemma TimesOne<T>(y: T, x: T)
    ensures Times([y], x) == if x == y then 1 else 0
  {
  }

  lemma TimesRemove<T>(s: seq<T>, i: nat, x: T)
    requires i < |s|
    ensures Times(s, x) == Times(RemoveAt(s, i), x) + if x == s[i] then 1 else 0
  {
    assert s == s[..i] + ([s[i]] + s[i + 1..]);
    TimesBoth(s[..i], [s[i]] + s[i + 1..], x);
    TimesBoth([s[i]], s[i + 1..], x);
    TimesBoth(s[..i], s[i + 1..], x);
  }

  lemma Ends<T>(s: seq<T>)
    requires s != []
    ensures RemoveAt(s, 0) == s[1..] && RemoveAt(s, |s| - 1) == s[..|s| - 1]
  {
  }

  lemma RisingRemove(s: seq<Taker>, i: nat, below: nat)
    requires Rising(s, below) && i < |s|
    ensures Rising(RemoveAt(s, i), below) && s[i] !in RemoveAt(s, i)
    ensures (set w | w in RemoveAt(s, i)) == (set w | w in s) - {s[i]}
  {
    var t := RemoveAt(s, i);
    forall a, b | 0 <= a < b < |t| ensures t[a] < t[b] {
      var x, y := if a < i then a else a + 1, if b < i then b else b + 1;
      assert t[a] == s[x] && t[b] == s[y];
    }
    forall a | 0 <= a < |t| ensures t[a] < below && t[a] != s[i] {
      assert t[a] == s[if a < i then a else a + 1];
    }
    forall w | w in s && w != s[i] ensures w in t {
      var k :| 0 <= k < |s| && s[k] == w;
      assert t[if k < i then k else k - 1] == w;
    }
  }

  /** A timeout finds its own taker: it removes no other. */
  lemma TimeoutShape(p: Pool, taker: Taker)
    requires Shape(p) && taker in p.timers
    ensures var i := IndexOf(p.waiting, taker);
            i >= 0 && p.waiting[i] == taker && Splice(p.waiting, i) == RemoveAt(p.waiting, i)
    ensures Shape(Do(p, Timeout(taker)).0)
  {
    var i := IndexOf(p.waiting, taker);
    assert taker in p.waiting;
    RisingRemove(p.waiting, i, p.takers);
  }

  lemma ShapeKeeps(p: Pool, op: Op)
    requires Shape(p)
    ensures Shape(Do(p, op).0)
  {
    if op.Timeout? && op.taker in p.timers {
      TimeoutShape(p, op.taker);
    } else if op.Add? && !p.closed && p.waiting != [] {
      RisingRemove(p.waiting, 0, p.takers);
      Ends(p.waiting);
    }
  }

  lemma NoLinks(takers: seq<Taker>, l: Link)
    ensures Times(Given(Nulls(takers)), Some(l)) == 0
  {
    assert Some(l) !in Given(Nulls(takers));
  }

  lemma OneGiven(taker: Taker, link: Option<Link>, l: Link)
    ensures Times(Given([Answer(taker, link)]), Some(l)) == if link == Some(l) then 1 else 0
  {
    assert Given([Answer(taker, link)]) == [link];
  }

  lemma AddMoves(p: Pool, link: Link, l: Link)
    requires Shape(p)
    ensures var (q, e) := Do(p, Add(link)); Times(p.idle, l) + Times(e.accepted, l) == Times(q.idle, l) + Out(e, l)
  {
    if !p.closed {
      TimesOne(link, l);
      if p.waiting != [] {
        OneGiven(p.waiting[0], Some(link), l);
      } else {
        NoLinks([], l);
        if |p.idle| >= METRO_LINK_LIMIT {
          TimesRemove(p.idle, 0, l);
          Ends(p.idle);
          TimesBoth(p.idle[1..], [link], l);
          TimesOne(p.idle[0], l);
        } else {
          TimesBoth(p.idle, [link], l);
        }
      }
    }
  }

  lemma TakeMoves(p: Pool, l: Link)
    requires Shape(p)
    ensures var (q, e) := Do(p, Take); Times(p.idle, l) == Times(q.idle, l) + Out(e, l) && e.accepted == []
  {
    if p.idle != [] {
      TimesRemove(p.idle, |p.idle| - 1, l);
      Ends(p.idle);
      OneGiven(p.takers, Some(p.idle[|p.idle| - 1]), l);
    } else if p.closed {
      OneGiven(p.takers, None, l);
    }
  }

  lemma RemoveMoves(p: Pool, link: Link, l: Link)
    ensures var (q, e) := Do(p, Remove(link)); Times(p.idle, l) == Times(q.idle, l) + Out(e, l) && e.accepted == []
  {
    var i := IndexOf(p.idle, link);
    if i >= 0 {
      TimesRemove(p.idle, i, l);
      TimesOne(link, l);
    }
  }

  lemma EndMoves(p: Pool, op: Op, l: Link)
    requires op.Timeout? || op.Close?
    ensures var (q, e) := Do(p, op); Times(p.idle, l) == Times(q.idle, l) + Out(e, l) && e.accepted == []
  {
    if op.Close? {
      NoLinks(p.waiting, l);
    } else if op.taker in p.timers {
      OneGiven(op.taker, None, l);
    }
  }

  /** What a call does to the idle links, against what it reports. */
  lemma LinkMoves(p: Pool, op: Op, l: Link)
    requires Shape(p)
    ensures var (q, e) := Do(p, op); Times(p.idle, l) + Times(e.accepted, l) == Times(q.idle, l) + Out(e, l)
  {
    match op
    case Add(link) => AddMoves(p, link, l);
    case Remove(link) => RemoveMoves(p, link, l);
    case Take => TakeMoves(p, l);
    case Timeout(_) => EndMoves(p, op, l);
    case Close => EndMoves(p, op, l);
  }

  lemma OutBoth(a: Effect, b: Effect, l: Link)
    ensures Out(Also(a, b), l) == Out(a, l) + Out(b, l)
            && Times(Also(a, b).accepted, l) == Times(a.accepted, l) + Times(b.accepted, l)
  {
    assert Given(a.answers + b.answers) == Given(a.answers) + Given(b.answers);
    TimesBoth(a.accepted, b.accepted, l);
    TimesBoth(a.removed, b.removed, l);
    TimesBoth(a.closed, b.closed, l);
    TimesBoth(Given(a.answers), Given(b.answers), Some(l));
  }

  lemma LinkKeeps(r: Run, op: Op, l: Link)
    requires Shape(r.pool) && LinkOk(r, l)
    ensures LinkOk(Next(r, op), l)
  {
    LinkMoves(r.pool, op, l);
    OutBoth(r.log, Do(r.pool, op).1, l);
  }

  lemma OneAnswered(taker: Taker, link: Option<Link>, w: Taker)
    ensures Times(Answered([Answer(taker, link)]), w) == if w == taker then 1 else 0
  {
    assert Answered([Answer(taker, link)]) == [taker];
  }

  /** What a call does to the takers: one comes with each `take`, and each that leaves the queue is answered. */
  lemma TakerMoves(p: Pool, op: Op, w: Taker)
    requires Shape(p)
    ensures var (q, e) := Do(p, op);
            Times(p.waiting, w) + (if op.Take? && w == p.takers then 1 else 0) == Times(q.waiting, w)
            + Times(Answered(e.answers), w)
  {
    if op.Add? && !p.closed && p.waiting != [] {
      TimesRemove(p.waiting, 0, w);
      Ends(p.waiting);
      OneAnswered(p.waiting[0], Some(op.link), w);
    } else if op.Take? && p.idle != [] {
      OneAnswered(p.takers, Some(p.idle[|p.idle| - 1]), w);
    } else if op.Take? && p.closed {
      OneAnswered(p.takers, None, w);
    } else if op.Take? {
      TimesBoth(p.waiting, [p.takers], w);
      TimesOne(p.takers, w);
    } else if op.Timeout? && op.taker in p.timers {
      TimeoutShape(p, op.taker);
      TimesRemove(p.waiting, IndexOf(p.waiting, op.taker), w);
      OneAnswered(op.taker, None, w);
    } else if op.Close? {
      assert Answered(Nulls(p.waiting)) == p.waiting;
    }
  }

  lemma AnsweredBoth(a: seq<Answer>, b: seq<Answer>, w: Taker)
    ensures Times(Answered(a + b), w) == Times(Answered(a), w) + Times(Answered(b), w)
  {
    assert Answered(a + b) == Answered(a) + Answered(b);
    TimesBoth(Answered(a), Answered(b), w);
  }

  lemma TakerKeeps(r: Run, op: Op, w: Taker)
    requires Shape(r.pool) && TakerOk(r, w)
    ensures TakerOk(Next(r, op), w)
  {
    TakerMoves(r.pool, op, w);
    AnsweredBoth(r.log.answers, Do(r.pool, op).1.answers, w);
  }

  lemma {:induction false} RunKeeps(r: Run, ops: seq<Op>, l: Link, w: Taker)
    requires Shape(r.pool) && LinkOk(r, l) && TakerOk(r, w)
    ensures var n := RunAll(r, ops); Shape(n.pool) && LinkOk(n, l) && TakerOk(n, w)
    decreases |ops|
  {
    if ops != [] {
      ShapeKeeps(r.pool, ops[0]);
      LinkKeeps(r, ops[0], l);
      TakerKeeps(r, ops[0], w);
      RunKeeps(Next(r, ops[0]), ops[1..], l, w);
    }
  }

  /**
   In every sequence of calls: idle links and waiting takers are never both there, at most 16 links are
   idle, takers wait in the order they came, every link is idle, handed to a taker, removed or closed
   exactly as often as it was accepted, and every taker either waits or was answered once.
   */
  lemma Conservation(ops: seq<Op>, l: Link, w: Taker)
    ensures var r := RunAll(Begin, ops); Shape(r.pool) && LinkOk(r, l) && TakerOk(r, w)
  {
    RunKeeps(Begin, ops, l, w);
  }

  /** A timeout never ends another taker's wait, in whatever state a run has reached. */
  lemma TimeoutsAreOwn(ops: seq<Op>, taker: Taker, w: Taker)
    requires w in RunAll(Begin, ops).pool.waiting && w != taker
    ensures w in Do(RunAll(Begin, ops).pool, Timeout(taker)).0.waiting
  {
    RunKeeps(Begin, ops, 0, 0);
    var p := RunAll(Begin, ops).pool;
    if taker in p.timers {
      TimeoutShape(p, taker);
      RisingRemove(p.waiting, IndexOf(p.waiting, taker), p.takers);
      assert w in (set v | v in p.waiting) - {taker};
    }
  }

  // ---------------------------------------------------------------- who gets what

  /** The links are these acceptances, in their order. */
  ghost predicate Placed(links: seq<Link>, accepted: seq<Link>, at: seq<nat>) {
    && |at| == |links| && (forall i, j | 0 <= i < j < |at| :: at[i] < at[j])
    && forall k | 0 <= k < |at| :: at[k] < |accepted| && accepted[at[k]] == links[k]
  }

  ghost predicate InOrder(r: Run, at: seq<nat>) {
    Placed(r.pool.idle, r.log.accepted, at)
  }

  lemma PlacedAdd(links: seq<Link>, accepted: seq<Link>, at: seq<nat>, link: Link)
    requires Placed(links, accepted, at)
    ensures Placed(links + [link], accepted + [link], at + [|accepted|])
  {
  }

  lemma PlacedRemove(links: seq<Link>, accepted: seq<Link>, at: seq<nat>, i: nat)
    requires Placed(links, accepted, at) && i < |links|
    ensures Placed(RemoveAt(links, i), accepted, RemoveAt(at, i))
  {
    forall j, k | 0 <= j < k < |RemoveAt(at, i)| ensures RemoveAt(at, i)[j] < RemoveAt(at, i)[k] {
      var x, y := if j < i then j else j + 1, if k < i then k else k + 1;
      assert RemoveAt(at, i)[j] == at[x] && RemoveAt(at, i)[k] == at[y];
    }
  }

  lemma AddPlaces(p: Pool, log: seq<Link>, link: Link, at: seq<nat>) returns (at': seq<nat>)
    requires Shape(p) && Placed(p.idle, log, at)
    ensures var (q, e) := Do(p, Add(link)); Placed(q.idle, log + e.accepted, at')
  {
    at' := at;
    if p.closed {
      assert log + [] == log;
    } else if p.waiting == [] {
      var idle := p.idle;
      if |p.idle| >= METRO_LINK_LIMIT {
        PlacedRemove(idle, log, at, 0);
        Ends(idle);
        idle, at' := idle[1..], RemoveAt(at, 0);
      }
      PlacedAdd(idle, log, at', link);
      at' := at' + [|log|];
    }
  }

  lemma RestPlaces(p: Pool, log: seq<Link>, op: Op, at: seq<nat>) returns (at': seq<nat>)
    requires Placed(p.idle, log, at) && !op.Add?
    ensures Placed(Do(p, op).0.idle, log, at') && Do(p, op).1.accepted == []
  {
    at' := at;
    if op.Remove? && IndexOf(p.idle, op.link) >= 0 {
      PlacedRemove(p.idle, log, at, IndexOf(p.idle, op.link));
      at' := RemoveAt(at, IndexOf(p.idle, op.link));
    } else if op.Take? && p.idle != [] {
      PlacedRemove(p.idle, log, at, |at| - 1);
      Ends(p.idle);
      at' := RemoveAt(at, |at| - 1);
    } else if op.Close? {
      at' := [];
    }
  }

  lemma OrderKeeps(r: Run, op: Op, at: seq<nat>) returns (at': seq<nat>)
    requires Shape(r.pool) && InOrder(r, at)
    ensures InOrder(Next(r, op), at')
  {
    if op.Add? {
      at' := AddPlaces(r.pool, r.log.accepted, op.link, at);
    } else {
      at' := RestPlaces(r.pool, r.log.accepted, op, at);
      assert r.log.accepted + [] == r.log.accepted;
    }
  }

  lemma {:induction false} RunOrder(r: Run, ops: seq<Op>, at: seq<nat>) returns (at': seq<nat>)
    requires Shape(r.pool) && InOrder(r, at)
    ensures InOrder(RunAll(r, ops), at')
    decreases |ops|
  {
    if ops == [] {
      at' := at;
    } else {
      ShapeKeeps(r.pool, ops[0]);
      var next := OrderKeeps(r, ops[0], at);
      at' := RunOrder(Next(r, ops[0]), ops[1..], next);
    }
  }

  /** What `take` gives: the last of the idle links, null once closed, and nothing yet otherwise. */
  ghost predicate TakeGives(p: Pool, log: seq<Link>, at: seq<nat>) {
    var n, answers := |at|, Do(p, Take).1.answers;
    if n > 0 then at[n - 1] < |log| && answers == [Answer(p.takers, Some(log[at[n - 1]]))]
    else answers == if p.closed then [Answer(p.takers, None)] else []
  }

  /** What `add` closes: the first of the idle links, when there are as many as may be. */
  ghost predicate AddCloses(p: Pool, log: seq<Link>, at: seq<nat>, link: Link) {
    var closed := Do(p, Add(link)).1.closed;
    if |at| == METRO_LINK_LIMIT then at[0] < |log| && closed == [log[at[0]]] else closed == []
  }

  /** Whom `add` serves: the first of those that wait. */
  ghost predicate AddServes(p: Pool, link: Link) {
    var answers := Do(p, Add(link)).1.answers;
    if p.waiting == [] then answers == []
    else exists w <- p.waiting :: (forall v <- p.waiting :: w <= v) && answers == [Answer(w, Some(link))]
  }

  lemma PlacedGives(p: Pool, log: seq<Link>, at: seq<nat>, link: Link)
    requires Shape(p) && Placed(p.idle, log, at)
    ensures TakeGives(p, log, at) && AddCloses(p, log, at, link)
  {
  }

  lemma FirstServed(p: Pool, link: Link)
    requires Shape(p)
    ensures AddServes(p, link)
  {
    if p.waiting != [] {
      var w := p.waiting[0];
      forall v | v in p.waiting ensures w <= v {
        var k :| 0 <= k < |p.waiting| && p.waiting[k] == v;
      }
      assert w in p.waiting;
    }
  }

  /**
   In every sequence of calls: of the idle links `take` gives the one accepted last, `add` at the limit
   closes the one accepted first, and while takers wait `add` gives its link to the one that came first.
   */
  lemma NewestLinkOldestTaker(ops: seq<Op>, link: Link) returns (at: seq<nat>)
    ensures var r := RunAll(Begin, ops);
            && InOrder(r, at) && TakeGives(r.pool, r.log.accepted, at)
            && AddCloses(r.pool, r.log.accepted, at, link) && AddServes(r.pool, link)
  {
    var r := RunAll(Begin, ops);
    at := RunOrder(Begin, ops, []);
    RunKeeps(Begin, ops, 0, 0);
    PlacedGives(r.pool, r.log.accepted, at, link);
    FirstServed(r.pool, link);
  }

  lemma RemoveTakes(p: Pool, link: Link, l: Link)
    ensures Times(p.idle, l) == Times(Do(p, Remove(link)).0.idle, l) + (if l == link && link in p.idle then 1 else 0)
  {
    var i := IndexOf(p.idle, link);
    if i >= 0 { TimesRemove(p.idle, i, l); }
  }

  lemma TimeoutEnds(p: Pool, w: Taker)
    requires Shape(p)
    ensures w in p.waiting ==> w !in Do(p, Timeout(w)).0.waiting && Do(p, Timeout(w)).1.answers == [Answer(w, None)]
    ensures w !in p.waiting ==> Do(p, Timeout(w)) == (p, Nothing)
  {
    if w in p.waiting {
      TimeoutShape(p, w);
      RisingRemove(p.waiting, IndexOf(p.waiting, w), p.takers);
    }
  }

  /**
   In every sequence of calls: `remove` takes out one idle occurrence of its link, if there is one; a
   timeout ends the wait of its taker, if it waits, with null, and else does nothing; and `close` leaves
   nothing idle and nobody waiting.
   */
  lemma WhatLeaves(ops: seq<Op>, link: Link, w: Taker, l: Link)
    ensures var p := RunAll(Begin, ops).pool;
            && Times(p.idle, l) == Times(Do(p, Remove(link)).0.idle, l) + (if l == link && link in p.idle then 1 else 0)
            && (w in p.waiting ==>
                  w !in Do(p, Timeout(w)).0.waiting && Do(p, Timeout(w)).1.answers == [Answer(w, None)])
            && (w !in p.waiting ==> Do(p, Timeout(w)) == (p, Nothing))
            && Do(p, Close).0.closed && Do(p, Close).0.idle == [] && Do(p, Close).0.waiting == []
  {
    RunKeeps(Begin, ops, 0, 0);
    RemoveTakes(RunAll(Begin, ops).pool, link, l);
    TimeoutEnds(RunAll(Begin, ops).pool, w);
  }

  /** Once closed the pool stays closed and takes no more links, whatever is called. */
  lemma {:induction false} ClosedForGood(r: Run, ops: seq<Op>)
    requires Shape(r.pool) && r.pool.closed
    ensures var n := RunAll(r, ops);
            n.pool.closed && n.pool.idle == [] && n.pool.waiting == [] && n.log.accepted == r.log.accepted
    decreases |ops|
  {
    if ops != [] {
      ShapeKeeps(r.pool, ops[0]);
      assert r.log.accepted + [] == r.log.accepted;
      ClosedForGood(Next(r, ops[0]), ops[1..]);
    }
  }

  /** The takers that were given a link, in the order of the answers. */
  function Served(answers: seq<Answer>): seq<Taker> {
    if answers == [] then []
    else (if answers[0].link.Some? then [answers[0].taker] else []) + Served(answers[1..])
  }

  lemma {:induction false} ServedBoth(a: seq<Answer>, b: seq<Answer>)
    ensures Served(a + b) == Served(a) + Served(b)
    decreases |a|
  {
    if a == [] {
      assert a + b == b;
    } else {
      var first := if a[0].link.Some? then [a[0].taker] else [];
      assert (a + b)[0] == a[0] && (a + b)[1..] == a[1..] + b;
      ServedBoth(a[1..], b);
      assert first + (Served(a[1..]) + Served(b)) == (first + Served(a[1..])) + Served(b);
    }
  }

  lemma {:induction false} NullsServeNobody(answers: seq<Answer>)
    requires forall k | 0 <= k < |answers| :: answers[k].link.None?
    ensures Served(answers) == []
    decreases |answers|
  {
    if answers != [] { NullsServeNobody(answers[1..]); }
  }

  /** Takers served so far came in order, and before every one that waits. */
  ghost predicate Fair(served: seq<Taker>, waiting: seq<Taker>, takers: nat) {
    Rising(served, takers) && forall s, w | s in served && w in waiting :: s < w
  }

  ghost predicate ServedOk(r: Run) {
    Fair(Served(r.log.answers), r.pool.waiting, r.pool.takers)
  }

  lemma OneServed(a: Answer)
    ensures Served([a]) == if a.link.Some? then [a.taker] else []
  {
    assert [a][1..] == [];
  }

  lemma FairServe(served: seq<Taker>, waiting: seq<Taker>, takers: nat)
    requires Fair(served, waiting, takers) && Rising(waiting, takers) && waiting != []
    ensures Fair(served + [waiting[0]], waiting[1..], takers)
  {
    var next := served + [waiting[0]];
    forall i, j | 0 <= i < j < |next| ensures next[i] < next[j] {
      if j == |served| { assert next[i] in served && waiting[0] in waiting; }
    }
    forall s, w | s in next && w in waiting[1..] ensures s < w {
      var k :| 0 <= k < |waiting[1..]| && waiting[1..][k] == w;
      assert waiting[k + 1] == w && w in waiting && waiting[0] in waiting;
    }
  }

  lemma FairTake(served: seq<Taker>, takers: nat)
    requires Fair(served, [], takers)
    ensures Fair(served + [takers], [], takers + 1)
  {
  }

  /** More takers come to wait, or fewer wait. */
  lemma FairWait(served: seq<Taker>, waiting: seq<Taker>, waiting': seq<Taker>, takers: nat, takers': nat)
    requires Fair(served, waiting, takers) && takers <= takers'
    requires forall w | w in waiting' :: w in waiting || takers <= w
    ensures Fair(served, waiting', takers')
  {
  }

  lemma WaitersLeft(p: Pool, op: Op)
    requires Shape(p) && !(op.Add? && !p.closed && p.waiting != []) && !(op.Take? && p.idle != [])
    ensures var (q, e) := Do(p, op);
            Served(e.answers) == [] && forall w | w in q.waiting :: w in p.waiting || p.takers <= w
  {
    NullsServeNobody(Do(p, op).1.answers);
    if op.Timeout? && op.taker in p.timers { TimeoutShape(p, op.taker); }
  }

  lemma ServedKeeps(r: Run, op: Op)
    requires Shape(r.pool) && ServedOk(r)
    ensures ServedOk(Next(r, op))
  {
    var p, q, e := r.pool, Do(r.pool, op).0, Do(r.pool, op).1;
    var served := Served(r.log.answers);
    ServedBoth(r.log.answers, e.answers);
    if |e.answers| == 1 { OneServed(e.answers[0]); }
    if op.Add? && !p.closed && p.waiting != [] {
      FairServe(served, p.waiting, p.takers);
    } else if op.Take? && p.idle != [] {
      FairTake(served, p.takers);
    } else {
      WaitersLeft(p, op);
      assert served + [] == served;
      FairWait(served, p.waiting, q.waiting, p.takers, q.takers);
    }
  }

  lemma {:induction false} RunServed(r: Run, ops: seq<Op>)
    requires Shape(r.pool) && ServedOk(r)
    ensures ServedOk(RunAll(r, ops))
    decreases |ops|
  {
    if ops != [] {
      ShapeKeeps(r.pool, ops[0]);
      ServedKeeps(r, ops[0]);
      RunServed(Next(r, ops[0]), ops[1..]);
    }
  }

  /** In every sequence of calls takers are given links in the order they came. */
  lemma FirstComeFirstServed(ops: seq<Op>)
    ensures var served := Served(RunAll(Begin, ops).log.answers);
            forall i, j | 0 <= i < j < |served| :: served[i] < served[j]
  {
    RunServed(Begin, ops);
  }

  // ---------------------------------------------------------------- the pool

  class Links {
    var idle: seq<Link>
    var waiting: seq<Taker>
    var timers: set<Taker>
    var takers: nat
    var closed: bool

    ghost function Value(): Pool
      reads this
    {
      Pool(idle, waiting, timers, takers, closed)
    }

    constructor ()
      ensures Value() == Empty
    {
      idle, waiting, timers, takers, closed := [], [], {}, 0, false;
    }

    method AddLink(link: Link) returns (accepted: bool, e: Effect)
      modifies this
      ensures (Value(), e) == Do(old(Value()), Add(link)) && accepted == !old(closed)
    {
      if closed { return false, Nothing; }
      if waiting != [] {
        var waiter := waiting[0];
        waiting, timers := waiting[1..], timers - {waiter};
        return true, Effect([link], [], [], [Answer(waiter, Some(link))]);
      }
      e := Effect([link], [], [], []);
      if |idle| >= METRO_LINK_LIMIT {
        e := e.(closed := [idle[0]]);
        idle := idle[1..];
      }
      idle := idle + [link];
      accepted := true;
    }

    method RemoveLink(link: Link) returns (e: Effect)
      modifies this`idle
      ensures (Value(), e) == Do(old(Value()), Remove(link))
    {
      var index := IndexOf(idle, link);
      if index < 0 { return Nothing; }
      idle := Splice(idle, index);
      return Effect([], [link], [], []);
    }

    method TakeLink() returns (me: Taker, e: Effect)
      modifies this
      ensures me == old(takers) && (Value(), e) == Do(old(Value()), Take)
    {
      me, takers := takers, takers + 1;
      if idle != [] {
        var link := idle[|idle| - 1];
        idle := idle[..|idle| - 1];
        return me, Effect([], [], [], [Answer(me, Some(link))]);
      }
      if closed { return me, Effect([], [], [], [Answer(me, None)]); }
      waiting, timers := waiting + [me], timers + {me};
      e := Nothing;
    }

    /** The timer of a waiting taker fires. */
    method TimeOut(taker: Taker) returns (e: Effect)
      requires taker in timers
      modifies this
      ensures (Value(), e) == Do(old(Value()), Timeout(taker))
    {
      waiting := Splice(waiting, IndexOf(waiting, taker));
      timers := timers - {taker};
      return Effect([], [], [], [Answer(taker, None)]);
    }

    method CloseLinks() returns (e: Effect)
      modifies this
      ensures (Value(), e) == Do(old(Value()), Close)
    {
      closed := true;
      e := Effect([], [], idle, Nulls(waiting));
      idle, waiting, timers := [], [], {};
    }
  }
}
