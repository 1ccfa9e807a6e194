/**
 What rests on claims: the reentrant directory locks of packages/core/dir-lock.ts and the build slots
 of packages/core/state/build-capacity.ts.
 */
module LocksAndSlots {
  import opened Options
  import opened ClaimModel
  import opened ClaimRuns

  // ---------------------------------------------------------------- directory locks

  /**
   A call of withDirLock: its path, whether it gets the claim before its deadline if it needs one, the
   calls its body makes, one after another, and whether the body then throws. A call that throws ends
   the body it is in unless that catches it.
   */
  datatype LockCall = LockCall(path: string, granted: bool, body: seq<LockCall>, throws: bool, caught: bool)

  datatype LockEvent = TakeClaim(path: string) | DropClaim(path: string)

  /** Whether a call throws to its caller, and the claims it takes and drops; `open` are the paths locked around it. */
  function Throws(open: set<string>, c: LockCall): bool
    decreases c, |c.body| + 1
  {
    (c.path !in open && !c.granted) || BodyThrows(open + {c.path}, c, 0) || c.throws
  }

  function BodyThrows(open: set<string>, c: LockCall, i: nat): bool
    requires i <= |c.body|
    decreases c, |c.body| - i
  {
    i < |c.body| && ((Throws(open, c.body[i]) && !c.body[i].caught) || BodyThrows(open, c, i + 1))
  }

  function Trace(open: set<string>, c: LockCall): seq<LockEvent>
    decreases c, |c.body| + 1
  {
    if c.path in open then BodyTrace(open, c, 0)
    else if !c.granted then []
    else [TakeClaim(c.path)] + BodyTrace(open + {c.path}, c, 0) + [DropClaim(c.path)]
  }

  /** The claims of the body from its `i`-th call on; a call that throws uncaught is its last. */
  function BodyTrace(open: set<string>, c: LockCall, i: nat): seq<LockEvent>
    requires i <= |c.body|
    decreases c, |c.body| - i
  {
    if i == |c.body| then []
    else Trace(open, c.body[i]) + if Throws(open, c.body[i]) && !c.body[i].caught then [] else BodyTrace(open, c, i + 1)
  }

  /** Replays claims taken and dropped: None when one is taken twice or dropped unheld. */
  function Replay(held: set<string>, es: seq<LockEvent>): Option<set<string>>
    decreases |es|
  {
    if es == [] then Some(held)
    else match es[0]
      case TakeClaim(p) => if p in held then None else Replay(held + {p}, es[1..])
      case DropClaim(p) => if p in held then Replay(held - {p}, es[1..]) else None
  }

  lemma {:induction false} ReplayBoth(held: set<string>, a: seq<LockEvent>, b: seq<LockEvent>)
    ensures Replay(held, a + b) == if Replay(held, a).None? then None else Replay(Replay(held, a).value, b)
    decreases |a|
  {
    if a == [] {
      assert a + b == b;
    } else {
      assert (a + b)[1..] == a[1..] + b;
      match a[0]
      case TakeClaim(p) => if p !in held { ReplayBoth(held + {p}, a[1..], b); }
      case DropClaim(p) => if p in held { ReplayBoth(held - {p}, a[1..], b); }
    }
  }

  /**
   For every nesting and every throw: no claim is taken while it is held, so a nested call takes none,
   and all that were taken inside a call are dropped when it ends.
   */
  lemma {:induction false} ClaimsBalance(open: set<string>, c: LockCall)
    ensures Replay(open, Trace(open, c)) == Some(open)
    decreases c, |c.body| + 1
  {
    if c.path in open {
      BodyBalances(open, c, 0);
    } else if c.granted {
      var inside := open + {c.path};
      BodyBalances(inside, c, 0);
      ReplayBoth(open, [TakeClaim(c.path)] + BodyTrace(inside, c, 0), [DropClaim(c.path)]);
      ReplayBoth(open, [TakeClaim(c.path)], BodyTrace(inside, c, 0));
      assert inside - {c.path} == open;
    }
  }

  lemma {:induction false} BodyBalances(open: set<string>, c: LockCall, i: nat)
    requires i <= |c.body|
    ensures Replay(open, BodyTrace(open, c, i)) == Some(open)
    decreases c, |c.body| - i
  {
    if i < |c.body| {
      ClaimsBalance(open, c.body[i]);
      BodyBalances(open, c, i + 1);
      var rest := if Throws(open, c.body[i]) && !c.body[i].caught then [] else BodyTrace(open, c, i + 1);
      ReplayBoth(open, Trace(open, c.body[i]), rest);
    }
  }

  // ---------------------------------------------------------------- which errors get out, which claims are taken

  /**
   The call down this way of body indices is at fault: it did not get its claim, or its body throws, and
   no call on the way is caught.
   */
  ghost predicate AtFault(open: set<string>, c: LockCall, way: seq<nat>)
    decreases |way|
  {
    if way == [] then c.throws || (c.path !in open && !c.granted)
    else way[0] < |c.body| && !c.body[way[0]].caught && AtFault(open + {c.path}, c.body[way[0]], way[1..])
  }

  ghost predicate Faulty(open: set<string>, c: LockCall) {
    exists way: seq<nat> :: AtFault(open, c, way)
  }

  /** An error reaches the caller exactly when some call, however deep, is at fault with nothing to catch it. */
  lemma {:induction false} ThrowsExactly(open: set<string>, c: LockCall)
    ensures Throws(open, c) <==> Faulty(open, c)
    decreases c, |c.body| + 1
  {
    var inside := open + {c.path};
    BodyThrowsExactly(inside, c, 0);
    if c.throws || (c.path !in open && !c.granted) {
      assert AtFault(open, c, []);
    } else if Throws(open, c) {
      var k :| 0 <= k < |c.body| && !c.body[k].caught && Faulty(inside, c.body[k]);
      var way: seq<nat> :| AtFault(inside, c.body[k], way);
      assert ([k] + way)[1..] == way;
      assert AtFault(open, c, [k] + way);
    } else {
      forall way: seq<nat> ensures !AtFault(open, c, way) {
        if way != [] && way[0] < |c.body| && !c.body[way[0]].caught { assert !Faulty(inside, c.body[way[0]]); }
      }
    }
  }

  lemma {:induction false} BodyThrowsExactly(open: set<string>, c: LockCall, i: nat)
    requires i <= |c.body|
    ensures BodyThrows(open, c, i) <==> exists k :: i <= k < |c.body| && !c.body[k].caught && Faulty(open, c.body[k])
    decreases c, |c.body| - i
  {
    if i < |c.body| {
      ThrowsExactly(open, c.body[i]);
      BodyThrowsExactly(open, c, i + 1);
    }
  }

  /** The call gets in: its lock is held around it, or it gets the claim. */
  predicate GetsIn(open: set<string>, c: LockCall) {
    c.path in open || c.granted
  }

  /** The call down this way is reached, no call before it having thrown, and takes the claim of path `p`. */
  ghost predicate TakesAt(open: set<string>, c: LockCall, way: seq<nat>, p: string)
    decreases |way|
  {
    if way == [] then c.path == p && p !in open && c.granted
    else
      && GetsIn(open, c) && way[0] < |c.body|
      && (forall k | 0 <= k < way[0] :: !Throws(open + {c.path}, c.body[k]) || c.body[k].caught)
      && TakesAt(open + {c.path}, c.body[way[0]], way[1..], p)
  }

  ghost predicate Takes(open: set<string>, c: LockCall, p: string) {
    exists way: seq<nat> :: TakesAt(open, c, way, p)
  }

  /** A claim is taken exactly when a call that is reached, with its path not locked around it, gets it. */
  lemma {:induction false} TakesExactly(open: set<string>, c: LockCall, p: string)
    ensures TakeClaim(p) in Trace(open, c) <==> Takes(open, c, p)
    decreases c, |c.body| + 1
  {
    var inside := open + {c.path};
    if c.path in open { assert inside == open; }
    BodyTakesExactly(inside, c, 0, p);
    if c.path == p && p !in open && c.granted {
      assert TakesAt(open, c, [], p);
    } else if GetsIn(open, c) && TakeClaim(p) in BodyTrace(inside, c, 0) {
      var k :| 0 <= k < |c.body| && BodyTakes(inside, c, 0, k, p);
      var way: seq<nat> :| TakesAt(inside, c.body[k], way, p);
      assert ([k] + way)[1..] == way;
      assert TakesAt(open, c, [k] + way, p);
    } else {
      forall way: seq<nat> ensures !TakesAt(open, c, way, p) {
        if way != [] && TakesAt(open, c, way, p) {
          assert TakesAt(inside, c.body[way[0]], way[1..], p);
          assert BodyTakes(inside, c, 0, way[0], p);
        }
      }
    }
  }

  /** The body from its `i`-th call on comes to its `k`-th, which takes the claim. */
  ghost predicate BodyTakes(open: set<string>, c: LockCall, i: nat, k: nat, p: string)
    requires k < |c.body|
  {
    (forall j | i <= j < k :: !Throws(open, c.body[j]) || c.body[j].caught) && Takes(open, c.body[k], p)
  }

  lemma {:induction false} BodyTakesExactly(open: set<string>, c: LockCall, i: nat, p: string)
    requires i <= |c.body|
    ensures TakeClaim(p) in BodyTrace(open, c, i) <==> exists k :: i <= k < |c.body| && BodyTakes(open, c, i, k, p)
    decreases c, |c.body| - i
  {
    if i < |c.body| {
      TakesExactly(open, c.body[i], p);
      BodyTakesExactly(open, c, i + 1, p);
      var ends := Throws(open, c.body[i]) && !c.body[i].caught;
      assert BodyTrace(open, c, i) == Trace(open, c.body[i]) + if ends then [] else BodyTrace(open, c, i + 1);
      if TakeClaim(p) in Trace(open, c.body[i]) {
        assert BodyTakes(open, c, i, i, p);
      } else if TakeClaim(p) in BodyTrace(open, c, i) {
        var k :| i + 1 <= k < |c.body| && BodyTakes(open, c, i + 1, k, p);
        assert BodyTakes(open, c, i, k, p);
      } else {
        forall k | i < k < |c.body| ensures !BodyTakes(open, c, i, k, p) {
          assert ends || !BodyTakes(open, c, i + 1, k, p);
        }
      }
    }
  }

  /** The paths a depth map has locked. */
  function Locked(depths: map<string, nat>): set<string> {
    set p | p in depths && depths[p] > 0
  }

  function DepthIn(depths: map<string, nat>, path: string): nat {
    if path in depths then depths[path] else 0
  }

  /** Two depth maps that say the same of every path. */
  ghost predicate SameDepths(a: map<string, nat>, b: map<string, nat>) {
    forall p: string :: DepthIn(a, p) == DepthIn(b, p)
  }

  lemma SameLocked(a: map<string, nat>, b: map<string, nat>)
    requires SameDepths(a, b)
    ensures Locked(a) == Locked(b)
  {
    forall p: string ensures p in Locked(a) <==> p in Locked(b) {
      assert DepthIn(a, p) == DepthIn(b, p);
    }
  }

  /** Setting a path's depth and putting it back. */
  lemma PutBack(before: map<string, nat>, path: string, inside: nat, after: map<string, nat>)
    requires SameDepths(after, before[path := inside])
    ensures DepthIn(after, path) == inside && SameDepths(after[path := DepthIn(before, path)], before)
    ensures inside > 0 ==> Locked(before[path := inside]) == Locked(before) + {path}
  {
    assert DepthIn(before[path := inside], path) == inside;
    forall p: string ensures DepthIn(after[path := DepthIn(before, path)], p) == DepthIn(before, p) {
      assert DepthIn(after, p) == DepthIn(before[path := inside], p);
    }
  }

  class DirLocks {
    var lockDepths: map<string, nat>
    var events: seq<LockEvent>

    constructor ()
      ensures lockDepths == map[] && events == []
    {
      lockDepths, events := map[], [];
    }

    /**
     withDirLock: a throw is the result; the depths end as they were, and the claims taken and dropped
     are those of `Trace`.
     */
    method WithDirLock(c: LockCall) returns (threw: bool)
      modifies this
      ensures SameDepths(lockDepths, old(lockDepths))
      ensures events == old(events) + Trace(Locked(old(lockDepths)), c) && threw == Throws(Locked(old(lockDepths)), c)
      decreases c, |c.body| + 1
    {
      ghost var before, open := lockDepths, Locked(lockDepths);
      var depth := DepthIn(lockDepths, c.path);
      if depth > 0 {
        lockDepths := lockDepths[c.path := depth + 1];
        PutBack(before, c.path, depth + 1, lockDepths);
        assert open + {c.path} == open;
        var inner := RunBody(c);
        PutBack(before, c.path, depth + 1, lockDepths);
        lockDepths := lockDepths[c.path := DepthIn(lockDepths, c.path) - 1];
        return inner || c.throws;
      }
      if !c.granted { return true; }
      events := events + [TakeClaim(c.path)];
      lockDepths := lockDepths[c.path := 1];
      PutBack(before, c.path, 1, lockDepths);
      var inner := RunBody(c);
      PutBack(before, c.path, 1, lockDepths);
      lockDepths := lockDepths[c.path := 0];
      events := events + [DropClaim(c.path)];
      return inner || c.throws;
    }

    /** The body: its calls in order, up to the first throw it does not catch. */
    method RunBody(c: LockCall) returns (threw: bool)
      modifies this
      ensures SameDepths(lockDepths, old(lockDepths))
      ensures events == old(events) + BodyTrace(Locked(old(lockDepths)), c, 0)
              && threw == BodyThrows(Locked(old(lockDepths)), c, 0)
      decreases c, |c.body|
    {
      ghost var open := Locked(lockDepths);
      ghost var done: seq<LockEvent> := [];
      for i := 0 to |c.body|
        invariant SameDepths(lockDepths, old(lockDepths)) && events == old(events) + done && Resumes(open, c, i, done)
      {
        SameLocked(lockDepths, old(lockDepths));
        BodyStep(open, c, i, done);
        var inner := WithDirLock(c.body[i]);
        done := done + Trace(open, c.body[i]);
        if inner && !c.body[i].caught { return true; }
      }
      return false;
    }
  }

  /** The body's first `i` calls took and dropped `done`, and none of them ended it. */
  ghost predicate Resumes(open: set<string>, c: LockCall, i: nat, done: seq<LockEvent>)
    requires i <= |c.body|
  {
    BodyTrace(open, c, 0) == done + BodyTrace(open, c, i) && BodyThrows(open, c, 0) == BodyThrows(open, c, i)
  }

  lemma BodyStep(open: set<string>, c: LockCall, i: nat, done: seq<LockEvent>)
    requires i < |c.body| && Resumes(open, c, i, done)
    ensures var more, ends := done + Trace(open, c.body[i]), Throws(open, c.body[i]) && !c.body[i].caught;
            if ends then BodyTrace(open, c, 0) == more && BodyThrows(open, c, 0) else Resumes(open, c, i + 1, more)
  {
    var t := Trace(open, c.body[i]);
    if Throws(open, c.body[i]) && !c.body[i].caught {
      assert done + (t + []) == done + t;
    } else {
      assert done + (t + BodyTrace(open, c, i + 1)) == done + t + BodyTrace(open, c, i + 1);
    }
  }

  // ---------------------------------------------------------------- build slots

  /** How tryAcquireClaim ends on one slot: held by this caller, busy, refused, or another error. */
  datatype Attempt = Got | Busy | Refusing | Broken

  datatype SlotResult = Slot(index: nat) | NoSlot | RefusedAll | BrokeOff

  /** tryAcquireBuildSlotClaim over the answers its attempts get. */
  method TryAcquireBuildSlot(max: nat, answer: nat -> Attempt) returns (r: SlotResult, tried: nat)
    ensures tried <= max && forall j | 0 <= j < tried :: answer(j) == Busy || answer(j) == Refusing
    ensures r.Slot? ==> r.index == tried < max && answer(tried) == Got
    ensures r.BrokeOff? ==> tried < max && answer(tried) == Broken
    ensures r.NoSlot? ==> tried == max && (max > 0 ==> exists j :: 0 <= j < max && answer(j) == Busy)
    ensures r.RefusedAll? ==> tried == max > 0 && forall j | 0 <= j < max :: answer(j) == Refusing
  {
    var refusal, busy := false, false;
    for index := 0 to max
      invariant forall j | 0 <= j < index :: answer(j) == Busy || answer(j) == Refusing
      invariant busy <==> exists j :: 0 <= j < index && answer(j) == Busy
      invariant refusal <==> exists j :: 0 <= j < index && answer(j) == Refusing
    {
      if answer(index) == Broken { return BrokeOff, index; }
      if answer(index) == Refusing {
        refusal := true;
        continue;
      }
      if answer(index) == Busy {
        busy := true;
        continue;
      }
      return Slot(index), index;
    }
    tried := max;
    if refusal && !busy { return RefusedAll, tried; }
    assert max > 0 ==> answer(0) == Busy || answer(0) == Refusing;
    return NoSlot, tried;
  }

  /** The holders of one slot that have their record: calls that returned the slot and may still use it. */
  ghost function SlotHolders(slot: nat, acts: seq<Action>): set<(nat, nat)> {
    var s := Run(Init, acts);
    set t | 0 <= t < |s.threads| && Holding(s, t) && s.threads[t].mode == Exclusive && !Unrecorded(s, t) :: (slot, t)
  }

  ghost function Holders(slots: seq<seq<Action>>): set<(nat, nat)> {
    if slots == [] then {} else Holders(slots[..|slots| - 1]) + SlotHolders(|slots| - 1, slots[|slots| - 1])
  }

  lemma OnePerSlot(slot: nat, acts: seq<Action>)
    ensures |SlotHolders(slot, acts)| <= 1
  {
    var hs := SlotHolders(slot, acts);
    if hs != {} {
      var h :| h in hs;
      forall g | g in hs ensures g == h {
        MutualExclusion(acts, h.1, g.1);
      }
      assert hs == {h};
    }
  }

  /**
   With `max` slots, each a claim set of its own with any interleaving of processes at it, at most `max`
   holders have their record.
   */
  lemma {:induction false} AtMostMaxSlots(slots: seq<seq<Action>>)
    ensures |Holders(slots)| <= |slots|
    decreases |slots|
  {
    if slots != [] {
      var init := slots[..|slots| - 1];
      AtMostMaxSlots(init);
      OnePerSlot(|slots| - 1, slots[|slots| - 1]);
      UnionSize(Holders(init), SlotHolders(|slots| - 1, slots[|slots| - 1]));
    }
  }

  ghost predicate NeverCleared(acts: seq<Action>) {
    forall i | 0 <= i < |acts| :: !acts[i].SpawnClear?
  }

  /** In a slot that nobody clears these are all its holders. */
  lemma UnclearedHaveRecords(slot: nat, acts: seq<Action>, t: nat)
    requires NeverCleared(acts)
    ensures var s := Run(Init, acts);
            Holding(s, t) && s.threads[t].mode == Exclusive ==> (slot, t) in SlotHolders(slot, acts)
  {
    var s := Run(Init, acts);
    OnlyClearingHollows(acts);
    if Holding(s, t) { RecordExactly(acts, Cur(s, t)); }
  }

  lemma UnionSize<T>(a: set<T>, b: set<T>)
    ensures |a + b| <= |a| + |b|
  {
    assert a + b == a + (b - a);
    assert |b - a| <= |b| by {
      assert b == (b - a) + (b * a);
    }
  }
}
