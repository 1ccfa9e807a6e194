/**
 Whole runs: any sequence of calls on one HandshakeState, any sequence of uses of one CipherState, and
 any schedule of sends and arrivals between two transports over a network that drops, replays,
 reorders and alters.
 */
module NoiseRuns {
  import opened Options
  import opened NoiseModel
  import NoiseHandshake

  // ---------------------------------------------------------------- calls on a HandshakeState

  datatype Op = OpWrite(payload: Bytes, gen: KeyPair) | OpRead(msg: Bytes) | OpSplit

  /** One call: the state after it and whether it returned rather than threw. */
  function Do(su: Suite, hs: Handshake, op: Op): (Handshake, bool) {
    match op
    case OpWrite(payload, gen) => var (hs', r) := WriteMessage(su, hs, payload, gen); (hs', r.Some?)
    case OpRead(msg) => var (hs', r) := ReadMessage(su, hs, msg); (hs', r.Some?)
    case OpSplit => var (hs', r) := Split(su, hs); (hs', r.Some?)
  }

  function DoAll(su: Suite, hs: Handshake, ops: seq<Op>): Handshake
    decreases |ops|
  {
    if ops == [] then hs else DoAll(su, Do(su, hs, ops[0]).0, ops[1..])
  }

  /** Which calls returned. */
  function Returned(su: Suite, hs: Handshake, ops: seq<Op>): (r: seq<bool>)
    ensures |r| == |ops|
    decreases |ops|
  {
    if ops == [] then [] else [Do(su, hs, ops[0]).1] + Returned(su, Do(su, hs, ops[0]).0, ops[1..])
  }

  /** The messages written and read, in order: the calls that returned and were no split. */
  function Messages(su: Suite, hs: Handshake, ops: seq<Op>): seq<Op>
    decreases |ops|
  {
    if ops == [] then []
    else (if Do(su, hs, ops[0]).1 && !ops[0].OpSplit? then [ops[0]] else [])
         + Messages(su, Do(su, hs, ops[0]).0, ops[1..])
  }

  lemma DoFacts(su: Suite, hs: Handshake, op: Op)
    requires hs.index <= |hs.messages|
    ensures var (hs', ok) := Do(su, hs, op);
            && hs'.messages == hs.messages && hs'.initiator == hs.initiator
            && hs'.index == (if ok && !op.OpSplit? then hs.index + 1 else hs.index) && hs'.index <= |hs.messages|
            && (ok && !op.OpSplit? ==> (op.OpWrite? <==> (hs.initiator == (hs.index % 2 == 0))))
            && (hs.failed ==> hs'.failed && !ok)
            && (!ok && !op.OpSplit? ==> hs'.failed)
            && (!ok && op.OpSplit? ==> hs' == hs)
            && (hs.split ==> hs'.split && (op.OpSplit? ==> !ok))
            && (ok && op.OpSplit? ==> hs'.split && Complete(hs))
  {
    match op
    case OpWrite(payload, gen) => if MayStep(hs, true) {
      NoiseHandshake.TokensKeep(su, hs, hs.messages[hs.index], gen);
    }
    case OpRead(msg) => if MayStep(hs, false) { NoiseHandshake.ReadTokensKeep(su, hs, hs.messages[hs.index], msg, 0); }
    case OpSplit =>
  }

  /** Calls from index `from` on are writes exactly at this role's turns. */
  ghost predicate InTurn(initiator: bool, from: nat, done: seq<Op>) {
    forall k: nat | k < |done| :: done[k].OpWrite? <==> (initiator == ((from + k) % 2 == 0))
  }

  lemma InTurnCons(initiator: bool, from: nat, op: Op, rest: seq<Op>)
    requires InTurn(initiator, from + 1, rest) && (op.OpWrite? <==> (initiator == (from % 2 == 0)))
    ensures InTurn(initiator, from, [op] + rest)
  {
    var done := [op] + rest;
    forall k: nat | k < |done| ensures done[k].OpWrite? <==> (initiator == ((from + k) % 2 == 0)) {
      if k > 0 { assert done[k] == rest[k - 1] && (from + 1) + (k - 1) == from + k; }
    }
  }

  lemma MessagesStep(su: Suite, hs: Handshake, ops: seq<Op>)
    requires ops != []
    ensures var (hs', ok) := Do(su, hs, ops[0]);
            Messages(su, hs, ops) == if ok && !ops[0].OpSplit? then [ops[0]] + Messages(su, hs', ops[1..])
                                     else Messages(su, hs', ops[1..])
    ensures DoAll(su, hs, ops) == DoAll(su, Do(su, hs, ops[0]).0, ops[1..])
  {
  }

  /** What a run from `hs` leaves of its role and index, and the messages it carried. */
  ghost predicate Turned(hs: Handshake, end: Handshake, done: seq<Op>) {
    && end.index == hs.index + |done| <= |hs.messages|
    && end.messages == hs.messages
    && InTurn(hs.initiator, hs.index, done)
  }

  lemma TurnedCons(hs: Handshake, op: Op, ok: bool, hs': Handshake, end: Handshake, rest: seq<Op>)
    requires hs'.messages == hs.messages && hs'.initiator == hs.initiator
    requires hs'.index == (if ok && !op.OpSplit? then hs.index + 1 else hs.index)
    requires ok && !op.OpSplit? ==> (op.OpWrite? <==> (hs.initiator == (hs.index % 2 == 0)))
    requires Turned(hs', end, rest)
    ensures Turned(hs, end, if ok && !op.OpSplit? then [op] + rest else rest)
  {
    if ok && !op.OpSplit? { InTurnCons(hs.initiator, hs.index, op, rest); }
  }

  /**
   Over every sequence of calls: messages are written and read alternately by role, the index counts
   them and never passes the pattern's length.
   */
  lemma {:induction false} TurnsAlternate(su: Suite, hs: Handshake, ops: seq<Op>)
    requires hs.index <= |hs.messages|
    ensures Turned(hs, DoAll(su, hs, ops), Messages(su, hs, ops))
    decreases |ops|
  {
    if ops != [] {
      DoFacts(su, hs, ops[0]);
      MessagesStep(su, hs, ops);
      var hs' := Do(su, hs, ops[0]).0;
      TurnsAlternate(su, hs', ops[1..]);
      TurnedCons(hs, ops[0], Do(su, hs, ops[0]).1, hs', DoAll(su, hs', ops[1..]), Messages(su, hs', ops[1..]));
    }
  }

  lemma {:induction false} FailedForGood(su: Suite, hs: Handshake, ops: seq<Op>)
    requires hs.index <= |hs.messages| && hs.failed
    ensures forall j | 0 <= j < |ops| :: !Returned(su, hs, ops)[j]
    decreases |ops|
  {
    if ops != [] {
      DoFacts(su, hs, ops[0]);
      FailedForGood(su, Do(su, hs, ops[0]).0, ops[1..]);
    }
  }

  lemma {:induction false} SplitForGood(su: Suite, hs: Handshake, ops: seq<Op>)
    requires hs.index <= |hs.messages| && hs.split
    ensures forall j | 0 <= j < |ops| && ops[j].OpSplit? :: !Returned(su, hs, ops)[j]
    decreases |ops|
  {
    if ops != [] {
      DoFacts(su, hs, ops[0]);
      SplitForGood(su, Do(su, hs, ops[0]).0, ops[1..]);
      forall j | 0 <= j < |ops| && ops[j].OpSplit? ensures !Returned(su, hs, ops)[j] {
        if j > 0 { assert ops[1..][j - 1] == ops[j]; }
      }
    }
  }

  lemma ReturnedNext(su: Suite, hs: Handshake, ops: seq<Op>, j: nat)
    requires 0 < j < |ops|
    ensures ops[1..][j - 1] == ops[j] && Returned(su, hs, ops)[j] == Returned(su, Do(su, hs, ops[0]).0, ops[1..])[j - 1]
  {
  }

  /**
   Over every sequence of calls: after a write or read that threw, every later call throws; a split
   returns at most once.
   */
  lemma {:induction false} ErrorsAndSplitsStick(su: Suite, hs: Handshake, ops: seq<Op>, i: nat, j: nat)
    requires hs.index <= |hs.messages| && i < j < |ops|
    ensures !ops[i].OpSplit? && !Returned(su, hs, ops)[i] ==> !Returned(su, hs, ops)[j]
    ensures ops[i].OpSplit? && Returned(su, hs, ops)[i] && ops[j].OpSplit? ==> !Returned(su, hs, ops)[j]
    decreases |ops|
  {
    DoFacts(su, hs, ops[0]);
    var hs' := Do(su, hs, ops[0]).0;
    ReturnedNext(su, hs, ops, j);
    if i == 0 {
      if hs'.failed { FailedForGood(su, hs', ops[1..]); }
      if hs'.split { SplitForGood(su, hs', ops[1..]); }
    } else {
      ReturnedNext(su, hs, ops, i);
      ErrorsAndSplitsStick(su, hs', ops[1..], i - 1, j - 1);
    }
  }

  /** A split that throws changes nothing. */
  lemma {:induction false} ThrownSplitChangesNothing(su: Suite, hs: Handshake, ops: seq<Op>, i: nat)
    requires hs.index <= |hs.messages| && i < |ops| && ops[i].OpSplit? && !Returned(su, hs, ops)[i]
    ensures DoAll(su, hs, ops[..i + 1]) == DoAll(su, hs, ops[..i])
    decreases |ops|
  {
    DoFacts(su, hs, ops[0]);
    if i == 0 {
      assert ops[..1][1..] == [] && ops[..0] == [];
    } else {
      assert ops[1..][i - 1] == ops[i];
      assert ops[..i + 1][1..] == ops[1..][..i] && ops[..i][1..] == ops[1..][..i - 1];
      ThrownSplitChangesNothing(su, Do(su, hs, ops[0]).0, ops[1..], i - 1);
    }
  }

  // ---------------------------------------------------------------- uses of a CipherState

  datatype Use = Enc(ad: Bytes, plain: Bytes) | Dec(ad: Bytes, text: Bytes)

  function UseOnce(su: Suite, c: Cipher, u: Use): Cipher {
    match (if u.Enc? then Encrypt(su, c, u.ad, u.plain) else Decrypt(su, c, u.ad, u.text))
    case None => c
    case Some((c', _)) => c'
  }

  /** The nonces of the encryptions that returned. */
  function NoncesUsed(su: Suite, c: Cipher, us: seq<Use>): seq<nat>
    decreases |us|
  {
    if us == [] then []
    else (if us[0].Enc? && Encrypt(su, c, us[0].ad, us[0].plain).Some? then [c.n] else [])
         + NoncesUsed(su, UseOnce(su, c, us[0]), us[1..])
  }

  lemma UseCounts(su: Suite, c: Cipher, u: Use)
    requires c.k.Some?
    ensures UseOnce(su, c, u).k == c.k && UseOnce(su, c, u).n >= c.n
    ensures u.Enc? && Encrypt(su, c, u.ad, u.plain).Some? ==> UseOnce(su, c, u).n == c.n + 1 && c.n < MAX_NONCE
  {
  }

  ghost predicate Rising(low: nat, ns: seq<nat>) {
    && (forall i | 0 <= i < |ns| :: low <= ns[i] < MAX_NONCE)
    && (forall i, j | 0 <= i < j < |ns| :: ns[i] < ns[j])
  }

  lemma RisingCons(low: nat, next: nat, ns: seq<nat>)
    requires Rising(next, ns) && low < next && low < MAX_NONCE
    ensures Rising(low, [low] + ns)
  {
    var all := [low] + ns;
    forall i | 0 <= i < |all| ensures low <= all[i] < MAX_NONCE {
      if i > 0 { assert all[i] == ns[i - 1]; }
    }
    forall i, j | 0 <= i < j < |all| ensures all[i] < all[j] {
      assert all[j] == ns[j - 1];
      if i > 0 { assert all[i] == ns[i - 1]; }
    }
  }

  /** Section 5.1: in every run of a keyed cipher state no nonce encrypts twice, and 2^64-1 never does. */
  lemma {:induction false} NoncesNeverRepeat(su: Suite, c: Cipher, us: seq<Use>)
    requires c.k.Some?
    ensures Rising(c.n, NoncesUsed(su, c, us))
    decreases |us|
  {
    if us != [] {
      var c' := UseOnce(su, c, us[0]);
      UseCounts(su, c, us[0]);
      NoncesNeverRepeat(su, c', us[1..]);
      var rest := NoncesUsed(su, c', us[1..]);
      if us[0].Enc? && Encrypt(su, c, us[0].ad, us[0].plain).Some? {
        RisingCons(c.n, c'.n, rest);
      } else {
        assert NoncesUsed(su, c, us) == rest;
      }
    }
  }

  // ---------------------------------------------------------------- transport runs

  datatype Side = A | B

  datatype Event = Send(from: Side, m: Message) | Arrive(at: Side, wire: Bytes)

  /** One direction: what the sender encrypted, its ciphertexts, and what the receiver returned. */
  datatype Flow = Flow(sent: seq<Message>, wires: seq<Bytes>, got: seq<Message>)

  datatype World = World(a: Transport, b: Transport, ab: Flow, ba: Flow)

  function Sending(tr: Transport, fl: Flow, r: (Transport, SendResult), m: Message): (Transport, Flow) {
    (r.0, if r.1.Sent? then fl.(sent := fl.sent + [m], wires := fl.wires + [r.1.wire]) else fl)
  }

  function Receiving(tr: Transport, fl: Flow, r: (Transport, Option<Message>)): (Transport, Flow) {
    (r.0, if r.1.Some? then fl.(got := fl.got + [r.1.value]) else fl)
  }

  function Occur(su: Suite, w: World, ev: Event): World {
    match ev
    case Send(A, m) => var (a, ab) := Sending(w.a, w.ab, TransportEncrypt(su, w.a, m), m); w.(a := a, ab := ab)
    case Send(B, m) => var (b, ba) := Sending(w.b, w.ba, TransportEncrypt(su, w.b, m), m); w.(b := b, ba := ba)
    case Arrive(A, wire) => var (a, ba) := Receiving(w.a, w.ba, TransportDecrypt(su, w.a, wire)); w.(a := a, ba := ba)
    case Arrive(B, wire) => var (b, ab) := Receiving(w.b, w.ab, TransportDecrypt(su, w.b, wire)); w.(b := b, ab := ab)
  }

  function OccurAll(su: Suite, w: World, evs: seq<Event>): World
    decreases |evs|
  {
    if evs == [] then w else OccurAll(su, Occur(su, w, evs[0]), evs[1..])
  }

  /** The network cannot forge: of all ciphertexts under this key it delivers only ones that were sent. */
  ghost predicate Genuine(su: Suite, k: Bytes, fl: Flow, wire: Bytes) {
    (exists n: nat, p :: n < MAX_NONCE && su.seal(k, n, [], p) == wire) ==> wire in fl.wires
  }

  ghost predicate Possible(su: Suite, kab: Bytes, kba: Bytes, w: World, ev: Event) {
    match ev
    case Send(_, m) => m.Text? ==> su.utf8(m.body)
    case Arrive(A, wire) => Genuine(su, kba, w.ba, wire)
    case Arrive(B, wire) => Genuine(su, kab, w.ab, wire)
  }

  ghost predicate AllPossible(su: Suite, kab: Bytes, kba: Bytes, w: World, evs: seq<Event>)
    decreases |evs|
  {
    evs == [] || (Possible(su, kab, kba, w, evs[0]) && AllPossible(su, kab, kba, Occur(su, w, evs[0]), evs[1..]))
  }

  ghost predicate FlowOk(su: Suite, k: Bytes, sender: Transport, receiver: Transport, fl: Flow) {
    && sender.send.k == Some(k) && receiver.receive.k == Some(k)
    && |fl.wires| == |fl.sent| == sender.send.n <= MAX_NONCE
    && (forall i | 0 <= i < |fl.sent| :: fl.wires[i] == su.seal(k, i, [], Frame(fl.sent[i])))
    && (forall i | 0 <= i < |fl.sent| :: fl.sent[i].Text? ==> su.utf8(fl.sent[i].body))
    && fl.got <= fl.sent
    && (!receiver.closed ==> receiver.receive.n == |fl.got|)
  }

  ghost predicate WorldOk(su: Suite, kab: Bytes, kba: Bytes, w: World) {
    FlowOk(su, kab, w.a, w.b, w.ab) && FlowOk(su, kba, w.b, w.a, w.ba)
  }

  lemma UnframeFrame(su: Suite, m: Message)
    requires m.Text? ==> su.utf8(m.body)
    ensures Unframe(su, Frame(m)) == Some(m)
  {
    assert Frame(m)[1..] == m.body;
  }

  /** What authenticates is a message exactly if it is a type byte and a body, of UTF-8 for text. */
  lemma UnframesExactly(su: Suite, plain: Bytes, m: Message)
    ensures Unframe(su, plain) == Some(m) <==>
              plain == [if m.Text? then 1 else 2] + m.body && (m.Text? ==> su.utf8(m.body))
  {
    if plain != [] { assert plain == [plain[0]] + plain[1..]; }
    assert ([if m.Text? then 1 else 2] + m.body)[1..] == m.body;
  }

  /** The wire that decrypts at counter `n` is exactly the n-th one sent. */
  lemma OnlyTheNext(su: Suite, k: Bytes, sender: Transport, receiver: Transport, fl: Flow, wire: Bytes)
    requires su.Lawful() && su.Separates(k) && FlowOk(su, k, sender, receiver, fl) && Genuine(su, k, fl, wire)
             && !receiver.closed
    ensures var n := |fl.got|;
            Decrypt(su, receiver.receive, [], wire).Some? <==> n < |fl.wires| && wire == fl.wires[n]
    ensures Decrypt(su, receiver.receive, [], wire).Some? ==>
              Decrypt(su, receiver.receive, [], wire).value.1 == Frame(fl.sent[|fl.got|])
  {
    var n: nat := |fl.got|;
    if Decrypt(su, receiver.receive, [], wire).Some? {
      var plain := su.open(k, n, [], wire).value;
      assert n < MAX_NONCE && su.seal(k, n, [], plain) == wire;
      assert wire in fl.wires;
      var i: nat :| i < |fl.wires| && fl.wires[i] == wire;
      assert su.seal(k, i, [], Frame(fl.sent[i])) == su.seal(k, n, [], plain);
      assert i == n;
    }
    if n < |fl.wires| && wire == fl.wires[n] {
      assert su.open(k, n, [], su.seal(k, n, [], Frame(fl.sent[n]))) == Some(Frame(fl.sent[n]));
    }
  }

  lemma ArriveKeeps(su: Suite, k: Bytes, sender: Transport, receiver: Transport, fl: Flow, wire: Bytes)
    requires su.Lawful() && su.Separates(k) && FlowOk(su, k, sender, receiver, fl) && Genuine(su, k, fl, wire)
    ensures var (receiver', fl') := Receiving(receiver, fl, TransportDecrypt(su, receiver, wire));
            && FlowOk(su, k, sender, receiver', fl') && receiver'.send == receiver.send
            && (fl'.got != fl.got <==>
                  !receiver.closed && |fl.got| < |fl.wires| && wire == fl.wires[|fl.got|]
                  && |wire| <= receiver.maxReceive + 1 + TAG_BYTES)
            && (fl'.got == fl.got ==> receiver'.closed)
  {
    if !receiver.closed {
      OnlyTheNext(su, k, sender, receiver, fl, wire);
      if Decrypt(su, receiver.receive, [], wire).Some? { UnframeFrame(su, fl.sent[|fl.got|]); }
    }
  }

  lemma SendKeeps(su: Suite, k: Bytes, sender: Transport, receiver: Transport, fl: Flow, m: Message)
    requires FlowOk(su, k, sender, receiver, fl) && (m.Text? ==> su.utf8(m.body))
    ensures var (sender', fl') := Sending(sender, fl, TransportEncrypt(su, sender, m), m);
            && FlowOk(su, k, sender', receiver, fl') && sender'.receive == sender.receive
            && (!sender.closed && |m.body| > sender.maxSend ==> sender' == sender && fl' == fl)
            && (if !sender.closed && |m.body| <= sender.maxSend && |fl.sent| < MAX_NONCE
                then !sender'.closed && fl'.sent == fl.sent + [m]
                     && fl'.wires == fl.wires + [su.seal(k, |fl.sent|, [], [if m.Text? then 1 else 2] + m.body)]
                else fl' == fl)
            && (!sender.closed && |m.body| <= sender.maxSend && |fl.sent| == MAX_NONCE ==> sender'.closed)
  {
  }

  lemma OccurKeeps(su: Suite, kab: Bytes, kba: Bytes, w: World, ev: Event)
    requires su.Lawful() && su.Separates(kab) && su.Separates(kba) && WorldOk(su, kab, kba, w)
             && Possible(su, kab, kba, w, ev)
    ensures WorldOk(su, kab, kba, Occur(su, w, ev))
  {
    match ev
    case Send(A, m) => SendKeeps(su, kab, w.a, w.b, w.ab, m);
    case Send(B, m) => SendKeeps(su, kba, w.b, w.a, w.ba, m);
    case Arrive(A, wire) => ArriveKeeps(su, kba, w.b, w.a, w.ba, wire);
    case Arrive(B, wire) => ArriveKeeps(su, kab, w.a, w.b, w.ab, wire);
  }

  lemma {:induction false} OccurAllKeeps(su: Suite, kab: Bytes, kba: Bytes, w: World, evs: seq<Event>)
    requires su.Lawful() && su.Separates(kab) && su.Separates(kba) && WorldOk(su, kab, kba, w)
             && AllPossible(su, kab, kba, w, evs)
    ensures WorldOk(su, kab, kba, OccurAll(su, w, evs))
    decreases |evs|
  {
    if evs != [] {
      OccurKeeps(su, kab, kba, w, evs[0]);
      OccurAllKeeps(su, kab, kba, Occur(su, w, evs[0]), evs[1..]);
    }
  }

  /** Two transports over one pair of split keys, before anything is sent. */
  ghost predicate Paired(w: World, kab: Bytes, kba: Bytes) {
    && w.a.send == w.b.receive == Keyed(kab) && w.b.send == w.a.receive == Keyed(kba)
    && !w.a.closed && !w.b.closed && w.ab == w.ba == Flow([], [], [])
  }

  /** The transport of one side, from the cipher states its split returned. */
  function Over(keys: Keys, maxSend: nat, maxReceive: nat): Transport {
    Transport(keys.send, keys.receive, maxSend, maxReceive, false)
  }

  /** A finished handshake gives such a pair. */
  lemma SplitKeysPair(su: Suite, i: Handshake, r: Handshake, toServer: nat, toClient: nat)
    requires NoiseHandshake.Agreed(su, i, r)
    ensures var a, b := Over(Split(su, i).1.value, toServer, toClient), Over(Split(su, r).1.value, toClient, toServer);
            Paired(World(a, b, Flow([], [], []), Flow([], [], [])), Hkdf1(su, i.sym.ck, []), Hkdf2(su, i.sym.ck, []))
  {
  }

  /**
   What an arrival comes to: it is returned exactly when it is the next message in order and within the
   limit, with its type, and otherwise closes the transport.
   */
  ghost predicate NextOnly(su: Suite, k: Bytes, receiver: Transport, fl: Flow, wire: Bytes) {
    Genuine(su, k, fl, wire) ==>
      var (after, m) := TransportDecrypt(su, receiver, wire);
      && (m.Some? <==>
            !receiver.closed && |fl.got| < |fl.wires| && wire == fl.wires[|fl.got|]
            && |wire| <= receiver.maxReceive + 1 + TAG_BYTES)
      && (m.Some? ==> |fl.got| < |fl.sent| && m.value == fl.sent[|fl.got|])
      && (m.None? ==> after.closed)
  }

  lemma ArrivesInOrder(su: Suite, k: Bytes, sender: Transport, receiver: Transport, fl: Flow, wire: Bytes)
    requires su.Lawful() && su.Separates(k) && FlowOk(su, k, sender, receiver, fl)
    ensures NextOnly(su, k, receiver, fl, wire)
  {
    if Genuine(su, k, fl, wire) { ArriveKeeps(su, k, sender, receiver, fl, wire); }
  }

  /**
   In every schedule over a network that drops, replays, reorders or alters messages, what each side
   has returned is a prefix of what the other encrypted, with its types; and on both sides the next
   arrival is returned only if it is the next message in order, and else closes the transport.
   */
  lemma ReturnsAPrefix(su: Suite, kab: Bytes, kba: Bytes, w: World, evs: seq<Event>, wire: Bytes)
    requires su.Lawful() && su.Separates(kab) && su.Separates(kba) && Paired(w, kab, kba)
    requires AllPossible(su, kab, kba, w, evs)
    ensures var e := OccurAll(su, w, evs);
            && e.ab.got <= e.ab.sent && e.ba.got <= e.ba.sent
            && NextOnly(su, kab, e.b, e.ab, wire) && NextOnly(su, kba, e.a, e.ba, wire)
  {
    OccurAllKeeps(su, kab, kba, w, evs);
    var e := OccurAll(su, w, evs);
    ArrivesInOrder(su, kab, e.a, e.b, e.ab, wire);
    ArrivesInOrder(su, kba, e.b, e.a, e.ba, wire);
  }

  /** A closed transport returns and sends nothing more, whatever happens. */
  lemma {:induction false} ClosedForGood(su: Suite, w: World, evs: seq<Event>)
    ensures w.b.closed ==>
              OccurAll(su, w, evs).b == w.b && OccurAll(su, w, evs).ab.got == w.ab.got
              && OccurAll(su, w, evs).ba.sent == w.ba.sent
    ensures w.a.closed ==>
              OccurAll(su, w, evs).a == w.a && OccurAll(su, w, evs).ba.got == w.ba.got
              && OccurAll(su, w, evs).ab.sent == w.ab.sent
    decreases |evs|
  {
    if evs != [] {
      ClosedForGood(su, Occur(su, w, evs[0]), evs[1..]);
    }
  }
}
