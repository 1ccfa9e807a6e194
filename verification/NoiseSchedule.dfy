/**
 What the handshake's keys, hash and messages are made of, in closed form: each is a chain of the
 primitives over the parties' keys, the PSK, the prologue and the payloads. So two sides that differ in
 the PSK or the prologue do not come to an agreement.
 */
module NoiseSchedule {
  import opened Options
  import opened NoiseModel
  import opened NoiseHandshake

  // ---------------------------------------------------------------- the closed form

  /** All that goes into a handshake: both ephemeral and static key pairs, the PSK of XXpsk2, and the prologue. */
  datatype Parties = Parties(ei: KeyPair, er: KeyPair, si: KeyPair, sr: KeyPair, psk: Option<Bytes>, prologue: Bytes)

  /** Section 4.3: the `i`-th output of HKDF. */
  function Output(su: Suite, ck: Bytes, input: Bytes, i: nat): Bytes
    requires 1 <= i < 256
    decreases i
  {
    su.hmac(su.hmac(ck, input), (if i == 1 then [] else Output(su, ck, input, i - 1)) + [i])
  }

  /** The chaining key after these inputs. */
  function Chain(su: Suite, ck: Bytes, inputs: seq<Bytes>): Bytes
    decreases |inputs|
  {
    if inputs == [] then ck else Output(su, Chain(su, ck, inputs[..|inputs| - 1]), inputs[|inputs| - 1], 1)
  }

  /** The handshake hash after these parts. */
  function Absorb(su: Suite, h: Bytes, parts: seq<Bytes>): Bytes
    decreases |parts|
  {
    if parts == [] then h else su.hash(Absorb(su, h, parts[..|parts| - 1]) + parts[|parts| - 1])
  }

  function Shared(su: Suite, a: KeyPair, b: KeyPair): Bytes {
    if su.dh(a.priv, b.pub).Some? then su.dh(a.priv, b.pub).value else []
  }

  /** What is mixed into the chaining key, in order. */
  function Inputs(su: Suite, q: Parties): seq<Bytes> {
    if q.psk.None? then [Shared(su, q.ei, q.er), Shared(su, q.ei, q.sr), Shared(su, q.si, q.er)]
    else [q.ei.pub, q.er.pub, Shared(su, q.ei, q.er), Shared(su, q.ei, q.sr), q.psk.value, Shared(su, q.si, q.er)]
  }

  /** The first chaining key and hash: the name of XX is 32 bytes, that of XXpsk2 is longer. */
  function Initial(su: Suite, q: Parties): Bytes {
    if q.psk.None? then Ascii("Noise_XX_25519_ChaChaPoly_SHA256")
    else su.hash(Ascii("Noise_XXpsk2_25519_ChaChaPoly_SHA256"))
  }

  /** HKDF's `i`-th output when the input numbered `m` is mixed. */
  function Derived(su: Suite, q: Parties, m: nat, i: nat): Bytes
    requires m < |Inputs(su, q)| && 1 <= i <= 3
  {
    Output(su, Chain(su, Initial(su, q), Inputs(su, q)[..m]), Inputs(su, q)[m], i)
  }

  /** The payload of message 1: in XX no key is mixed yet. */
  function Cipher1(su: Suite, q: Parties, payload: Bytes): Bytes {
    if q.psk.None? then payload
    else su.seal(Derived(su, q, 0, 2), 0, Absorb(su, Initial(su, q), [q.prologue, q.ei.pub]), payload)
  }

  function Parts1(su: Suite, q: Parties, p1: Bytes): seq<Bytes> {
    [q.prologue, q.ei.pub, Cipher1(su, q, p1)]
  }

  /** The responder's static key, under the key of ephemeral with ephemeral. */
  function StaticR(su: Suite, q: Parties, p1: Bytes): Bytes {
    su.seal(Derived(su, q, if q.psk.None? then 0 else 2, 2), 0,
            Absorb(su, Initial(su, q), Parts1(su, q, p1) + [q.er.pub]), q.sr.pub)
  }

  /** In XXpsk2 the hash takes HKDF's second output of the PSK. */
  function PartsS(su: Suite, q: Parties, p1: Bytes): seq<Bytes> {
    Parts1(su, q, p1) + [q.er.pub] + [StaticR(su, q, p1)] + if q.psk.None? then [] else [Derived(su, q, 4, 2)]
  }

  /** The key of message 2's payload and of the initiator's static key. */
  function Key2(su: Suite, q: Parties): Bytes {
    if q.psk.None? then Derived(su, q, 1, 2) else Derived(su, q, 4, 3)
  }

  function Cipher2(su: Suite, q: Parties, p1: Bytes, p2: Bytes): Bytes {
    su.seal(Key2(su, q), 0, Absorb(su, Initial(su, q), PartsS(su, q, p1)), p2)
  }

  function Parts2(su: Suite, q: Parties, p1: Bytes, p2: Bytes): seq<Bytes> {
    PartsS(su, q, p1) + [Cipher2(su, q, p1, p2)]
  }

  function StaticI(su: Suite, q: Parties, p1: Bytes, p2: Bytes): Bytes {
    su.seal(Key2(su, q), 1, Absorb(su, Initial(su, q), Parts2(su, q, p1, p2)), q.si.pub)
  }

  function Cipher3(su: Suite, q: Parties, p1: Bytes, p2: Bytes, p3: Bytes): Bytes {
    su.seal(Derived(su, q, |Inputs(su, q)| - 1, 2), 0,
            Absorb(su, Initial(su, q), Parts2(su, q, p1, p2) + [StaticI(su, q, p1, p2)]), p3)
  }

  /** All that is hashed, in order. */
  function Transcript(su: Suite, q: Parties, p1: Bytes, p2: Bytes, p3: Bytes): seq<Bytes> {
    Parts2(su, q, p1, p2) + [StaticI(su, q, p1, p2)] + [Cipher3(su, q, p1, p2, p3)]
  }

  function Wire1(su: Suite, q: Parties, p1: Bytes): Bytes {
    q.ei.pub + Cipher1(su, q, p1)
  }

  function Wire2(su: Suite, q: Parties, p1: Bytes, p2: Bytes): Bytes {
    q.er.pub + StaticR(su, q, p1) + Cipher2(su, q, p1, p2)
  }

  function Wire3(su: Suite, q: Parties, p1: Bytes, p2: Bytes, p3: Bytes): Bytes {
    StaticI(su, q, p1, p2) + Cipher3(su, q, p1, p2, p3)
  }

  // ---------------------------------------------------------------- one mixing after another

  lemma OutputsAreHkdf(su: Suite, ck: Bytes, input: Bytes)
    ensures Hkdf1(su, ck, input) == Output(su, ck, input, 1)
    ensures Hkdf2(su, ck, input) == Output(su, ck, input, 2)
    ensures Hkdf3(su, ck, input) == Output(su, ck, input, 3)
  {
    assert [] + [1] == [1];
    assert Output(su, ck, input, 1) == su.hmac(su.hmac(ck, input), [] + [1]);
    assert Output(su, ck, input, 2) == su.hmac(su.hmac(ck, input), Output(su, ck, input, 1) + [2]);
  }

  /** A symmetric state of the handshake: so many inputs mixed, these parts hashed. */
  ghost predicate At(su: Suite, q: Parties, y: Symmetric, m: nat, parts: seq<Bytes>, k: Option<Bytes>, n: nat) {
    && m <= |Inputs(su, q)| && y.ck == Chain(su, Initial(su, q), Inputs(su, q)[..m])
    && y.h == Absorb(su, Initial(su, q), parts) && y.cipher == Cipher(k, n)
  }

  lemma AbsorbOne(su: Suite, h: Bytes, parts: seq<Bytes>, part: Bytes)
    ensures Absorb(su, h, parts + [part]) == su.hash(Absorb(su, h, parts) + part)
  {
    assert (parts + [part])[..|parts|] == parts;
  }

  lemma ChainOne(su: Suite, ck: Bytes, inputs: seq<Bytes>, m: nat)
    requires m < |inputs|
    ensures Chain(su, ck, inputs[..m + 1]) == Output(su, Chain(su, ck, inputs[..m]), inputs[m], 1)
  {
    assert inputs[..m + 1][..m] == inputs[..m];
  }

  lemma HashAt(su: Suite, q: Parties, y: Symmetric, m: nat, parts: seq<Bytes>, k: Option<Bytes>, n: nat, part: Bytes)
    requires At(su, q, y, m, parts, k, n)
    ensures At(su, q, MixHash(su, y, part), m, parts + [part], k, n)
  {
    AbsorbOne(su, Initial(su, q), parts, part);
  }

  lemma KeyAt(su: Suite, q: Parties, y: Symmetric, m: nat, parts: seq<Bytes>, k: Option<Bytes>, n: nat, input: Bytes)
    requires At(su, q, y, m, parts, k, n) && m < |Inputs(su, q)| && input == Inputs(su, q)[m]
    ensures At(su, q, MixKey(su, y, input), m + 1, parts, Some(Derived(su, q, m, 2)), 0)
  {
    OutputsAreHkdf(su, y.ck, input);
    ChainOne(su, Initial(su, q), Inputs(su, q), m);
  }

  lemma PskAt(su: Suite, q: Parties, y: Symmetric, m: nat, parts: seq<Bytes>, k: Option<Bytes>, n: nat, input: Bytes)
    requires At(su, q, y, m, parts, k, n) && m < |Inputs(su, q)| && input == Inputs(su, q)[m]
    ensures At(su, q, MixKeyAndHash(su, y, input), m + 1, parts + [Derived(su, q, m, 2)], Some(Derived(su, q, m, 3)), 0)
  {
    OutputsAreHkdf(su, y.ck, input);
    ChainOne(su, Initial(su, q), Inputs(su, q), m);
    AbsorbOne(su, Initial(su, q), parts, Derived(su, q, m, 2));
  }

  lemma SealAt(su: Suite, q: Parties, y: Symmetric, m: nat, parts: seq<Bytes>, k: Bytes, n: nat, plain: Bytes)
    requires At(su, q, y, m, parts, Some(k), n) && n < MAX_NONCE
    ensures var text := su.seal(k, n, Absorb(su, Initial(su, q), parts), plain);
            && EncryptAndHash(su, y, plain).Some? && EncryptAndHash(su, y, plain).value.1 == text
            && At(su, q, EncryptAndHash(su, y, plain).value.0, m, parts + [text], Some(k), n + 1)
  {
    AbsorbOne(su, Initial(su, q), parts, su.seal(k, n, y.h, plain));
  }

  lemma PlainAt(su: Suite, q: Parties, y: Symmetric, m: nat, parts: seq<Bytes>, plain: Bytes)
    requires At(su, q, y, m, parts, None, 0)
    ensures EncryptAndHash(su, y, plain).Some? && EncryptAndHash(su, y, plain).value.1 == plain
    ensures At(su, q, EncryptAndHash(su, y, plain).value.0, m, parts + [plain], None, 0)
  {
    AbsorbOne(su, Initial(su, q), parts, plain);
  }

  /** The hash of an "e" token, and in XXpsk2 its mixing. */
  lemma EphemeralAt(su: Suite, q: Parties, y: Symmetric, m: nat, parts: seq<Bytes>, k: Option<Bytes>, n: nat,
                    key: Bytes)
    requires At(su, q, y, m, parts, k, n) && m < |Inputs(su, q)| && (q.psk.Some? ==> key == Inputs(su, q)[m])
    ensures var y' := MixEphemeral(su, y, q.psk.Some?, key);
            if q.psk.Some? then At(su, q, y', m + 1, parts + [key], Some(Derived(su, q, m, 2)), 0)
            else At(su, q, y', m, parts + [key], k, n)
  {
    HashAt(su, q, y, m, parts, k, n, key);
    if q.psk.Some? { KeyAt(su, q, MixHash(su, y, key), m, parts + [key], k, n, key); }
  }

  // ---------------------------------------------------------------- the three messages

  function ProtocolOf(q: Parties): Protocol {
    if q.psk.None? then XX else XXpsk2
  }

  /** The symmetric state before message `j`. */
  ghost predicate Before(su: Suite, q: Parties, y: Symmetric, j: nat, p1: Bytes, p2: Bytes, p3: Bytes) {
    if j == 0 then At(su, q, y, 0, [q.prologue], None, 0)
    else if j == 1 then
      if q.psk.None? then At(su, q, y, 0, Parts1(su, q, p1), None, 0)
      else At(su, q, y, 1, Parts1(su, q, p1), Some(Derived(su, q, 0, 2)), 1)
    else if j == 2 then At(su, q, y, |Inputs(su, q)| - 1, Parts2(su, q, p1, p2), Some(Key2(su, q)), 1)
    else At(su, q, y, |Inputs(su, q)|, Transcript(su, q, p1, p2, p3), Some(Derived(su, q, |Inputs(su, q)| - 1, 2)), 1)
  }

  /** One side, with its own keys of these parties. */
  ghost predicate Plays(q: Parties, hs: Handshake, gen: KeyPair) {
    && hs.psk == q.psk && hs.s == (if hs.initiator then q.si else q.sr)
    && (if hs.e.Some? then hs.e.value else gen) == (if hs.initiator then q.ei else q.er)
  }

  ghost predicate AllHonest(su: Suite, q: Parties) {
    Honest(su, q.ei) && Honest(su, q.er) && Honest(su, q.si) && Honest(su, q.sr)
  }

  lemma NamesHash(su: Suite, q: Parties)
    ensures InitSymmetric(su, Ascii(Name(ProtocolOf(q)))) == Symmetric(Initial(su, q), Initial(su, q), Cipher(None, 0))
  {
    var name := Ascii(Name(ProtocolOf(q)));
    if q.psk.None? {
      assert |name| == 32 && name + Zeros(0) == name;
    } else {
      assert |name| == 36;
    }
  }

  lemma StartsAt(su: Suite, q: Parties, initiator: bool, e: Option<KeyPair>)
    requires q.psk.Some? ==> |q.psk.value| == KEY_BYTES
    ensures var s := if initiator then q.si else q.sr;
            var hs := Start(su, ProtocolOf(q), initiator, q.prologue, s, q.psk, e);
            && hs.Some? && At(su, q, hs.value.sym, 0, [q.prologue], None, 0)
            && hs.value.e == e && hs.value.psk == q.psk && hs.value.s == s && hs.value.initiator == initiator
  {
    NamesHash(su, q);
    var y := InitSymmetric(su, Ascii(Name(ProtocolOf(q))));
    assert Inputs(su, q)[..0] == [];
    assert At(su, q, y, 0, [], None, 0);
    HashAt(su, q, y, 0, [], None, 0, q.prologue);
    assert [] + [q.prologue] == [q.prologue];
  }

  /**
   The constructor returns exactly when XXpsk2 is given a PSK of 32 bytes and XX none; the schedule then begins with
   the protocol's name and the prologue, and no key.
   */
  lemma StartsExactly(su: Suite, p: Protocol, initiator: bool, prologue: Bytes, s: KeyPair, psk: Option<Bytes>,
                      e: Option<KeyPair>)
    ensures var hs := Start(su, p, initiator, prologue, s, psk, e);
            && (hs.Some? <==> if p == XX then psk.None? else psk.Some? && |psk.value| == KEY_BYTES)
            && (hs.Some? ==>
                  var first := Initial(su, Parties(s, s, s, s, psk, prologue));
                  hs.value.sym == Symmetric(first, su.hash(first + prologue), Cipher(None, 0)) && hs.value.index == 0)
  {
    NamesHash(su, Parties(s, s, s, s, psk, prologue));
  }

  /** The secrets, from either side. */
  lemma SecretsAre(su: Suite, q: Parties, a: KeyPair, b: KeyPair)
    requires su.Lawful() && Honest(su, a) && Honest(su, b)
    ensures su.dh(a.priv, b.pub) == Some(Shared(su, a, b)) && su.dh(b.priv, a.pub) == Some(Shared(su, a, b))
  {
    assert su.dh(a.priv, su.pub(b.priv)) == su.dh(b.priv, su.pub(a.priv));
  }

  lemma FirstTokens(su: Suite, q: Parties, w: Handshake, gen: KeyPair) returns (y: Symmetric)
    requires w.initiator && Plays(q, w, gen) && At(su, q, w.sym, 0, [q.prologue], None, 0)
    ensures WriteTokens(su, w, [E], gen) == Some((w.(e := Some(q.ei), sym := y), q.ei.pub))
    ensures if q.psk.None? then At(su, q, y, 0, [q.prologue, q.ei.pub], None, 0)
            else At(su, q, y, 1, [q.prologue, q.ei.pub], Some(Derived(su, q, 0, 2)), 0)
  {
    y := MixEphemeral(su, w.sym, w.psk.Some?, q.ei.pub);
    EphemeralAt(su, q, w.sym, 0, [q.prologue], None, 0, q.ei.pub);
    assert [q.prologue] + [q.ei.pub] == [q.prologue, q.ei.pub];
    var ts := [E];
    assert ts[1..] == [];
    assert WriteToken(su, w, E, gen) == Some((w.(e := Some(q.ei), sym := y), q.ei.pub));
    assert q.ei.pub + [] == q.ei.pub;
  }

  /** Message 1. */
  lemma WritesFirst(su: Suite, q: Parties, w: Handshake, gen: KeyPair, p1: Bytes)
    requires w.initiator && Plays(q, w, gen) && At(su, q, w.sym, 0, [q.prologue], None, 0)
    requires MayStep(w, true) && w.index == 0 && w.messages == Pattern(ProtocolOf(q))
    requires WriteMessage(su, w, p1, gen).1.Some?
    ensures var (w', msg) := WriteMessage(su, w, p1, gen);
            && msg == Some(Wire1(su, q, p1)) && Before(su, q, w'.sym, 1, p1, [], [])
            && w' == w.(e := Some(q.ei), sym := w'.sym, index := 1)
  {
    var y := FirstTokens(su, q, w, gen);
    if q.psk.None? {
      PlainAt(su, q, y, 0, [q.prologue, q.ei.pub], p1);
    } else {
      SealAt(su, q, y, 1, [q.prologue, q.ei.pub], Derived(su, q, 0, 2), 0, p1);
    }
    assert [q.prologue, q.ei.pub] + [Cipher1(su, q, p1)] == Parts1(su, q, p1);
  }

  lemma WriteCons(su: Suite, hs: Handshake, ts: seq<Token>, gen: KeyPair, hs': Handshake, part: Bytes, end: Handshake,
                  rest: Bytes)
    requires ts != [] && WriteToken(su, hs, ts[0], gen) == Some((hs', part))
    requires WriteTokens(su, hs', ts[1..], gen) == Some((end, rest))
    ensures WriteTokens(su, hs, ts, gen) == Some((end, part + rest))
  {
  }

  lemma ReadCons(su: Suite, hs: Handshake, ts: seq<Token>, msg: Bytes, offset: nat, hs': Handshake, o: nat)
    requires offset <= |msg| && o <= |msg| && ts != [] && ReadToken(su, hs, ts[0], msg, offset) == Some((hs', o))
    ensures ReadTokens(su, hs, ts, msg, offset) == ReadTokens(su, hs', ts[1..], msg, o)
  {
  }

  lemma MixThen(su: Suite, w: Handshake, ts: seq<Token>, gen: KeyPair, x: Bytes, end: Handshake, rest: Bytes)
    requires ts != [] && ts[0] != E && ts[0] != S && ts[0] != PSK && Secret(su, w, ts[0]) == Some(x)
    requires WriteTokens(su, w.(sym := MixKey(su, w.sym, x)), ts[1..], gen) == Some((end, rest))
    ensures WriteTokens(su, w, ts, gen) == Some((end, rest))
  {
    WriteCons(su, w, ts, gen, w.(sym := MixKey(su, w.sym, x)), [], end, rest);
    assert [] + rest == rest;
  }

  lemma StaticThen(su: Suite, w: Handshake, ts: seq<Token>, gen: KeyPair, y: Symmetric, c: Bytes, end: Handshake,
                   rest: Bytes)
    requires ts != [] && ts[0] == S && EncryptAndHash(su, w.sym, w.s.pub) == Some((y, c))
    requires WriteTokens(su, w.(sym := y), ts[1..], gen) == Some((end, rest))
    ensures WriteTokens(su, w, ts, gen) == Some((end, c + rest))
  {
    WriteCons(su, w, ts, gen, w.(sym := y), c, end, rest);
  }

  /** How many ephemeral keys are mixed, before message 2 and in it. */
  function Mixed(q: Parties): nat {
    if q.psk.None? then 0 else 1
  }

  lemma SecondE(su: Suite, q: Parties, y: Symmetric, p1: Bytes)
    requires Before(su, q, y, 1, p1, [], [])
    ensures var e := MixEphemeral(su, y, q.psk.Some?, q.er.pub);
            At(su, q, e, 2 * Mixed(q), Parts1(su, q, p1) + [q.er.pub], e.cipher.k, e.cipher.n)
  {
    EphemeralAt(su, q, y, Mixed(q), Parts1(su, q, p1), y.cipher.k, y.cipher.n, q.er.pub);
  }

  lemma SecondEE(su: Suite, q: Parties, y: Symmetric, p1: Bytes)
    requires Before(su, q, y, 1, p1, [], [])
    ensures var ee := MixKey(su, MixEphemeral(su, y, q.psk.Some?, q.er.pub), Shared(su, q.ei, q.er));
            At(su, q, ee, 2 * Mixed(q) + 1, Parts1(su, q, p1) + [q.er.pub], Some(Derived(su, q, 2 * Mixed(q), 2)), 0)
  {
    var e := MixEphemeral(su, y, q.psk.Some?, q.er.pub);
    SecondE(su, q, y, p1);
    KeyAt(su, q, e, 2 * Mixed(q), Parts1(su, q, p1) + [q.er.pub], e.cipher.k, e.cipher.n, Shared(su, q.ei, q.er));
  }

  lemma SecondS(su: Suite, q: Parties, ee: Symmetric, p1: Bytes)
    requires At(su, q, ee, 2 * Mixed(q) + 1, Parts1(su, q, p1) + [q.er.pub], Some(Derived(su, q, 2 * Mixed(q), 2)), 0)
    ensures EncryptAndHash(su, ee, q.sr.pub).Some? && EncryptAndHash(su, ee, q.sr.pub).value.1 == StaticR(su, q, p1)
    ensures At(su, q, EncryptAndHash(su, ee, q.sr.pub).value.0, 2 * Mixed(q) + 1,
               Parts1(su, q, p1) + [q.er.pub] + [StaticR(su, q, p1)], Some(Derived(su, q, 2 * Mixed(q), 2)), 1)
  {
    SealAt(su, q, ee, 2 * Mixed(q) + 1, Parts1(su, q, p1) + [q.er.pub], Derived(su, q, 2 * Mixed(q), 2), 0, q.sr.pub);
  }

  lemma SecondLast(su: Suite, q: Parties, s: Symmetric, p1: Bytes)
    requires At(su, q, s, 2 * Mixed(q) + 1, Parts1(su, q, p1) + [q.er.pub] + [StaticR(su, q, p1)], s.cipher.k,
                s.cipher.n)
    ensures var es := MixKey(su, s, Shared(su, q.ei, q.sr));
            var last := if q.psk.Some? then MixKeyAndHash(su, es, q.psk.value) else es;
            At(su, q, last, |Inputs(su, q)| - 1, PartsS(su, q, p1), Some(Key2(su, q)), 0)
  {
    var es := MixKey(su, s, Shared(su, q.ei, q.sr));
    var hashed := Parts1(su, q, p1) + [q.er.pub] + [StaticR(su, q, p1)];
    KeyAt(su, q, s, 2 * Mixed(q) + 1, hashed, s.cipher.k, s.cipher.n, Shared(su, q.ei, q.sr));
    if q.psk.Some? {
      PskAt(su, q, es, 4, hashed, es.cipher.k, 0, q.psk.value);
    } else {
      assert hashed + [] == hashed;
    }
  }

  /** The symmetric states of message 2, after each of its tokens. */
  datatype Second = Second(e: Symmetric, ee: Symmetric, s: Symmetric, es: Symmetric, last: Symmetric)

  ghost predicate SecondOf(su: Suite, q: Parties, y: Symmetric, p1: Bytes, ys: Second) {
    && ys.e == MixEphemeral(su, y, q.psk.Some?, q.er.pub) && ys.ee == MixKey(su, ys.e, Shared(su, q.ei, q.er))
    && EncryptAndHash(su, ys.ee, q.sr.pub) == Some((ys.s, StaticR(su, q, p1))) && ys.ee.cipher.k.Some?
    && ys.es == MixKey(su, ys.s, Shared(su, q.ei, q.sr))
    && ys.last == if q.psk.Some? then MixKeyAndHash(su, ys.es, q.psk.value) else ys.es
  }

  lemma SecondStates(su: Suite, q: Parties, y: Symmetric, p1: Bytes) returns (ys: Second)
    requires Before(su, q, y, 1, p1, [], [])
    ensures SecondOf(su, q, y, p1, ys)
    ensures At(su, q, ys.last, |Inputs(su, q)| - 1, PartsS(su, q, p1), Some(Key2(su, q)), 0)
  {
    var e := MixEphemeral(su, y, q.psk.Some?, q.er.pub);
    var ee := MixKey(su, e, Shared(su, q.ei, q.er));
    SecondEE(su, q, y, p1);
    SecondS(su, q, ee, p1);
    var s := EncryptAndHash(su, ee, q.sr.pub).value.0;
    SecondLast(su, q, s, p1);
    var es := MixKey(su, s, Shared(su, q.ei, q.sr));
    ys := Second(e, ee, s, es, if q.psk.Some? then MixKeyAndHash(su, es, q.psk.value) else es);
  }

  /** The rest of a token list. */
  lemma SecondRest(q: Parties)
    ensures var ts := Pattern(ProtocolOf(q))[1];
            && |Pattern(ProtocolOf(q))| == 3 && |ts| >= 4 && ts[0] == E && ts[1..][0] == EE && ts[1..][1..][0] == S
            && ts[1..][1..][1..][0] == ES
            && ts[1..][1..][1..][1..] == if q.psk.Some? then [PSK] else []
  {
    Unrolled(Pattern(ProtocolOf(q))[1]);
  }

  /** The PSK token, if the pattern has one. */
  lemma WriteLast(su: Suite, w: Handshake, gen: KeyPair)
    ensures var ts: seq<Token> := if w.psk.Some? then [PSK] else [];
            WriteTokens(su, w, ts, gen) ==
              Some((w.(sym := if w.psk.Some? then MixKeyAndHash(su, w.sym, w.psk.value) else w.sym), []))
  {
    if w.psk.Some? {
      var ts, end := [PSK], w.(sym := MixKeyAndHash(su, w.sym, w.psk.value));
      assert ts[1..] == [];
      WriteCons(su, w, ts, gen, end, [], end, []);
      var none: Bytes := [];
      assert none + none == none;
    }
  }

  /** The tokens of message 2 after the first two. */
  lemma SecondTail(su: Suite, w: Handshake, ts: seq<Token>, gen: KeyPair, x: Bytes, y: Symmetric, c: Bytes)
    requires |ts| >= 2 && ts[0] == S && ts[1..][0] == ES && ts[1..][1..] == if w.psk.Some? then [PSK] else []
    requires EncryptAndHash(su, w.sym, w.s.pub) == Some((y, c)) && Secret(su, w, ES) == Some(x)
    ensures var es := MixKey(su, y, x);
            var last := if w.psk.Some? then MixKeyAndHash(su, es, w.psk.value) else es;
            WriteTokens(su, w, ts, gen) == Some((w.(sym := last), c))
  {
    var es := MixKey(su, y, x);
    var end := w.(sym := if w.psk.Some? then MixKeyAndHash(su, es, w.psk.value) else es);
    WriteLast(su, w.(sym := es), gen);
    assert Secret(su, w.(sym := y), ES) == Some(x);
    MixThen(su, w.(sym := y), ts[1..], gen, x, end, []);
    StaticThen(su, w, ts, gen, y, c, end, []);
    assert c + [] == c;
  }

  lemma SecondTokens(su: Suite, q: Parties, w: Handshake, gen: KeyPair, p1: Bytes) returns (y: Symmetric)
    requires su.Lawful() && AllHonest(su, q) && !w.initiator && Plays(q, w, gen) && w.re == Some(q.ei.pub)
    requires Before(su, q, w.sym, 1, p1, [], [])
    ensures WriteTokens(su, w, Pattern(ProtocolOf(q))[1], gen) ==
              Some((w.(e := Some(q.er), sym := y), q.er.pub + StaticR(su, q, p1)))
    ensures At(su, q, y, |Inputs(su, q)| - 1, PartsS(su, q, p1), Some(Key2(su, q)), 0)
  {
    var ts := Pattern(ProtocolOf(q))[1];
    var ys := SecondStates(su, q, w.sym, p1);
    y := ys.last;
    SecondRest(q);
    SecretsAre(su, q, q.ei, q.er);
    SecretsAre(su, q, q.ei, q.sr);
    SecondWrites(su, q, w, gen, ts, ys, p1);
  }

  lemma SecondWrites(su: Suite, q: Parties, w: Handshake, gen: KeyPair, ts: seq<Token>, ys: Second, p1: Bytes)
    requires |ts| >= 4 && ts[0] == E && ts[1..][0] == EE && ts[1..][1..][0] == S && ts[1..][1..][1..][0] == ES
    requires ts[1..][1..][1..][1..] == if q.psk.Some? then [PSK] else []
    requires !w.initiator && Plays(q, w, gen) && w.re == Some(q.ei.pub) && SecondOf(su, q, w.sym, p1, ys)
    requires su.dh(q.er.priv, q.ei.pub) == Some(Shared(su, q.ei, q.er))
             && su.dh(q.sr.priv, q.ei.pub) == Some(Shared(su, q.ei, q.sr))
    ensures WriteTokens(su, w, ts, gen) == Some((w.(e := Some(q.er), sym := ys.last), q.er.pub + StaticR(su, q, p1)))
  {
    var c, h1 := StaticR(su, q, p1), w.(e := Some(q.er), sym := ys.e);
    var h2, end := h1.(sym := ys.ee), h1.(sym := ys.last);
    SecondTail(su, h2, ts[1..][1..], gen, Shared(su, q.ei, q.sr), ys.s, c);
    MixThen(su, h1, ts[1..], gen, Shared(su, q.ei, q.er), end, c);
    WriteCons(su, w, ts, gen, h1, q.er.pub, end, c);
  }

  /** Message 2. */
  lemma WritesSecond(su: Suite, q: Parties, w: Handshake, gen: KeyPair, p1: Bytes, p2: Bytes)
    requires su.Lawful() && AllHonest(su, q) && !w.initiator && Plays(q, w, gen) && w.re == Some(q.ei.pub)
    requires Before(su, q, w.sym, 1, p1, [], [])
    requires MayStep(w, true) && w.index == 1 && w.messages == Pattern(ProtocolOf(q))
    requires WriteMessage(su, w, p2, gen).1.Some?
    ensures var (w', msg) := WriteMessage(su, w, p2, gen);
            && msg == Some(Wire2(su, q, p1, p2)) && Before(su, q, w'.sym, 2, p1, p2, [])
            && w' == w.(e := Some(q.er), sym := w'.sym, index := 2)
  {
    var y := SecondTokens(su, q, w, gen, p1);
    SealAt(su, q, y, |Inputs(su, q)| - 1, PartsS(su, q, p1), Key2(su, q), 0, p2);
  }

  lemma ThirdWrites(su: Suite, w: Handshake, gen: KeyPair, x: Bytes, y: Symmetric, c: Bytes)
    requires EncryptAndHash(su, w.sym, w.s.pub) == Some((y, c)) && Secret(su, w, SE) == Some(x)
    ensures WriteTokens(su, w, [S, SE], gen) == Some((w.(sym := MixKey(su, y, x)), c))
  {
    var ts: seq<Token> := [S, SE];
    var end := w.(sym := MixKey(su, y, x));
    assert ts[1..] == [SE] && ts[1..][1..] == [];
    assert Secret(su, w.(sym := y), SE) == Some(x);
    MixThen(su, w.(sym := y), ts[1..], gen, x, end, []);
    StaticThen(su, w, ts, gen, y, c, end, []);
    assert c + [] == c;
  }

  lemma ThirdS(su: Suite, q: Parties, y: Symmetric, p1: Bytes, p2: Bytes)
    requires At(su, q, y, |Inputs(su, q)| - 1, Parts2(su, q, p1, p2), Some(Key2(su, q)), 1)
    ensures EncryptAndHash(su, y, q.si.pub).Some? && EncryptAndHash(su, y, q.si.pub).value.1 == StaticI(su, q, p1, p2)
    ensures At(su, q, EncryptAndHash(su, y, q.si.pub).value.0, |Inputs(su, q)| - 1,
               Parts2(su, q, p1, p2) + [StaticI(su, q, p1, p2)], Some(Key2(su, q)), 2)
  {
    SealAt(su, q, y, |Inputs(su, q)| - 1, Parts2(su, q, p1, p2), Key2(su, q), 1, q.si.pub);
  }

  lemma ThirdSE(su: Suite, q: Parties, y: Symmetric, parts: seq<Bytes>)
    requires At(su, q, y, |Inputs(su, q)| - 1, parts, y.cipher.k, y.cipher.n)
    ensures At(su, q, MixKey(su, y, Shared(su, q.si, q.er)), |Inputs(su, q)|, parts,
               Some(Derived(su, q, |Inputs(su, q)| - 1, 2)), 0)
  {
    KeyAt(su, q, y, |Inputs(su, q)| - 1, parts, y.cipher.k, y.cipher.n, Shared(su, q.si, q.er));
  }

  lemma ThirdTokens(su: Suite, q: Parties, w: Handshake, gen: KeyPair, p1: Bytes, p2: Bytes) returns (y: Symmetric)
    requires su.Lawful() && AllHonest(su, q) && w.initiator && w.s == q.si && w.e.Some? && w.re == Some(q.er.pub)
    requires At(su, q, w.sym, |Inputs(su, q)| - 1, Parts2(su, q, p1, p2), Some(Key2(su, q)), 1)
    ensures WriteTokens(su, w, [S, SE], gen) == Some((w.(sym := y), StaticI(su, q, p1, p2)))
    ensures At(su, q, y, |Inputs(su, q)|, Parts2(su, q, p1, p2) + [StaticI(su, q, p1, p2)],
               Some(Derived(su, q, |Inputs(su, q)| - 1, 2)), 0)
  {
    ThirdS(su, q, w.sym, p1, p2);
    var s := EncryptAndHash(su, w.sym, q.si.pub).value.0;
    ThirdSE(su, q, s, Parts2(su, q, p1, p2) + [StaticI(su, q, p1, p2)]);
    y := MixKey(su, s, Shared(su, q.si, q.er));
    SecretsAre(su, q, q.si, q.er);
    ThirdWrites(su, w, gen, Shared(su, q.si, q.er), s, StaticI(su, q, p1, p2));
  }

  /** Message 3. */
  lemma WritesThird(su: Suite, q: Parties, w: Handshake, gen: KeyPair, p1: Bytes, p2: Bytes, p3: Bytes)
    requires su.Lawful() && AllHonest(su, q) && w.initiator && w.s == q.si && w.e.Some? && w.re == Some(q.er.pub)
    requires Before(su, q, w.sym, 2, p1, p2, [])
    requires MayStep(w, true) && w.index == 2 && w.messages == Pattern(ProtocolOf(q))
    requires WriteMessage(su, w, p3, gen).1.Some?
    ensures var (w', msg) := WriteMessage(su, w, p3, gen);
            msg == Some(Wire3(su, q, p1, p2, p3)) && Before(su, q, w'.sym, 3, p1, p2, p3) && w'.s == w.s
  {
    var y := ThirdTokens(su, q, w, gen, p1, p2);
    SealAt(su, q, y, |Inputs(su, q)|, Parts2(su, q, p1, p2) + [StaticI(su, q, p1, p2)],
           Derived(su, q, |Inputs(su, q)| - 1, 2), 0, p3);
  }

  // ---------------------------------------------------------------- the key schedule

  /** Both sides stand before message `j` of a handshake of these parties. */
  ghost predicate Follows(su: Suite, q: Parties, i: Handshake, r: Handshake, gi: KeyPair, gr: KeyPair, j: nat,
                          p1: Bytes, p2: Bytes, p3: Bytes) {
    && Stage(su, ProtocolOf(q), i, r, j) && Plays(q, i, gi) && Plays(q, r, gr)
    && (j >= 1 ==> i.e.Some?) && (j >= 2 ==> r.e.Some?) && Before(su, q, i.sym, j, p1, p2, p3)
  }

  lemma ReadKeeps(su: Suite, d: Handshake, msg: Bytes)
    ensures var d' := ReadMessage(su, d, msg).0;
            d'.s == d.s && d'.e == d.e && d'.psk == d.psk && d'.initiator == d.initiator
  {
    if MayStep(d, false) { ReadTokensKeep(su, d, d.messages[d.index], msg, 0); }
  }

  ghost predicate AllLawful(su: Suite, q: Parties, gi: KeyPair, gr: KeyPair) {
    su.Lawful() && AllHonest(su, q) && Honest(su, gi) && Honest(su, gr) && (q.psk.Some? ==> |q.psk.value| == KEY_BYTES)
  }

  lemma FirstFollows(su: Suite, q: Parties, i: Handshake, r: Handshake, gi: KeyPair, gr: KeyPair, p1: Bytes)
    requires AllLawful(su, q, gi, gr) && Follows(su, q, i, r, gi, gr, 0, [], [], []) && |p1| <= Limit(ProtocolOf(q), 0)
    ensures var (i', msg) := WriteMessage(su, i, p1, gi); var (r', got) := ReadMessage(su, r, Wire1(su, q, p1));
            msg == Some(Wire1(su, q, p1)) && got == Some(p1) && Follows(su, q, i', r', gi, gr, 1, p1, [], [])
            && i' == i.(e := Some(q.ei), sym := i'.sym, index := 1)
  {
    Exchange(su, ProtocolOf(q), i, r, 0, p1, gi);
    WritesFirst(su, q, i, gi, p1);
    ReadKeeps(su, r, Wire1(su, q, p1));
  }

  lemma SecondFollows(su: Suite, q: Parties, i: Handshake, r: Handshake, gi: KeyPair, gr: KeyPair, p1: Bytes, p2: Bytes)
    requires AllLawful(su, q, gi, gr) && Follows(su, q, i, r, gi, gr, 1, p1, [], []) && |p2| <= Limit(ProtocolOf(q), 1)
    ensures var (r', msg) := WriteMessage(su, r, p2, gr); var (i', got) := ReadMessage(su, i, Wire2(su, q, p1, p2));
            msg == Some(Wire2(su, q, p1, p2)) && got == Some(p2) && Follows(su, q, i', r', gi, gr, 2, p1, p2, [])
  {
    Exchange(su, ProtocolOf(q), r, i, 1, p2, gr);
    WritesSecond(su, q, r, gr, p1, p2);
    ReadKeeps(su, i, Wire2(su, q, p1, p2));
  }

  lemma ThirdFollows(su: Suite, q: Parties, i: Handshake, r: Handshake, gi: KeyPair, gr: KeyPair, p1: Bytes, p2: Bytes,
                     p3: Bytes)
    requires AllLawful(su, q, gi, gr) && Follows(su, q, i, r, gi, gr, 2, p1, p2, []) && |p3| <= Limit(ProtocolOf(q), 2)
    ensures var (i', msg) := WriteMessage(su, i, p3, gi); var (r', got) := ReadMessage(su, r, Wire3(su, q, p1, p2, p3));
            && msg == Some(Wire3(su, q, p1, p2, p3)) && got == Some(p3)
            && Stage(su, ProtocolOf(q), i', r', 3) && Before(su, q, i'.sym, 3, p1, p2, p3)
  {
    Exchange(su, ProtocolOf(q), i, r, 2, p3, gi);
    WritesThird(su, q, i, gi, p1, p2, p3);
  }

  /** Two constructed sides. */
  lemma StartFollows(su: Suite, q: Parties, ei: Option<KeyPair>, er: Option<KeyPair>, gi: KeyPair, gr: KeyPair)
    requires AllLawful(su, q, gi, gr)
    requires (if ei.Some? then ei.value else gi) == q.ei && (if er.Some? then er.value else gr) == q.er
    ensures var p := ProtocolOf(q);
            var i, r := Start(su, p, true, q.prologue, q.si, q.psk, ei),
                        Start(su, p, false, q.prologue, q.sr, q.psk, er);
            i.Some? && r.Some? && Follows(su, q, i.value, r.value, gi, gr, 0, [], [], [])
  {
    Begin(su, ProtocolOf(q), q.prologue, q.si, q.sr, q.psk, ei, er);
    StartsAt(su, q, true, ei);
    StartsAt(su, q, false, er);
  }

  /** What both sides have in the end. */
  ghost predicate Scheduled(su: Suite, q: Parties, i: Handshake, r: Handshake, p1: Bytes, p2: Bytes, p3: Bytes) {
    var ck := Chain(su, Initial(su, q), Inputs(su, q));
    && i.sym.ck == r.sym.ck == ck
    && i.sym.h == r.sym.h == Absorb(su, Initial(su, q), Transcript(su, q, p1, p2, p3))
    && Split(su, i).1 == Some(Keys(Keyed(Output(su, ck, [], 1)), Keyed(Output(su, ck, [], 2))))
    && Split(su, r).1 == Some(Keys(Keyed(Output(su, ck, [], 2)), Keyed(Output(su, ck, [], 1))))
  }

  lemma EndScheduled(su: Suite, q: Parties, i: Handshake, r: Handshake, p1: Bytes, p2: Bytes, p3: Bytes)
    requires Stage(su, ProtocolOf(q), i, r, 3) && Before(su, q, i.sym, 3, p1, p2, p3)
    ensures Scheduled(su, q, i, r, p1, p2, p3)
  {
    OutputsAreHkdf(su, Chain(su, Initial(su, q), Inputs(su, q)), []);
    assert Inputs(su, q)[..|Inputs(su, q)|] == Inputs(su, q);
  }

  /**
   The key schedule, for both protocols, all parties and all payloads within the limits: the three messages
   on the wire, the chaining key, the handshake hash and the split keys are these chains of the
   primitives over the parties' keys, the PSK and the prologue, and over nothing else.
   */
  lemma KeySchedule(su: Suite, q: Parties, ei: Option<KeyPair>, er: Option<KeyPair>, gi: KeyPair, gr: KeyPair,
                    p1: Bytes, p2: Bytes, p3: Bytes)
    requires AllLawful(su, q, gi, gr)
    requires (if ei.Some? then ei.value else gi) == q.ei && (if er.Some? then er.value else gr) == q.er
    requires |p1| <= Limit(ProtocolOf(q), 0) && |p2| <= Limit(ProtocolOf(q), 1) && |p3| <= Limit(ProtocolOf(q), 2)
    ensures var p := ProtocolOf(q);
            var i0, r0 := Start(su, p, true, q.prologue, q.si, q.psk, ei),
                          Start(su, p, false, q.prologue, q.sr, q.psk, er);
            && i0.Some? && r0.Some?
            && var (i1, m1) := WriteMessage(su, i0.value, p1, gi);
            var (r1, _) := ReadMessage(su, r0.value, Wire1(su, q, p1));
            var (r2, m2) := WriteMessage(su, r1, p2, gr);
            var (i2, _) := ReadMessage(su, i1, Wire2(su, q, p1, p2));
            var (i3, m3) := WriteMessage(su, i2, p3, gi);
            var (r3, _) := ReadMessage(su, r2, Wire3(su, q, p1, p2, p3));
            && m1 == Some(Wire1(su, q, p1)) && m2 == Some(Wire2(su, q, p1, p2)) && m3 == Some(Wire3(su, q, p1, p2, p3))
            && Scheduled(su, q, i3, r3, p1, p2, p3)
  {
    StartFollows(su, q, ei, er, gi, gr);
    var i0 := Start(su, ProtocolOf(q), true, q.prologue, q.si, q.psk, ei).value;
    var r0 := Start(su, ProtocolOf(q), false, q.prologue, q.sr, q.psk, er).value;
    FirstFollows(su, q, i0, r0, gi, gr, p1);
    var i1, r1 := WriteMessage(su, i0, p1, gi).0, ReadMessage(su, r0, Wire1(su, q, p1)).0;
    SecondFollows(su, q, i1, r1, gi, gr, p1, p2);
    var i2, r2 := ReadMessage(su, i1, Wire2(su, q, p1, p2)).0, WriteMessage(su, r1, p2, gr).0;
    ThirdFollows(su, q, i2, r2, gi, gr, p1, p2, p3);
    EndScheduled(su, q, WriteMessage(su, i2, p3, gi).0, ReadMessage(su, r2, Wire3(su, q, p1, p2, p3)).0, p1, p2, p3);
  }

  // ---------------------------------------------------------------- sides that differ

  /** Idealised: nothing sealed under one of the keys is sealed under the other. */
  ghost predicate Apart(su: Suite, k: Bytes, k': Bytes) {
    forall n: nat, ad, p, n': nat, ad', p' :: su.seal(k, n, ad, p) != su.seal(k', n', ad', p')
  }

  /** Idealised: under this key nothing is sealed for both of these associated data. */
  ghost predicate Binds(su: Suite, k: Bytes, ad: Bytes, ad': Bytes) {
    forall n: nat, p, p' :: su.seal(k, n, ad, p) != su.seal(k, n, ad', p')
  }

  /** The hash before the responder's static key is opened, and before message 1's payload is. */
  function HashS(su: Suite, q: Parties, p1: Bytes): Bytes {
    Absorb(su, Initial(su, q), Parts1(su, q, p1) + [q.er.pub])
  }

  function Hash1(su: Suite, q: Parties): Bytes {
    Absorb(su, Initial(su, q), [q.prologue, q.ei.pub])
  }

  lemma ReadMix(su: Suite, d: Handshake, ts: seq<Token>, msg: Bytes, offset: nat, x: Bytes)
    requires offset <= |msg| && ts != [] && ts[0] != E && ts[0] != S && ts[0] != PSK && Secret(su, d, ts[0]) == Some(x)
    ensures ReadTokens(su, d, ts, msg, offset) == ReadTokens(su, d.(sym := MixKey(su, d.sym, x)), ts[1..], msg, offset)
  {
    ReadCons(su, d, ts, msg, offset, d.(sym := MixKey(su, d.sym, x)), offset);
  }

  /** The first two tokens of message 2, as the initiator reads them. */
  lemma ReadsToStatic(su: Suite, q: Parties, d: Handshake, ts: seq<Token>, msg: Bytes)
    requires su.Lawful() && AllHonest(su, q) && d.initiator && d.e == Some(q.ei) && d.psk.Some? == q.psk.Some?
    requires |ts| >= 2 && ts[0] == E && ts[1..][0] == EE && KEY_BYTES <= |msg| && msg[..KEY_BYTES] == q.er.pub
    ensures var ee := MixKey(su, MixEphemeral(su, d.sym, q.psk.Some?, q.er.pub), Shared(su, q.ei, q.er));
            ReadTokens(su, d, ts, msg, 0) ==
              ReadTokens(su, d.(re := Some(q.er.pub), sym := ee), ts[1..][1..], msg, KEY_BYTES)
  {
    SecretsAre(su, q, q.ei, q.er);
    var h1 := d.(re := Some(q.er.pub), sym := MixEphemeral(su, d.sym, q.psk.Some?, q.er.pub));
    assert msg[0..0 + KEY_BYTES] == q.er.pub;
    ReadCons(su, d, ts, msg, 0, h1, KEY_BYTES);
    assert Secret(su, h1, EE) == Some(Shared(su, q.ei, q.er));
    ReadMix(su, h1, ts[1..], msg, KEY_BYTES, Shared(su, q.ei, q.er));
  }

  /** The static key of message 2, which the reader opens, or not, where it stands. */
  lemma ReadsStatic(su: Suite, d: Handshake, ts: seq<Token>, msg: Bytes, c: Bytes)
    requires ts != [] && ts[0] == S && d.sym.cipher.k.Some? && KEY_BYTES + 48 <= |msg|
             && msg[KEY_BYTES..KEY_BYTES + 48] == c
    ensures var found := DecryptAndHash(su, d.sym, c);
            ReadTokens(su, d, ts, msg, KEY_BYTES) ==
              if found.None? then None
              else ReadTokens(su, d.(sym := found.value.0, rs := Some(found.value.1)), ts[1..], msg, KEY_BYTES + 48)
  {
  }

  lemma ReadLast(su: Suite, d: Handshake, msg: Bytes, offset: nat)
    requires offset <= |msg|
    ensures var ts: seq<Token> := if d.psk.Some? then [PSK] else [];
            ReadTokens(su, d, ts, msg, offset) ==
              Some((d.(sym := if d.psk.Some? then MixKeyAndHash(su, d.sym, d.psk.value) else d.sym), offset))
  {
    if d.psk.Some? {
      var ts := [PSK];
      assert ts[1..] == [];
      ReadCons(su, d, ts, msg, offset, d.(sym := MixKeyAndHash(su, d.sym, d.psk.value)), offset);
    }
  }

  lemma WireParts(su: Suite, a: Bytes, b: Bytes, c: Bytes)
    requires |a| == KEY_BYTES && |b| == 48
    ensures var msg := a + b + c;
            msg[..KEY_BYTES] == a && msg[KEY_BYTES..KEY_BYTES + 48] == b && msg[KEY_BYTES + 48..] == c
            && |msg| == KEY_BYTES + 48 + |c|
  {
  }

  /** The tokens of message 2 after the first two, read. */
  lemma ReadTail(su: Suite, d: Handshake, ts: seq<Token>, msg: Bytes, c: Bytes, key: Bytes, x: Bytes, y: Symmetric)
    requires |ts| >= 2 && ts[0] == S && ts[1..][0] == ES && ts[1..][1..] == if d.psk.Some? then [PSK] else []
    requires d.sym.cipher.k.Some? && KEY_BYTES + 48 <= |msg| && msg[KEY_BYTES..KEY_BYTES + 48] == c
    requires DecryptAndHash(su, d.sym, c) == Some((y, key))
    requires d.initiator && d.e.Some? && su.dh(d.e.value.priv, key) == Some(x)
    ensures var es := MixKey(su, y, x);
            ReadTokens(su, d, ts, msg, KEY_BYTES) ==
              Some((d.(rs := Some(key), sym := if d.psk.Some? then MixKeyAndHash(su, es, d.psk.value) else es),
                    KEY_BYTES + 48))
  {
    var h3 := d.(sym := y, rs := Some(key));
    ReadsStatic(su, d, ts, msg, c);
    ReadMix(su, h3, ts[1..], msg, KEY_BYTES + 48, x);
    ReadLast(su, h3.(sym := MixKey(su, y, x)), msg, KEY_BYTES + 48);
  }

  /** The initiator, with its own view `q`, reads the tokens of a message 2 that has the static key it expects. */
  lemma ReadsSecond(su: Suite, q: Parties, d: Handshake, p1: Bytes, last: Bytes) returns (y: Symmetric)
    requires su.Lawful() && AllHonest(su, q) && d.initiator && d.e == Some(q.ei) && d.psk == q.psk
    requires Before(su, q, d.sym, 1, p1, [], [])
    ensures |q.er.pub + StaticR(su, q, p1) + last| >= KEY_BYTES + 48
    ensures var msg := q.er.pub + StaticR(su, q, p1) + last;
            && msg[KEY_BYTES + 48..] == last
            && ReadTokens(su, d, Pattern(ProtocolOf(q))[1], msg, 0) ==
                 Some((d.(re := Some(q.er.pub), rs := Some(q.sr.pub), sym := y), KEY_BYTES + 48))
    ensures At(su, q, y, |Inputs(su, q)| - 1, PartsS(su, q, p1), Some(Key2(su, q)), 0)
  {
    var c := StaticR(su, q, p1);
    var msg, ts := q.er.pub + c + last, Pattern(ProtocolOf(q))[1];
    var ys := SecondStates(su, q, d.sym, p1);
    y := ys.last;
    WireParts(su, q.er.pub, c, last);
    SecondRest(q);
    ReadsToStatic(su, q, d, ts, msg);
    SymmetricSync(su, ys.ee, q.sr.pub);
    SecretsAre(su, q, q.ei, q.sr);
    ReadTail(su, d.(re := Some(q.er.pub), sym := ys.ee), ts[1..][1..], msg, c, q.sr.pub, Shared(su, q.ei, q.sr), ys.s);
  }

  /** A PSK enters nothing before message 2's last token. */
  lemma PskComesLate(su: Suite, q: Parties, other: Bytes, p1: Bytes)
    requires q.psk.Some?
    ensures var q' := q.(psk := Some(other));
            && Initial(su, q') == Initial(su, q) && Wire1(su, q', p1) == Wire1(su, q, p1)
            && StaticR(su, q', p1) == StaticR(su, q, p1)
            && ProtocolOf(q') == ProtocolOf(q)
  {
    var q' := q.(psk := Some(other));
    assert Inputs(su, q')[..0] == Inputs(su, q)[..0] && Inputs(su, q')[..2] == Inputs(su, q)[..2];
    assert Derived(su, q', 0, 2) == Derived(su, q, 0, 2) && Derived(su, q', 2, 2) == Derived(su, q, 2, 2);
  }

  lemma OpensUnderOwnKeyOnly(su: Suite, q: Parties, y: Symmetric, m: nat, parts: seq<Bytes>, k: Bytes, k': Bytes,
                             ad: Bytes, p: Bytes)
    requires su.Lawful() && At(su, q, y, m, parts, Some(k), 0) && Apart(su, k, k')
    ensures DecryptAndHash(su, y, su.seal(k', 0, ad, p)).None?
  {
    var c := su.seal(k', 0, ad, p);
  }

  /**
   Two sides of XXpsk2 with different PSKs, all else honest and equal: the responder writes message 2, and
   the initiator's read of it throws, whenever the two keys derived from the PSKs are apart.
   */
  lemma WrongPskIsRefused(su: Suite, q: Parties, other: Bytes, ei: Option<KeyPair>, er: Option<KeyPair>, gi: KeyPair,
                          gr: KeyPair, p1: Bytes, p2: Bytes)
    requires AllLawful(su, q, gi, gr) && q.psk.Some? && |other| == KEY_BYTES
    requires (if ei.Some? then ei.value else gi) == q.ei && (if er.Some? then er.value else gr) == q.er
    requires |p1| <= Limit(XXpsk2, 0) && |p2| <= Limit(XXpsk2, 1)
    requires Apart(su, Key2(su, q), Key2(su, q.(psk := Some(other))))
    ensures var i0 := Start(su, XXpsk2, true, q.prologue, q.si, q.psk, ei);
            var r0 := Start(su, XXpsk2, false, q.prologue, q.sr, Some(other), er);
            && i0.Some? && r0.Some?
            && var (i1, m1) := WriteMessage(su, i0.value, p1, gi);
            && m1.Some?
            && var (r1, got) := ReadMessage(su, r0.value, m1.value);
            var (r2, m2) := WriteMessage(su, r1, p2, gr);
            got == Some(p1) && m2.Some? && ReadMessage(su, i1, m2.value).1 == None
  {
    var q' := q.(psk := Some(other));
    PskComesLate(su, q, other, p1);
    StartFollows(su, q, ei, er, gi, gr);
    StartFollows(su, q', ei, er, gi, gr);
    var i0 := Start(su, XXpsk2, true, q.prologue, q.si, q.psk, ei).value;
    var r := Start(su, XXpsk2, false, q.prologue, q.sr, q.psk, er).value;
    var i := Start(su, XXpsk2, true, q.prologue, q.si, Some(other), ei).value;
    var r0 := Start(su, XXpsk2, false, q.prologue, q.sr, Some(other), er).value;
    FirstFollows(su, q, i0, r, gi, gr, p1);
    FirstFollows(su, q', i, r0, gi, gr, p1);
    var i1, i', r1 := WriteMessage(su, i0, p1, gi).0, WriteMessage(su, i, p1, gi).0,
                      ReadMessage(su, r0, Wire1(su, q, p1)).0;
    SecondFollows(su, q', i', r1, gi, gr, p1, p2);
    RefusesSecond(su, q, i1, p1, Cipher2(su, q', p1, p2), Key2(su, q'), Absorb(su, Initial(su, q'), PartsS(su, q', p1)),
                  p2);
  }

  lemma RefusesSecond(su: Suite, q: Parties, d: Handshake, p1: Bytes, c: Bytes, k: Bytes, ad: Bytes, p2: Bytes)
    requires su.Lawful() && AllHonest(su, q) && d.initiator && d.e == Some(q.ei) && d.psk == q.psk
    requires Before(su, q, d.sym, 1, p1, [], []) && d.index == 1 && d.messages == Pattern(ProtocolOf(q))
    requires c == su.seal(k, 0, ad, p2) && Apart(su, Key2(su, q), k)
    ensures ReadMessage(su, d, q.er.pub + StaticR(su, q, p1) + c).1 == None
  {
    var y := ReadsSecond(su, q, d, p1, c);
    OpensUnderOwnKeyOnly(su, q, y, |Inputs(su, q)| - 1, PartsS(su, q, p1), Key2(su, q), k, ad, p2);
  }

  // ---- prologues that differ

  lemma PrologueInNoKey(su: Suite, q: Parties, other: Bytes)
    ensures var q' := q.(prologue := other);
            && Initial(su, q') == Initial(su, q) && Inputs(su, q') == Inputs(su, q) && ProtocolOf(q') == ProtocolOf(q)
            && Derived(su, q', 0, 2) == Derived(su, q, 0, 2)
  {
  }

  lemma OpensForOwnDataOnly(su: Suite, y: Symmetric, k: Bytes, ad: Bytes, p: Bytes)
    requires su.Lawful() && y.cipher == Cipher(Some(k), 0) && Binds(su, k, y.h, ad)
    ensures DecryptAndHash(su, y, su.seal(k, 0, ad, p)).None?
  {
    var c := su.seal(k, 0, ad, p);
  }

  /**
   Two sides of XX with different prologues, all else honest and equal: the responder writes message 2, and the
   initiator's read of it throws, whenever the key binds the two handshake hashes apart.
   */
  lemma WrongPrologueIsRefused(su: Suite, q: Parties, other: Bytes, ei: Option<KeyPair>, er: Option<KeyPair>,
                               gi: KeyPair,
                               gr: KeyPair, p1: Bytes, p2: Bytes)
    requires AllLawful(su, q, gi, gr) && q.psk.None?
    requires (if ei.Some? then ei.value else gi) == q.ei && (if er.Some? then er.value else gr) == q.er
    requires |p1| <= Limit(XX, 0) && |p2| <= Limit(XX, 1)
    requires Binds(su, Derived(su, q, 0, 2), HashS(su, q, p1), HashS(su, q.(prologue := other), p1))
    ensures var i0 := Start(su, XX, true, q.prologue, q.si, None, ei);
            var r0 := Start(su, XX, false, other, q.sr, None, er);
            && i0.Some? && r0.Some?
            && var (i1, m1) := WriteMessage(su, i0.value, p1, gi);
            && m1.Some?
            && var (r1, got) := ReadMessage(su, r0.value, m1.value);
            var (r2, m2) := WriteMessage(su, r1, p2, gr);
            got == Some(p1) && m2.Some? && ReadMessage(su, i1, m2.value).1 == None
  {
    var q' := q.(prologue := other);
    PrologueInNoKey(su, q, other);
    StartFollows(su, q, ei, er, gi, gr);
    StartFollows(su, q', ei, er, gi, gr);
    var i0 := Start(su, XX, true, q.prologue, q.si, None, ei).value;
    var r := Start(su, XX, false, q.prologue, q.sr, None, er).value;
    var i := Start(su, XX, true, other, q.si, None, ei).value;
    var r0 := Start(su, XX, false, other, q.sr, None, er).value;
    FirstFollows(su, q, i0, r, gi, gr, p1);
    FirstFollows(su, q', i, r0, gi, gr, p1);
    var i1, i', r1 := WriteMessage(su, i0, p1, gi).0, WriteMessage(su, i, p1, gi).0,
                      ReadMessage(su, r0, Wire1(su, q, p1)).0;
    SecondFollows(su, q', i', r1, gi, gr, p1, p2);
    RefusesStatic(su, q, i1, p1, StaticR(su, q', p1), Absorb(su, Initial(su, q'), Parts1(su, q', p1) + [q.er.pub]),
                  Cipher2(su, q', p1, p2));
  }

  lemma RefusesStatic(su: Suite, q: Parties, d: Handshake, p1: Bytes, c: Bytes, ad: Bytes, last: Bytes)
    requires su.Lawful() && AllHonest(su, q) && d.initiator && d.e == Some(q.ei) && d.psk == q.psk && q.psk.None?
    requires Before(su, q, d.sym, 1, p1, [], []) && d.index == 1 && d.messages == Pattern(ProtocolOf(q))
    requires Binds(su, Derived(su, q, 0, 2), HashS(su, q, p1), ad)
             && c == su.seal(Derived(su, q, 0, 2), 0, ad, q.sr.pub)
    ensures ReadMessage(su, d, q.er.pub + c + last).1 == None
  {
    var msg, ts := q.er.pub + c + last, Pattern(ProtocolOf(q))[1];
    WireParts(su, q.er.pub, c, last);
    SecondRest(q);
    ReadsToStatic(su, q, d, ts, msg);
    SecondEE(su, q, d.sym, p1);
    var ee := MixKey(su, MixEphemeral(su, d.sym, false, q.er.pub), Shared(su, q.ei, q.er));
    OpensForOwnDataOnly(su, ee, Derived(su, q, 0, 2), ad, q.sr.pub);
    ReadsStatic(su, d.(re := Some(q.er.pub), sym := ee), ts[1..][1..], msg, c);
  }

  /** In XXpsk2 already the responder's read of message 1 throws. */
  lemma WrongPrologueIsRefusedAtOnce(su: Suite, q: Parties, other: Bytes, ei: Option<KeyPair>, er: Option<KeyPair>,
                                     gi: KeyPair,
                                     gr: KeyPair, p1: Bytes)
    requires AllLawful(su, q, gi, gr) && q.psk.Some?
    requires Binds(su, Derived(su, q, 0, 2), Hash1(su, q.(prologue := other)), Hash1(su, q))
    requires (if ei.Some? then ei.value else gi) == q.ei && (if er.Some? then er.value else gr) == q.er
    requires |p1| <= Limit(XXpsk2, 0)
    ensures var i0 := Start(su, XXpsk2, true, q.prologue, q.si, q.psk, ei);
            var r0 := Start(su, XXpsk2, false, other, q.sr, q.psk, er);
            && i0.Some? && r0.Some?
            && var (i1, m1) := WriteMessage(su, i0.value, p1, gi);
            m1.Some? && ReadMessage(su, r0.value, m1.value).1 == None
  {
    var q' := q.(prologue := other);
    PrologueInNoKey(su, q, other);
    StartFollows(su, q, ei, er, gi, gr);
    StartFollows(su, q', ei, er, gi, gr);
    var i0 := Start(su, XXpsk2, true, q.prologue, q.si, q.psk, ei).value;
    var r := Start(su, XXpsk2, false, q.prologue, q.sr, q.psk, er).value;
    var r0 := Start(su, XXpsk2, false, other, q.sr, q.psk, er).value;
    FirstFollows(su, q, i0, r, gi, gr, p1);
    RefusesFirst(su, q', r0, Absorb(su, Initial(su, q), [q.prologue, q.ei.pub]), p1);
  }

  lemma RefusesFirst(su: Suite, q: Parties, d: Handshake, ad: Bytes, p1: Bytes)
    requires su.Lawful() && Honest(su, q.ei) && d.psk == q.psk && q.psk.Some? && d.index == 0
             && d.messages == Pattern(ProtocolOf(q))
    requires At(su, q, d.sym, 0, [q.prologue], None, 0) && Binds(su, Derived(su, q, 0, 2), Hash1(su, q), ad)
    ensures ReadMessage(su, d, q.ei.pub + su.seal(Derived(su, q, 0, 2), 0, ad, p1)).1 == None
  {
    var c := su.seal(Derived(su, q, 0, 2), 0, ad, p1);
    var msg, ts := q.ei.pub + c, [E];
    var y := MixEphemeral(su, d.sym, true, q.ei.pub);
    assert msg[0..0 + KEY_BYTES] == q.ei.pub && msg[KEY_BYTES..] == c && ts[1..] == [];
    ReadCons(su, d, ts, msg, 0, d.(re := Some(q.ei.pub), sym := y), KEY_BYTES);
    EphemeralAt(su, q, d.sym, 0, [q.prologue], None, 0, q.ei.pub);
    assert [q.prologue] + [q.ei.pub] == [q.prologue, q.ei.pub];
    OpensForOwnDataOnly(su, y, Derived(su, q, 0, 2), ad, p1);
  }
}
