/**
 The first WebSocket message of packages/core/noise-session.ts: a cleartext prefix (version, mode,
 and at first contact a 16-byte lookup) and then Noise message 1, whose prologue authenticates it.
 */
module FirstMessage {
  import opened Options
  import opened NoiseModel
  import opened NoiseHandshake

  const STIM_PROTOCOL_VERSION: Byte := 2
  const LOOKUP_BYTES: nat := 16
  const MAX_PREFIX_BYTES: nat := 2 + LOOKUP_BYTES
  const MAX_FIRST_MESSAGE_BYTES: nat := MAX_PREFIX_BYTES + MAX_HANDSHAKE_MESSAGE_BYTES

  datatype Mode = Returning | FirstContact

  function ModeByte(mode: Mode): Byte {
    if mode == Returning then 0 else 1
  }

  /** The Noise protocol of each mode. */
  function ProtocolOf(mode: Mode): Protocol {
    if mode == Returning then XX else XXpsk2
  }

  /** handshakePrefix: a lookup exactly at first contact, of 16 bytes. */
  function Prefix(mode: Mode, lookup: Option<Bytes>): Option<Bytes> {
    if (mode == FirstContact) != lookup.Some? || (lookup.Some? && |lookup.value| != LOOKUP_BYTES) then None
    else Some([STIM_PROTOCOL_VERSION, ModeByte(mode)] + if lookup.Some? then lookup.value else [])
  }

  datatype First =
    | Opened(mode: Mode, lookup: Option<Bytes>, prefix: Bytes, message: Bytes)
    | ProtocolUnsupported
    | HandshakeFailed

  function ParseFirst(b: Bytes): First {
    if |b| < 1 || b[0] != STIM_PROTOCOL_VERSION then ProtocolUnsupported
    else if |b| > MAX_FIRST_MESSAGE_BYTES then HandshakeFailed
    else if |b| >= 2 && b[1] == 0 then Opened(Returning, None, b[..2], b[2..])
    else if |b| >= 2 && b[1] == 1 && |b| >= MAX_PREFIX_BYTES then
      Opened(FirstContact, Some(b[2..MAX_PREFIX_BYTES]), b[..MAX_PREFIX_BYTES], b[MAX_PREFIX_BYTES..])
    else HandshakeFailed
  }

  /** handshakePrologue. */
  function Prologue(prefix: Bytes): Bytes {
    Ascii("stim noise v1") + prefix
  }

  /** A prefix and a message come apart again exactly when together they are within the limit. */
  lemma ParseInvertsPrefix(mode: Mode, lookup: Option<Bytes>, message: Bytes)
    requires Prefix(mode, lookup).Some?
    ensures var prefix := Prefix(mode, lookup).value;
            ParseFirst(prefix + message) ==
              if |prefix| + |message| <= MAX_FIRST_MESSAGE_BYTES then Opened(mode, lookup, prefix, message)
              else HandshakeFailed
  {
    var prefix := Prefix(mode, lookup).value;
    var b := prefix + message;
    assert b[0] == STIM_PROTOCOL_VERSION && b[1] == ModeByte(mode);
    assert b[..|prefix|] == prefix && b[|prefix|..] == message;
    if mode == FirstContact { assert b[2..MAX_PREFIX_BYTES] == lookup.value; }
  }

  /** Whatever parses is a prefix handshakePrefix writes, and the message behind it. */
  lemma ParsedIsPrefixed(b: Bytes)
    requires ParseFirst(b).Opened?
    ensures var f := ParseFirst(b); Prefix(f.mode, f.lookup) == Some(f.prefix) && b == f.prefix + f.message
  {
    var f := ParseFirst(b);
    assert b == f.prefix + f.message;
    if f.mode == FirstContact {
      assert f.prefix == [b[0], b[1]] + b[2..MAX_PREFIX_BYTES];
    } else {
      assert f.prefix == [b[0], b[1]] == [b[0], b[1]] + [];
    }
  }

  /** A prefix, byte by byte, and exactly when there is one. */
  lemma PrefixBytes(mode: Mode, lookup: Option<Bytes>)
    ensures Prefix(mode, lookup).Some? <==>
              (mode == Returning && lookup == None) || (mode == FirstContact && lookup.Some? && |lookup.value| == 16)
    ensures Prefix(mode, lookup).Some? ==>
              Prefix(mode, lookup).value == if mode == Returning then [2, 0] else [2, 1] + lookup.value
  {
  }

  /** What cannot be parsed: another version, or a message too long or too short for its mode. */
  lemma ErrorsExactly(b: Bytes)
    ensures ParseFirst(b) == ProtocolUnsupported <==> b == [] || b[0] != 2
    ensures ParseFirst(b) == HandshakeFailed <==>
              b != [] && b[0] == 2
              && (|b| > 1042 || |b| == 1 || b[1] > 1 || (b[1] == 1 && |b| < 18))
  {
  }

  /** Equal prologues come only from equal modes and lookups. */
  lemma PrologueBinds(m1: Mode, l1: Option<Bytes>, m2: Mode, l2: Option<Bytes>)
    requires Prefix(m1, l1).Some? && Prefix(m2, l2).Some?
    requires Prologue(Prefix(m1, l1).value) == Prologue(Prefix(m2, l2).value)
    ensures m1 == m2 && l1 == l2
  {
    var a, b := Prefix(m1, l1).value, Prefix(m2, l2).value;
    assert Prologue(a)[13..] == a && Prologue(b)[13..] == b;
    ParseInvertsPrefix(m1, l1, []);
    ParseInvertsPrefix(m2, l2, []);
  }

  /**
   A first message arrives whole: for every mode, lookup, key, PSK and payload within the limit, the
   server recovers mode, lookup and prefix from the bytes, starts from the prologue they give, and
   reads the client's payload; both sides then stand before message 2 in one state.
   */
  lemma FirstMessageArrives(su: Suite, mode: Mode, lookup: Option<Bytes>, si: KeyPair, sr: KeyPair, psk: Option<Bytes>,
                            gi: KeyPair, payload: Bytes)
    requires su.Lawful() && Honest(su, si) && Honest(su, sr) && Honest(su, gi)
    requires Prefix(mode, lookup).Some? && (mode == FirstContact) == psk.Some?
             && (psk.Some? ==> |psk.value| == KEY_BYTES)
    ensures var prefix, p := Prefix(mode, lookup).value, ProtocolOf(mode);
            && Start(su, p, true, Prologue(prefix), si, psk, None).Some?
            && var (i', msg) := WriteMessage(su, Start(su, p, true, Prologue(prefix), si, psk, None).value, payload,
                                             gi);
            && (msg.Some? <==> |payload| <= Limit(p, 0))
            && (msg.Some? ==>
                  var f := ParseFirst(prefix + msg.value);
                  && f == Opened(mode, lookup, prefix, msg.value)
                  && Start(su, ProtocolOf(f.mode), false, Prologue(f.prefix), sr, psk, None).Some?
                  && var (r', got) := ReadMessage(su,
                                                  Start(su, ProtocolOf(f.mode), false, Prologue(f.prefix), sr, psk,
                                                        None).value, f.message);
                     got == Some(payload) && Stage(su, p, i', r', 1))
  {
    var prefix, p := Prefix(mode, lookup).value, ProtocolOf(mode);
    Begin(su, p, Prologue(prefix), si, sr, psk, None, None);
    var i, r := Start(su, p, true, Prologue(prefix), si, psk, None).value,
                Start(su, p, false, Prologue(prefix), sr, psk, None).value;
    Exchange(su, p, i, r, 0, payload, gi);
    var msg := WriteMessage(su, i, payload, gi).1;
    if msg.Some? {
      assert |msg.value| <= MAX_HANDSHAKE_MESSAGE_BYTES;
      ParseInvertsPrefix(mode, lookup, msg.value);
    }
  }
}
