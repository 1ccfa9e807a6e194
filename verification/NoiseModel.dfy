/**
 packages/core/noise.ts as functions on values: the CipherState, SymmetricState and HandshakeState
 of the Noise Protocol Framework (revision 34, sections 5.1, 5.2, 5.3, 9.2), and Stim's transport.
 A thrown error is `None`. The primitives are a parameter, `Suite`, with the laws the proofs use.
 */
module NoiseModel {
  import opened Options

  type Byte = n: int | 0 <= n < 256
  type Bytes = seq<Byte>

  const KEY_BYTES: nat := 32
  const HASH_BYTES: nat := 32
  const TAG_BYTES: nat := 16
  const MAX_HANDSHAKE_MESSAGE_BYTES: nat := 1024
  const MAX_NONCE: nat := 0xFFFF_FFFF_FFFF_FFFF
  const TEXT: Byte := 1
  const BINARY: Byte := 2

  /** SHA-256, HMAC, X25519 (`None` for a low-order key), its public keys, ChaCha20-Poly1305, and strict UTF-8. */
  datatype Suite = Suite(
    hash: Bytes -> Bytes,
    hmac: (Bytes, Bytes) -> Bytes,
    dh: (Bytes, Bytes) -> Option<Bytes>,
    pub: Bytes -> Bytes,
    seal: (Bytes, nat, Bytes, Bytes) -> Bytes,
    open: (Bytes, nat, Bytes, Bytes) -> Option<Bytes>,
    utf8: Bytes -> bool)
  {
    ghost predicate Lengths() {
      && (forall x :: |hash(x)| == HASH_BYTES)
      && (forall k, x :: |hmac(k, x)| == HASH_BYTES)
      && (forall a :: |pub(a)| == KEY_BYTES)
      && (forall k, n, ad, p :: |seal(k, n, ad, p)| == |p| + TAG_BYTES)
    }

    /** X25519 commutes on honest keys and never fails on them. */
    ghost predicate Agrees() {
      forall a, b :: dh(a, pub(b)).Some? && dh(a, pub(b)) == dh(b, pub(a))
    }

    /**
     Opening inverts sealing, and accepts nothing but what sealing under the same key, nonce and
     associated data gives.
     */
    ghost predicate Opens() {
      && (forall k, n, ad, p :: open(k, n, ad, seal(k, n, ad, p)) == Some(p))
      && (forall k, n, ad, c :: open(k, n, ad, c).Some? ==> seal(k, n, ad, open(k, n, ad, c).value) == c)
    }

    ghost predicate Lawful() {
      Lengths() && Agrees() && Opens()
    }

    /** Idealised: under one key and empty associated data, two usable nonces never give one ciphertext. */
    ghost predicate Separates(k: Bytes) {
      forall n: nat, m: nat, p, q | n < MAX_NONCE && m < MAX_NONCE && seal(k, n, [], p) == seal(k, m, [], q) :: n == m
    }
  }

  function Zeros(n: nat): Bytes {
    seq(n, _ => 0)
  }

  /** Section 4.3: HKDF as three chained HMACs. */
  function Hkdf1(su: Suite, ck: Bytes, input: Bytes): Bytes {
    su.hmac(su.hmac(ck, input), [1])
  }

  function Hkdf2(su: Suite, ck: Bytes, input: Bytes): Bytes {
    su.hmac(su.hmac(ck, input), Hkdf1(su, ck, input) + [2])
  }

  function Hkdf3(su: Suite, ck: Bytes, input: Bytes): Bytes {
    su.hmac(su.hmac(ck, input), Hkdf2(su, ck, input) + [3])
  }

  // ---------------------------------------------------------------- CipherState, section 5.1

  datatype Cipher = Cipher(k: Option<Bytes>, n: nat)

  function Keyed(k: Bytes): Cipher {
    Cipher(Some(k), 0)
  }

  function Encrypt(su: Suite, c: Cipher, ad: Bytes, plain: Bytes): Option<(Cipher, Bytes)> {
    if c.k.None? then Some((c, plain))
    else if c.n >= MAX_NONCE then None
    else Some((c.(n := c.n + 1), su.seal(c.k.value, c.n, ad, plain)))
  }

  function Decrypt(su: Suite, c: Cipher, ad: Bytes, text: Bytes): Option<(Cipher, Bytes)> {
    if c.k.None? then Some((c, text))
    else if c.n >= MAX_NONCE || |text| < TAG_BYTES || su.open(c.k.value, c.n, ad, text).None? then None
    else Some((c.(n := c.n + 1), su.open(c.k.value, c.n, ad, text).value))
  }

  // ---------------------------------------------------------------- SymmetricState, section 5.2

  datatype Symmetric = Symmetric(ck: Bytes, h: Bytes, cipher: Cipher)

  function InitSymmetric(su: Suite, name: Bytes): Symmetric {
    var h := if |name| <= HASH_BYTES then name + Zeros(HASH_BYTES - |name|) else su.hash(name);
    Symmetric(h, h, Cipher(None, 0))
  }

  function MixHash(su: Suite, y: Symmetric, data: Bytes): Symmetric {
    y.(h := su.hash(y.h + data))
  }

  function MixKey(su: Suite, y: Symmetric, input: Bytes): Symmetric {
    Symmetric(Hkdf1(su, y.ck, input), y.h, Keyed(Hkdf2(su, y.ck, input)))
  }

  function MixKeyAndHash(su: Suite, y: Symmetric, input: Bytes): Symmetric {
    Symmetric(Hkdf1(su, y.ck, input), su.hash(y.h + Hkdf2(su, y.ck, input)), Keyed(Hkdf3(su, y.ck, input)))
  }

  function EncryptAndHash(su: Suite, y: Symmetric, plain: Bytes): Option<(Symmetric, Bytes)> {
    match Encrypt(su, y.cipher, y.h, plain)
    case None => None
    case Some((c, text)) => Some((Symmetric(y.ck, su.hash(y.h + text), c), text))
  }

  function DecryptAndHash(su: Suite, y: Symmetric, text: Bytes): Option<(Symmetric, Bytes)> {
    match Decrypt(su, y.cipher, y.h, text)
    case None => None
    case Some((c, plain)) => Some((Symmetric(y.ck, su.hash(y.h + text), c), plain))
  }

  // ---------------------------------------------------------------- HandshakeState, section 5.3

  datatype Token = E | S | EE | ES | SE | PSK

  datatype Protocol = XX | XXpsk2

  function Pattern(p: Protocol): seq<seq<Token>> {
    match p
    case XX => [[E], [E, EE, S, ES], [S, SE]]
    case XXpsk2 => [[E], [E, EE, S, ES, PSK], [S, SE]]
  }

  /** The ASCII protocol names. */
  function Name(p: Protocol): string {
    match p
    case XX => "Noise_XX_25519_ChaChaPoly_SHA256"
    case XXpsk2 => "Noise_XXpsk2_25519_ChaChaPoly_SHA256"
  }

  function Ascii(s: string): Bytes {
    seq(|s|, i requires 0 <= i < |s| => s[i] as int % 256)
  }

  datatype KeyPair = KeyPair(priv: Bytes, pub: Bytes)

  ghost predicate Honest(su: Suite, k: KeyPair) {
    k.pub == su.pub(k.priv)
  }

  datatype Handshake = Handshake(
    sym: Symmetric,
    messages: seq<seq<Token>>,
    initiator: bool,
    s: KeyPair,
    psk: Option<Bytes>,
    e: Option<KeyPair>,
    re: Option<Bytes>,
    rs: Option<Bytes>,
    index: nat,
    failed: bool,
    split: bool)

  /** The constructor: a PSK is required for XXpsk2 and refused for XX, and is 32 bytes. */
  function Start(su: Suite, p: Protocol, initiator: bool, prologue: Bytes, s: KeyPair,
                 psk: Option<Bytes>, e: Option<KeyPair>): Option<Handshake> {
    if (p == XXpsk2) != psk.Some? || (psk.Some? && |psk.value| != KEY_BYTES) then None
    else Some(Handshake(MixHash(su, InitSymmetric(su, Ascii(Name(p))), prologue), Pattern(p), initiator, s,
                        psk, e, None, None, 0, false, false))
  }

  /** Section 9.2: in a PSK handshake every "e" token also mixes the ephemeral key into the chaining key. */
  function MixEphemeral(su: Suite, y: Symmetric, psk: bool, key: Bytes): Symmetric {
    if psk then MixKey(su, MixHash(su, y, key), key) else MixHash(su, y, key)
  }

  /** The shared secret a DH token mixes, seen from one side; `None` when a key is missing or X25519 refuses it. */
  function Secret(su: Suite, hs: Handshake, t: Token): Option<Bytes> {
    if hs.e.None? then None else
    match t
    case EE => if hs.re.Some? then su.dh(hs.e.value.priv, hs.re.value) else None
    case ES =>
      if hs.initiator then (if hs.rs.Some? then su.dh(hs.e.value.priv, hs.rs.value) else None)
      else if hs.re.Some? then su.dh(hs.s.priv, hs.re.value) else None
    case SE =>
      if hs.initiator then (if hs.re.Some? then su.dh(hs.s.priv, hs.re.value) else None)
      else if hs.rs.Some? then su.dh(hs.e.value.priv, hs.rs.value) else None
    case _ => None
  }

  function MixToken(su: Suite, hs: Handshake, t: Token): Option<Handshake> {
    if t == PSK then
      if hs.psk.Some? then Some(hs.(sym := MixKeyAndHash(su, hs.sym, hs.psk.value))) else None
    else if Secret(su, hs, t).Some? then Some(hs.(sym := MixKey(su, hs.sym, Secret(su, hs, t).value)))
    else None
  }

  /** One token of a message being written, and the bytes it appends; `gen` is the ephemeral a first "e" generates. */
  function WriteToken(su: Suite, hs: Handshake, t: Token, gen: KeyPair): Option<(Handshake, Bytes)> {
    if t == E then
      var e := if hs.e.Some? then hs.e.value else gen;
      Some((hs.(e := Some(e), sym := MixEphemeral(su, hs.sym, hs.psk.Some?, e.pub)), e.pub))
    else if t == S then
      match EncryptAndHash(su, hs.sym, hs.s.pub)
      case None => None
      case Some((y, part)) => Some((hs.(sym := y), part))
    else
      match MixToken(su, hs, t)
      case None => None
      case Some(hs') => Some((hs', []))
  }

  function WriteTokens(su: Suite, hs: Handshake, ts: seq<Token>, gen: KeyPair): Option<(Handshake, Bytes)>
    decreases |ts|
  {
    if ts == [] then Some((hs, [])) else
    match WriteToken(su, hs, ts[0], gen)
    case None => None
    case Some((hs', part)) =>
      match WriteTokens(su, hs', ts[1..], gen)
      case None => None
      case Some((hs'', rest)) => Some((hs'', part + rest))
  }

  /** The length of an encrypted static key: 48 once a key is mixed, else 32. */
  function StaticLength(y: Symmetric): nat {
    KEY_BYTES + if y.cipher.k.Some? then TAG_BYTES else 0
  }

  /** One token of a message being read, from `offset` on, and the new offset. */
  function ReadToken(su: Suite, hs: Handshake, t: Token, msg: Bytes, offset: nat): Option<(Handshake, nat)>
    requires offset <= |msg|
  {
    if t == E then
      if |msg| - offset < KEY_BYTES then None
      else var re := msg[offset..offset + KEY_BYTES];
        Some((hs.(re := Some(re), sym := MixEphemeral(su, hs.sym, hs.psk.Some?, re)), offset + KEY_BYTES))
    else if t == S then
      var length := StaticLength(hs.sym);
      if |msg| - offset < length then None
      else match DecryptAndHash(su, hs.sym, msg[offset..offset + length])
        case None => None
        case Some((y, rs)) => Some((hs.(sym := y, rs := Some(rs)), offset + length))
    else
      match MixToken(su, hs, t)
      case None => None
      case Some(hs') => Some((hs', offset))
  }

  function ReadTokens(su: Suite, hs: Handshake, ts: seq<Token>, msg: Bytes, offset: nat): (r: Option<(Handshake, nat)>)
    requires offset <= |msg|
    ensures r.Some? ==> offset <= r.value.1 <= |msg|
    decreases |ts|
  {
    if ts == [] then Some((hs, offset)) else
    match ReadToken(su, hs, ts[0], msg, offset)
    case None => None
    case Some((hs', o)) => ReadTokens(su, hs', ts[1..], msg, o)
  }

  /** Whether `#step` lets this call run its tokens. */
  predicate MayStep(hs: Handshake, writing: bool) {
    !hs.failed && hs.index < |hs.messages| && writing == (hs.initiator == (hs.index % 2 == 0))
  }

  function RunWrite(su: Suite, hs: Handshake, payload: Bytes, gen: KeyPair): Option<(Handshake, Bytes)>
    requires hs.index < |hs.messages|
  {
    match WriteTokens(su, hs, hs.messages[hs.index], gen)
    case None => None
    case Some((hs', parts)) =>
      match EncryptAndHash(su, hs'.sym, payload)
      case None => None
      case Some((y, last)) =>
        if |parts + last| > MAX_HANDSHAKE_MESSAGE_BYTES then None else Some((hs'.(sym := y), parts + last))
  }

  function RunRead(su: Suite, hs: Handshake, msg: Bytes): Option<(Handshake, Bytes)>
    requires hs.index < |hs.messages|
  {
    if |msg| > MAX_HANDSHAKE_MESSAGE_BYTES then None else
    match ReadTokens(su, hs, hs.messages[hs.index], msg, 0)
    case None => None
    case Some((hs', offset)) =>
      match DecryptAndHash(su, hs'.sym, msg[offset..])
      case None => None
      case Some((y, payload)) => Some((hs'.(sym := y), payload))
  }

  /** writeMessage: the state after it and the message, or the failed state and `None`. */
  function WriteMessage(su: Suite, hs: Handshake, payload: Bytes, gen: KeyPair): (Handshake, Option<Bytes>) {
    if !MayStep(hs, true) || RunWrite(su, hs, payload, gen).None? then (hs.(failed := true), None)
    else var (hs', msg) := RunWrite(su, hs, payload, gen).value; (hs'.(index := hs'.index + 1), Some(msg))
  }

  function ReadMessage(su: Suite, hs: Handshake, msg: Bytes): (Handshake, Option<Bytes>) {
    if !MayStep(hs, false) || RunRead(su, hs, msg).None? then (hs.(failed := true), None)
    else var (hs', payload) := RunRead(su, hs, msg).value; (hs'.(index := hs'.index + 1), Some(payload))
  }

  predicate Complete(hs: Handshake) {
    hs.index == |hs.messages|
  }

  datatype Keys = Keys(send: Cipher, receive: Cipher)

  /** Split(): this side's sending and receiving cipher states, once, after the last message. */
  function Split(su: Suite, hs: Handshake): (Handshake, Option<Keys>) {
    if hs.failed || !Complete(hs) || hs.split then (hs, None)
    else
      var first, second := Keyed(Hkdf1(su, hs.sym.ck, [])), Keyed(Hkdf2(su, hs.sym.ck, []));
      (hs.(split := true), Some(if hs.initiator then Keys(first, second) else Keys(second, first)))
  }

  // ---------------------------------------------------------------- NoiseTransport

  /** What a caller passes and gets: text by its UTF-8 bytes, or bytes. */
  datatype Message = Text(body: Bytes) | Binary(body: Bytes)

  datatype Transport = Transport(send: Cipher, receive: Cipher, maxSend: nat, maxReceive: nat, closed: bool)

  datatype SendResult = Sent(wire: Bytes) | TooLarge | SendFailed

  function Frame(m: Message): Bytes {
    [if m.Text? then TEXT else BINARY] + m.body
  }

  /** encrypt: an oversized message throws a RangeError and changes nothing; any other error closes the transport. */
  function TransportEncrypt(su: Suite, tr: Transport, m: Message): (Transport, SendResult) {
    if tr.closed then (tr, SendFailed)
    else if |m.body| > tr.maxSend then (tr, TooLarge)
    else match Encrypt(su, tr.send, [], Frame(m))
      case None => (tr.(closed := true), SendFailed)
      case Some((c, wire)) => (tr.(send := c), Sent(wire))
  }

  function Unframe(su: Suite, plain: Bytes): Option<Message> {
    if plain != [] && plain[0] == TEXT && su.utf8(plain[1..]) then Some(Text(plain[1..]))
    else if plain != [] && plain[0] == BINARY then Some(Binary(plain[1..]))
    else None
  }

  /** decrypt: any failure, of size, authentication or type, closes the transport. */
  function TransportDecrypt(su: Suite, tr: Transport, wire: Bytes): (Transport, Option<Message>) {
    if tr.closed then (tr, None)
    else if |wire| > tr.maxReceive + 1 + TAG_BYTES then (tr.(closed := true), None)
    else match Decrypt(su, tr.receive, [], wire)
      case None => (tr.(closed := true), None)
      case Some((c, plain)) =>
        match Unframe(su, plain)
        case None => (tr.(receive := c, closed := true), None)
        case Some(m) => (tr.(receive := c), Some(m))
  }
}
