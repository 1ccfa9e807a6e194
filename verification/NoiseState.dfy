/**
 packages/core/noise.ts in its own form: objects whose methods update a key, a counter, hashes, an
 index and flags. Each method is tied to the function of NoiseModel that computes its new state, so
 that the theorems of NoiseHandshake and NoiseRuns are about these objects. A throw is `None`.
 */
module NoiseState {
  import opened Options
  import opened NoiseModel

  /** Noise's CipherState: a key and a counter used as the nonce. */
  class CipherState {
    var k: Option<Bytes>
    var n: nat

    ghost function Value(): Cipher
      reads this
    {
      Cipher(k, n)
    }

    constructor (key: Option<Bytes>)
      ensures Value() == Cipher(key, 0)
    {
      k, n := key, 0;
    }

    /** The constructor with its check: a key is 32 bytes. */
    static method Create(key: Option<Bytes>) returns (c: Option<CipherState>)
      ensures c.Some? <==> key.None? || |key.value| == KEY_BYTES
      ensures c.Some? ==> fresh(c.value) && c.value.Value() == Cipher(key, 0)
    {
      if key.Some? && |key.value| != KEY_BYTES { return None; }
      var made := new CipherState(key);
      return Some(made);
    }

    method EncryptWithAd(su: Suite, ad: Bytes, plain: Bytes) returns (r: Option<Bytes>)
      modifies this
      ensures match Encrypt(su, old(Value()), ad, plain)
              case None => r.None? && Value() == old(Value())
              case Some((c, text)) => r == Some(text) && Value() == c
    {
      if k.None? { return Some(plain); }
      if n >= MAX_NONCE { return None; }
      var text := su.seal(k.value, n, ad, plain);
      n := n + 1;
      return Some(text);
    }

    method DecryptWithAd(su: Suite, ad: Bytes, text: Bytes) returns (r: Option<Bytes>)
      modifies this
      ensures match Decrypt(su, old(Value()), ad, text)
              case None => r.None? && Value() == old(Value())
              case Some((c, plain)) => r == Some(plain) && Value() == c
    {
      if k.None? { return Some(text); }
      if n >= MAX_NONCE { return None; }
      if |text| < TAG_BYTES { return None; }
      var plain := su.open(k.value, n, ad, text);
      if plain.None? { return None; }
      n := n + 1;
      return plain;
    }
  }

  /** Noise's SymmetricState; mixing a key replaces its cipher state by a fresh one. */
  class SymmetricState {
    var ck: Bytes
    var h: Bytes
    var cipher: CipherState

    ghost function Value(): Symmetric
      reads this, cipher
    {
      Symmetric(ck, h, cipher.Value())
    }

    constructor (su: Suite, p: Protocol)
      ensures Value() == InitSymmetric(su, Ascii(Name(p))) && fresh(cipher)
    {
      var name := Ascii(Name(p));
      var first := if |name| <= HASH_BYTES then name + Zeros(HASH_BYTES - |name|) else su.hash(name);
      h, ck := first, first;
      cipher := new CipherState(None);
    }

    method MixKey(su: Suite, input: Bytes)
      modifies this
      ensures Value() == NoiseModel.MixKey(su, old(Value()), input) && fresh(cipher)
    {
      var k := Hkdf2(su, ck, input);
      ck := Hkdf1(su, ck, input);
      cipher := new CipherState(Some(k));
    }

    method MixHash(su: Suite, data: Bytes)
      modifies this`h
      ensures Value() == NoiseModel.MixHash(su, old(Value()), data)
    {
      h := su.hash(h + data);
    }

    method MixKeyAndHash(su: Suite, input: Bytes)
      modifies this
      ensures Value() == NoiseModel.MixKeyAndHash(su, old(Value()), input) && fresh(cipher)
    {
      var first, second, third := Hkdf1(su, ck, input), Hkdf2(su, ck, input), Hkdf3(su, ck, input);
      ck := first;
      MixHash(su, second);
      cipher := new CipherState(Some(third));
    }

    method EncryptAndHash(su: Suite, plain: Bytes) returns (r: Option<Bytes>)
      modifies this`h, cipher
      ensures match NoiseModel.EncryptAndHash(su, old(Value()), plain)
              case None => r.None? && Value() == old(Value())
              case Some((y, text)) => r == Some(text) && Value() == y
    {
      r := cipher.EncryptWithAd(su, h, plain);
      if r.Some? { MixHash(su, r.value); }
    }

    method DecryptAndHash(su: Suite, text: Bytes) returns (r: Option<Bytes>)
      modifies this`h, cipher
      ensures match NoiseModel.DecryptAndHash(su, old(Value()), text)
              case None => r.None? && Value() == old(Value())
              case Some((y, plain)) => r == Some(plain) && Value() == y
    {
      r := cipher.DecryptWithAd(su, h, text);
      if r.Some? { MixHash(su, text); }
    }
  }

  /** What is still to come of a token list, after `parts` were written. */
  ghost function Prepend(parts: Bytes, rest: Option<(Handshake, Bytes)>): Option<(Handshake, Bytes)> {
    match rest
    case None => None
    case Some((hs, bytes)) => Some((hs, parts + bytes))
  }

  lemma PrependStep(su: Suite, hs: Handshake, ts: seq<Token>, gen: KeyPair, parts: Bytes)
    requires ts != []
    ensures WriteToken(su, hs, ts[0], gen).None? ==> Prepend(parts, WriteTokens(su, hs, ts, gen)).None?
    ensures WriteToken(su, hs, ts[0], gen).Some? ==>
              var (hs', part) := WriteToken(su, hs, ts[0], gen).value;
              Prepend(parts, WriteTokens(su, hs, ts, gen)) == Prepend(parts + part, WriteTokens(su, hs', ts[1..], gen))
  {
    if WriteToken(su, hs, ts[0], gen).Some? {
      var (hs', part) := WriteToken(su, hs, ts[0], gen).value;
      var rest := WriteTokens(su, hs', ts[1..], gen);
      if rest.Some? { assert parts + (part + rest.value.1) == (parts + part) + rest.value.1; }
    }
  }

  class HandshakeState {
    const su: Suite
    const symmetric: SymmetricState
    const messages: seq<seq<Token>>
    const initiator: bool
    const s: KeyPair
    const psk: Option<Bytes>
    var e: Option<KeyPair>
    var re: Option<Bytes>
    var rs: Option<Bytes>
    var index: nat
    var failed: bool
    var split: bool

    ghost function Value(): Handshake
      reads this, symmetric, symmetric.cipher
    {
      Handshake(symmetric.Value(), messages, initiator, s, psk, e, re, rs, index, failed, split)
    }

    constructor (su: Suite, p: Protocol, initiator: bool, prologue: Bytes, s: KeyPair, psk: Option<Bytes>,
                 e: Option<KeyPair>)
      requires Start(su, p, initiator, prologue, s, psk, e).Some?
      ensures Value() == Start(su, p, initiator, prologue, s, psk, e).value && this.su == su
      ensures fresh(symmetric) && fresh(symmetric.cipher)
    {
      var y := new SymmetricState(su, p);
      y.MixHash(su, prologue);
      this.su, symmetric := su, y;
      messages, this.initiator := Pattern(p), initiator;
      this.s, this.psk, this.e := s, psk, e;
      re, rs, index, failed, split := None, None, 0, false, false;
    }

    /** The constructor with its checks: a PSK exactly for XXpsk2, of 32 bytes. */
    static method Create(su: Suite, p: Protocol, initiator: bool, prologue: Bytes, s: KeyPair, psk: Option<Bytes>,
                         e: Option<KeyPair>)
      returns (hs: Option<HandshakeState>)
      ensures hs.Some? <==> Start(su, p, initiator, prologue, s, psk, e).Some?
      ensures hs.Some? ==> fresh(hs.value) && fresh(hs.value.symmetric) && fresh(hs.value.symmetric.cipher)
      ensures hs.Some? ==> hs.value.su == su && Some(hs.value.Value()) == Start(su, p, initiator, prologue, s, psk, e)
    {
      if (p == XXpsk2) != psk.Some? { return None; }
      if psk.Some? && |psk.value| != KEY_BYTES { return None; }
      var made := new HandshakeState(su, p, initiator, prologue, s, psk, e);
      return Some(made);
    }

    /** isComplete. */
    predicate IsComplete()
      reads this
    {
      index == |messages|
    }

    /** remoteStaticPublicKey: nothing once the handshake has failed. */
    function RemoteStaticPublicKey(): Option<Bytes>
      reads this
    {
      if failed then None else rs
    }

    method MixEphemeral(key: Bytes)
      modifies symmetric
      ensures Value() == old(Value()).(sym := NoiseModel.MixEphemeral(su, old(Value()).sym, psk.Some?, key))
      ensures symmetric.cipher == old(symmetric.cipher) || fresh(symmetric.cipher)
    {
      symmetric.MixHash(su, key);
      if psk.Some? { symmetric.MixKey(su, key); }
    }

    /** X25519 of an own key and a remote one that must have arrived. */
    function X25519(own: KeyPair, remote: Option<Bytes>): Option<Bytes> {
      if remote.None? then None else su.dh(own.priv, remote.value)
    }

    method MixToken(t: Token) returns (ok: bool)
      requires t != E && t != S
      modifies symmetric
      ensures match NoiseModel.MixToken(su, old(Value()), t)
              case None => !ok && Value() == old(Value())
              case Some(hs) => ok && Value() == hs
      ensures symmetric.cipher == old(symmetric.cipher) || fresh(symmetric.cipher)
    {
      if t == PSK {
        if psk.None? { return false; }
        symmetric.MixKeyAndHash(su, psk.value);
        return true;
      }
      if e.None? { return false; }
      var secret := if t == EE then X25519(e.value, re)
                    else if t == ES then (if initiator then X25519(e.value, rs) else X25519(s, re))
                    else if initiator then X25519(s, re) else X25519(e.value, rs);
      if secret.None? { return false; }
      symmetric.MixKey(su, secret.value);
      return true;
    }

    /** One token of writeMessage's loop: the bytes it pushes. */
    method PushToken(t: Token, gen: KeyPair) returns (part: Option<Bytes>)
      modifies this`e, symmetric, symmetric.cipher
      ensures match WriteToken(su, old(Value()), t, gen)
              case None => part.None?
              case Some((hs, bytes)) => part == Some(bytes) && Value() == hs
      ensures symmetric.cipher == old(symmetric.cipher) || fresh(symmetric.cipher)
    {
      if t == E {
        if e.None? { e := Some(gen); }
        MixEphemeral(e.value.pub);
        return Some(e.value.pub);
      } else if t == S {
        part := symmetric.EncryptAndHash(su, s.pub);
      } else {
        var ok := MixToken(t);
        return if ok then Some([]) else None;
      }
    }

    /** One token of readMessage's loop: the new offset. */
    method TakeToken(t: Token, message: Bytes, offset: nat) returns (next: Option<nat>)
      requires offset <= |message|
      modifies this`re, this`rs, symmetric, symmetric.cipher
      ensures match ReadToken(su, old(Value()), t, message, offset)
              case None => next.None?
              case Some((hs, o)) => next == Some(o) && Value() == hs
      ensures symmetric.cipher == old(symmetric.cipher) || fresh(symmetric.cipher)
    {
      if t == E {
        if |message| - offset < KEY_BYTES { return None; }
        re := Some(message[offset..offset + KEY_BYTES]);
        MixEphemeral(re.value);
        return Some(offset + KEY_BYTES);
      } else if t == S {
        var length := KEY_BYTES + if symmetric.cipher.k.Some? then TAG_BYTES else 0;
        if |message| - offset < length { return None; }
        var key := symmetric.DecryptAndHash(su, message[offset..offset + length]);
        if key.None? { return None; }
        rs := key;
        return Some(offset + length);
      } else {
        var ok := MixToken(t);
        return if ok then Some(offset) else None;
      }
    }

    /** The token loop of writeMessage, without its turn check. */
    method RunTokensOut(payload: Bytes, gen: KeyPair) returns (r: Option<Bytes>)
      requires index < |messages|
      modifies this`e, symmetric, symmetric.cipher
      ensures match RunWrite(su, old(Value()), payload, gen)
              case None => r.None?
              case Some((hs, msg)) => r == Some(msg) && Value() == hs
      ensures symmetric.cipher == old(symmetric.cipher) || fresh(symmetric.cipher)
    {
      var tokens := messages[index];
      var parts: Bytes := [];
      ghost var goal := WriteTokens(su, Value(), tokens, gen);
      assert tokens[0..] == tokens && (goal.Some? ==> [] + goal.value.1 == goal.value.1);
      for i := 0 to |tokens|
        invariant goal == Prepend(parts, WriteTokens(su, Value(), tokens[i..], gen))
        invariant symmetric.cipher == old(symmetric.cipher) || fresh(symmetric.cipher)
        modifies this`e, symmetric, symmetric.cipher
      {
        PrependStep(su, Value(), tokens[i..], gen, parts);
        assert tokens[i..][0] == tokens[i] && tokens[i..][1..] == tokens[i + 1..];
        var part := PushToken(tokens[i], gen);
        if part.None? { return None; }
        parts := parts + part.value;
      }
      assert tokens[|tokens|..] == [] && parts + [] == parts;
      var last := symmetric.EncryptAndHash(su, payload);
      if last.None? { return None; }
      if |parts + last.value| > MAX_HANDSHAKE_MESSAGE_BYTES { return None; }
      return Some(parts + last.value);
    }

    /** The token loop of readMessage, without its turn check. */
    method RunTokensIn(message: Bytes) returns (r: Option<Bytes>)
      requires index < |messages|
      modifies this`re, this`rs, symmetric, symmetric.cipher
      ensures match RunRead(su, old(Value()), message)
              case None => r.None?
              case Some((hs, payload)) => r == Some(payload) && Value() == hs
      ensures symmetric.cipher == old(symmetric.cipher) || fresh(symmetric.cipher)
    {
      if |message| > MAX_HANDSHAKE_MESSAGE_BYTES { return None; }
      var tokens := messages[index];
      var offset: nat := 0;
      ghost var goal := ReadTokens(su, Value(), tokens, message, 0);
      assert tokens[0..] == tokens;
      for i := 0 to |tokens|
        invariant offset <= |message|
        invariant goal == ReadTokens(su, Value(), tokens[i..], message, offset)
        invariant symmetric.cipher == old(symmetric.cipher) || fresh(symmetric.cipher)
        modifies this`re, this`rs, symmetric, symmetric.cipher
      {
        assert tokens[i..][0] == tokens[i] && tokens[i..][1..] == tokens[i + 1..];
        var next := TakeToken(tokens[i], message, offset);
        if next.None? { return None; }
        offset := next.value;
      }
      r := symmetric.DecryptAndHash(su, message[offset..]);
    }

    /** What a call that threw leaves: a failed handshake, and a call refused before its tokens changes nothing else. */
    twostate predicate Threw(writing: bool)
      reads this, symmetric, symmetric.cipher
    {
      && failed && index == old(index) && split == old(split)
      && (!MayStep(old(Value()), writing) ==> Value() == old(Value()).(failed := true))
    }

    method WriteMessage(payload: Bytes, gen: KeyPair) returns (r: Option<Bytes>)
      modifies this, symmetric, symmetric.cipher
      ensures var (hs, msg) := NoiseModel.WriteMessage(su, old(Value()), payload, gen);
              r == msg && (r.Some? ==> Value() == hs) && (r.None? ==> Threw(true))
      ensures symmetric.cipher == old(symmetric.cipher) || fresh(symmetric.cipher)
    {
      if failed { return None; }
      if index >= |messages| || initiator != (index % 2 == 0) {
        failed := true;
        return None;
      }
      r := RunTokensOut(payload, gen);
      if r.Some? { index := index + 1; } else { failed := true; }
    }

    method ReadMessage(message: Bytes) returns (r: Option<Bytes>)
      modifies this, symmetric, symmetric.cipher
      ensures var (hs, payload) := NoiseModel.ReadMessage(su, old(Value()), message);
              r == payload && (r.Some? ==> Value() == hs) && (r.None? ==> Threw(false))
      ensures symmetric.cipher == old(symmetric.cipher) || fresh(symmetric.cipher)
    {
      if failed { return None; }
      if index >= |messages| || initiator == (index % 2 == 0) {
        failed := true;
        return None;
      }
      r := RunTokensIn(message);
      if r.Some? { index := index + 1; } else { failed := true; }
    }

    /** Split(): this side's sending and receiving cipher states. */
    method Split() returns (r: Option<(CipherState, CipherState)>)
      modifies this`split
      ensures var (hs, keys) := NoiseModel.Split(su, old(Value()));
              && Value() == hs && (r.Some? <==> keys.Some?)
              && (r.Some? ==> r.value.0.Value() == keys.value.send && r.value.1.Value() == keys.value.receive)
      ensures r.Some? ==> fresh(r.value.0) && fresh(r.value.1) && r.value.0 != r.value.1
    {
      if failed || !IsComplete() || split { return None; }
      split := true;
      var first := new CipherState(Some(Hkdf1(su, symmetric.ck, [])));
      var second := new CipherState(Some(Hkdf2(su, symmetric.ck, [])));
      return if initiator then Some((first, second)) else Some((second, first));
    }
  }

  /** Stim's transport: one sealed message per WebSocket message under the next counter. */
  class NoiseTransport {
    const su: Suite
    const send: CipherState
    const receive: CipherState
    const maxSend: nat
    const maxReceive: nat
    var closed: bool

    ghost function Value(): Transport
      reads this, send, receive
    {
      Transport(send.Value(), receive.Value(), maxSend, maxReceive, closed)
    }

    constructor (su: Suite, send: CipherState, receive: CipherState, maxSend: nat, maxReceive: nat)
      ensures Value() == Transport(send.Value(), receive.Value(), maxSend, maxReceive, false)
      ensures this.su == su && this.send == send && this.receive == receive
    {
      this.su, this.send, this.receive, this.maxSend, this.maxReceive := su, send, receive, maxSend, maxReceive;
      closed := false;
    }

    /** The constructor with its check: both cipher states have keys. */
    static method Create(su: Suite, send: CipherState, receive: CipherState, maxSend: nat, maxReceive: nat)
      returns (tr: Option<NoiseTransport>)
      ensures tr.Some? <==> send.k.Some? && receive.k.Some?
      ensures tr.Some? ==> fresh(tr.value) && tr.value.su == su && tr.value.send == send && tr.value.receive == receive
      ensures tr.Some? ==> tr.value.Value() == Transport(send.Value(), receive.Value(), maxSend, maxReceive, false)
    {
      if send.k.None? || receive.k.None? { return None; }
      var made := new NoiseTransport(su, send, receive, maxSend, maxReceive);
      return Some(made);
    }

    method Encrypt(m: Message) returns (r: SendResult)
      modifies this, send
      ensures var (tr, sent) := TransportEncrypt(su, old(Value()), m);
              && r == sent && closed == tr.closed && send.Value() == tr.send
              && (send != receive ==> Value() == tr)
    {
      if closed { return SendFailed; }
      if |m.body| > maxSend { return TooLarge; }
      var wire := send.EncryptWithAd(su, [], Frame(m));
      if wire.None? {
        closed := true;
        return SendFailed;
      }
      return Sent(wire.value);
    }

    method Decrypt(wire: Bytes) returns (r: Option<Message>)
      modifies this, receive
      ensures var (tr, m) := TransportDecrypt(su, old(Value()), wire);
              && r == m && closed == tr.closed && receive.Value() == tr.receive
              && (send != receive ==> Value() == tr)
    {
      if closed { return None; }
      if |wire| > maxReceive + 1 + TAG_BYTES {
        closed := true;
        return None;
      }
      var plain := receive.DecryptWithAd(su, [], wire);
      if plain.None? {
        closed := true;
        return None;
      }
      if plain.value != [] && plain.value[0] == TEXT && su.utf8(plain.value[1..]) {
        return Some(Text(plain.value[1..]));
      }
      if plain.value != [] && plain.value[0] == BINARY { return Some(Binary(plain.value[1..])); }
      closed := true;
      return None;
    }
  }
}
