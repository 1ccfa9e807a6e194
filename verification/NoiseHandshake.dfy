/**
 The two sides of a handshake as a simulation over token lists: whatever one side writes, the other
 reads, and both stay in one symmetric state. The lemmas hold for every pattern whose tokens only use
 keys that have crossed; XX and XXpsk2 are the two the program uses.
 */
module NoiseHandshake {
  import opened Options
  import opened NoiseModel

  /** Which public keys have crossed: each side's ephemeral and static. */
  datatype Seen = Seen(ei: bool, er: bool, si: bool, sr: bool)

  ghost predicate Peers(su: Suite, i: Handshake, r: Handshake, k: Seen) {
    && i.initiator && !r.initiator && !i.failed && !r.failed
    && i.sym == r.sym && i.messages == r.messages && i.psk == r.psk && i.index == r.index && i.split == r.split
    && Honest(su, i.s) && Honest(su, r.s)
    && (i.e.Some? ==> Honest(su, i.e.value)) && (r.e.Some? ==> Honest(su, r.e.value))
    && (k.ei ==> i.e.Some? && r.re == Some(i.e.value.pub))
    && (k.er ==> r.e.Some? && i.re == Some(r.e.value.pub))
    && (k.si ==> r.rs == Some(i.s.pub))
    && (k.sr ==> i.rs == Some(r.s.pub))
  }

  /** The same, naming the two sides by who writes the next message. */
  ghost predicate Facing(su: Suite, w: Handshake, d: Handshake, k: Seen) {
    if w.initiator then Peers(su, w, d, k) else Peers(su, d, w, k)
  }

  /** A token may be processed once the keys it uses have crossed. */
  predicate Ready(t: Token, k: Seen, psk: bool) {
    match t
    case E | S => true
    case EE => k.ei && k.er
    case ES => k.ei && k.er && k.sr
    case SE => k.ei && k.er && k.si
    case PSK => psk
  }

  function Crossed(t: Token, k: Seen, initiator: bool): Seen {
    match t
    case E => if initiator then k.(ei := true) else k.(er := true)
    case S => if initiator then k.(si := true) else k.(sr := true)
    case _ => k
  }

  predicate AllReady(ts: seq<Token>, k: Seen, psk: bool, initiator: bool)
    decreases |ts|
  {
    ts == [] || (Ready(ts[0], k, psk) && AllReady(ts[1..], Crossed(ts[0], k, initiator), psk, initiator))
  }

  function AllCrossed(ts: seq<Token>, k: Seen, initiator: bool): Seen
    decreases |ts|
  {
    if ts == [] then k else AllCrossed(ts[1..], Crossed(ts[0], k, initiator), initiator)
  }

  // ---------------------------------------------------------------- what is written is read

  lemma SymmetricSync(su: Suite, y: Symmetric, plain: Bytes)
    requires su.Lawful() && EncryptAndHash(su, y, plain).Some?
    ensures var (y', text) := EncryptAndHash(su, y, plain).value;
            && |text| == |plain| + (if y.cipher.k.Some? then TAG_BYTES else 0)
            && DecryptAndHash(su, y, text) == Some((y', plain))
            && y'.cipher.k == y.cipher.k && y'.cipher.n <= y.cipher.n + 1
  {
  }

  lemma SecretSync(su: Suite, w: Handshake, d: Handshake, t: Token, k: Seen)
    requires su.Lawful() && Facing(su, w, d, k) && (t.EE? || t.ES? || t.SE?) && Ready(t, k, w.psk.Some?)
    ensures Secret(su, w, t).Some? && Secret(su, w, t) == Secret(su, d, t)
  {
    var i, r := if w.initiator then w else d, if w.initiator then d else w;
    assert su.dh(i.e.value.priv, su.pub(r.e.value.priv)) == su.dh(r.e.value.priv, su.pub(i.e.value.priv));
    assert su.dh(i.e.value.priv, su.pub(r.s.priv)) == su.dh(r.s.priv, su.pub(i.e.value.priv));
    assert su.dh(i.s.priv, su.pub(r.e.value.priv)) == su.dh(r.e.value.priv, su.pub(i.s.priv));
  }

  lemma MixSync(su: Suite, w: Handshake, d: Handshake, t: Token, k: Seen)
    requires su.Lawful() && Facing(su, w, d, k) && Ready(t, k, w.psk.Some?) && t != E && t != S
    ensures MixToken(su, w, t).Some? && MixToken(su, d, t).Some?
    ensures Facing(su, MixToken(su, w, t).value, MixToken(su, d, t).value, k)
  {
    if t != PSK { SecretSync(su, w, d, t, k); }
  }

  /** The reader's side of one token: it takes the bytes the writer put, and both go on in one state. */
  ghost predicate Synced(su: Suite, w: Handshake, w': Handshake, part: Bytes, t: Token, k: Seen, offset: nat,
                         read: Option<(Handshake, nat)>) {
    && read.Some? && read.value.1 == offset + |part|
    && Facing(su, w', read.value.0, Crossed(t, k, w.initiator)) && w'.initiator == w.initiator && w'.psk == w.psk
  }

  lemma EphemeralSync(su: Suite, w: Handshake, d: Handshake, gen: KeyPair, k: Seen, msg: Bytes, offset: nat)
    requires su.Lawful() && Facing(su, w, d, k) && Honest(su, gen)
    requires var part := WriteToken(su, w, E, gen).value.1;
             offset + |part| <= |msg| && msg[offset..offset + |part|] == part
    ensures var (w', part) := WriteToken(su, w, E, gen).value;
            Synced(su, w, w', part, E, k, offset, ReadToken(su, d, E, msg, offset))
  {
  }

  lemma StaticSync(su: Suite, w: Handshake, d: Handshake, gen: KeyPair, k: Seen, msg: Bytes, offset: nat)
    requires su.Lawful() && Facing(su, w, d, k) && WriteToken(su, w, S, gen).Some?
    requires var part := WriteToken(su, w, S, gen).value.1;
             offset + |part| <= |msg| && msg[offset..offset + |part|] == part
    ensures var (w', part) := WriteToken(su, w, S, gen).value;
            Synced(su, w, w', part, S, k, offset, ReadToken(su, d, S, msg, offset))
  {
    SymmetricSync(su, w.sym, w.s.pub);
  }

  lemma MixTokenShape(su: Suite, hs: Handshake, t: Token, gen: KeyPair, msg: Bytes, offset: nat)
    requires t != E && t != S && offset <= |msg| && MixToken(su, hs, t).Some?
    ensures WriteToken(su, hs, t, gen) == Some((MixToken(su, hs, t).value, []))
    ensures ReadToken(su, hs, t, msg, offset) == Some((MixToken(su, hs, t).value, offset))
    ensures MixToken(su, hs, t).value.initiator == hs.initiator && MixToken(su, hs, t).value.psk == hs.psk
  {
  }

  lemma MixTokenSync(su: Suite, w: Handshake, d: Handshake, t: Token, gen: KeyPair, k: Seen, msg: Bytes, offset: nat)
    requires su.Lawful() && Facing(su, w, d, k) && Ready(t, k, w.psk.Some?) && t != E && t != S && offset <= |msg|
    ensures WriteToken(su, w, t, gen).Some?
    ensures var (w', part) := WriteToken(su, w, t, gen).value;
            Synced(su, w, w', part, t, k, offset, ReadToken(su, d, t, msg, offset))
  {
    MixSync(su, w, d, t, k);
    MixTokenShape(su, w, t, gen, msg, offset);
    MixTokenShape(su, d, t, gen, msg, offset);
  }

  lemma TokenSync(su: Suite, w: Handshake, d: Handshake, t: Token, gen: KeyPair, k: Seen, msg: Bytes, offset: nat)
    requires su.Lawful() && Facing(su, w, d, k) && Honest(su, gen) && Ready(t, k, w.psk.Some?)
    requires WriteToken(su, w, t, gen).Some?
    requires var part := WriteToken(su, w, t, gen).value.1;
             offset + |part| <= |msg| && msg[offset..offset + |part|] == part
    ensures var (w', part) := WriteToken(su, w, t, gen).value;
            Synced(su, w, w', part, t, k, offset, ReadToken(su, d, t, msg, offset))
  {
    if t == E {
      EphemeralSync(su, w, d, gen, k, msg, offset);
    } else if t == S {
      StaticSync(su, w, d, gen, k, msg, offset);
    } else {
      MixTokenSync(su, w, d, t, gen, k, msg, offset);
    }
  }

  lemma SplitSlice(msg: Bytes, offset: nat, part: Bytes, rest: Bytes)
    requires offset + |part| + |rest| <= |msg| && msg[offset..offset + |part + rest|] == part + rest
    ensures msg[offset..offset + |part|] == part
    ensures msg[offset + |part|..offset + |part| + |rest|] == rest
  {
    assert msg[offset..offset + |part|] == (part + rest)[..|part|];
    assert msg[offset + |part|..offset + |part| + |rest|] == (part + rest)[|part|..];
  }

  ghost predicate SyncedAll(su: Suite, w: Handshake, w': Handshake, bytes: Bytes, ts: seq<Token>, k: Seen, offset: nat,
                            read: Option<(Handshake, nat)>) {
    && read.Some? && read.value.1 == offset + |bytes|
    && Facing(su, w', read.value.0, AllCrossed(ts, k, w.initiator)) && w'.initiator == w.initiator
  }

  lemma SyncedCons(su: Suite, w: Handshake, w1: Handshake, w2: Handshake, part: Bytes, rest: Bytes, ts: seq<Token>,
                   k: Seen, offset: nat, read: Option<(Handshake, nat)>)
    requires ts != [] && w1.initiator == w.initiator
    requires SyncedAll(su, w1, w2, rest, ts[1..], Crossed(ts[0], k, w.initiator), offset + |part|, read)
    ensures SyncedAll(su, w, w2, part + rest, ts, k, offset, read)
  {
  }

  lemma {:induction false} TokensSync(su: Suite, w: Handshake, d: Handshake, ts: seq<Token>, gen: KeyPair, k: Seen,
                                      msg: Bytes, offset: nat)
    requires su.Lawful() && Facing(su, w, d, k) && Honest(su, gen) && AllReady(ts, k, w.psk.Some?, w.initiator)
    requires WriteTokens(su, w, ts, gen).Some?
    requires var bytes := WriteTokens(su, w, ts, gen).value.1;
             offset + |bytes| <= |msg| && msg[offset..offset + |bytes|] == bytes
    ensures var (w', bytes) := WriteTokens(su, w, ts, gen).value;
            SyncedAll(su, w, w', bytes, ts, k, offset, ReadTokens(su, d, ts, msg, offset))
    decreases |ts|
  {
    if ts != [] {
      var (w1, part) := WriteToken(su, w, ts[0], gen).value;
      var (w2, rest) := WriteTokens(su, w1, ts[1..], gen).value;
      SplitSlice(msg, offset, part, rest);
      TokenSync(su, w, d, ts[0], gen, k, msg, offset);
      var (d1, o) := ReadToken(su, d, ts[0], msg, offset).value;
      TokensSync(su, w1, d1, ts[1..], gen, Crossed(ts[0], k, w.initiator), msg, o);
      SyncedCons(su, w, w1, w2, part, rest, ts, k, offset, ReadTokens(su, d1, ts[1..], msg, o));
    }
  }

  /** Every message one side writes on its turn the other reads: the same payload, and both stay in one state. */
  lemma MessageSync(su: Suite, w: Handshake, d: Handshake, payload: Bytes, gen: KeyPair, k: Seen)
    requires su.Lawful() && Facing(su, w, d, k) && Honest(su, gen) && MayStep(w, true)
    requires AllReady(w.messages[w.index], k, w.psk.Some?, w.initiator)
    requires WriteMessage(su, w, payload, gen).1.Some?
    ensures var (w', msg) := WriteMessage(su, w, payload, gen);
            var (d', got) := ReadMessage(su, d, msg.value);
            got == Some(payload) && Facing(su, w', d', AllCrossed(w.messages[w.index], k, w.initiator))
            && w'.initiator == w.initiator
            && w'.index == w.index + 1 && w'.messages == w.messages && w'.s == w.s && d'.s == d.s
  {
    var ts := w.messages[w.index];
    var (w1, parts) := WriteTokens(su, w, ts, gen).value;
    var (y, last) := EncryptAndHash(su, w1.sym, payload).value;
    var msg := parts + last;
    assert msg[0..0 + |parts|] == parts && msg[|parts|..] == last;
    TokensSync(su, w, d, ts, gen, k, msg, 0);
    SymmetricSync(su, w1.sym, payload);
    TokensKeep(su, w, ts, gen);
    ReadTokensKeep(su, d, ts, msg, 0);
  }

  lemma {:induction false} TokensKeep(su: Suite, w: Handshake, ts: seq<Token>, gen: KeyPair)
    ensures WriteTokens(su, w, ts, gen).Some? ==>
              var w' := WriteTokens(su, w, ts, gen).value.0;
              && w'.index == w.index && w'.messages == w.messages && w'.split == w.split && w'.failed == w.failed
              && w'.psk == w.psk && w'.initiator == w.initiator && w'.s == w.s && w'.re == w.re && w'.rs == w.rs
    decreases |ts|
  {
    if ts != [] && WriteToken(su, w, ts[0], gen).Some? {
      TokensKeep(su, WriteToken(su, w, ts[0], gen).value.0, ts[1..], gen);
    }
  }

  lemma {:induction false} ReadTokensKeep(su: Suite, d: Handshake, ts: seq<Token>, msg: Bytes, offset: nat)
    requires offset <= |msg|
    ensures ReadTokens(su, d, ts, msg, offset).Some? ==>
              var d' := ReadTokens(su, d, ts, msg, offset).value.0;
              && d'.index == d.index && d'.messages == d.messages && d'.split == d.split && d'.failed == d.failed
              && d'.psk == d.psk && d'.initiator == d.initiator && d'.s == d.s && d'.e == d.e
    decreases |ts|
  {
    if ts != [] && ReadToken(su, d, ts[0], msg, offset).Some? {
      var (d1, o) := ReadToken(su, d, ts[0], msg, offset).value;
      ReadTokensKeep(su, d1, ts[1..], msg, o);
    }
  }

  // ---------------------------------------------------------------- exact sizes

  predicate KeyedAfter(ts: seq<Token>, keyed: bool, psk: bool)
    decreases |ts|
  {
    if ts == [] then keyed
    else KeyedAfter(ts[1..], (if ts[0] == S then keyed else if ts[0] == E then keyed || psk else true), psk)
  }

  /** The bytes a token list puts in a message, from whether a key is mixed and whether the pattern has a PSK. */
  function TokensSize(ts: seq<Token>, keyed: bool, psk: bool): nat
    decreases |ts|
  {
    if ts == [] then 0
    else if ts[0] == E then KEY_BYTES + TokensSize(ts[1..], keyed || psk, psk)
    else if ts[0] == S then KEY_BYTES + (if keyed then TAG_BYTES else 0) + TokensSize(ts[1..], keyed, psk)
    else TokensSize(ts[1..], true, psk)
  }

  predicate IsKeyed(hs: Handshake) {
    hs.sym.cipher.k.Some?
  }

  /** What one written token adds: its bytes, perhaps a key, at most one use of the nonce. */
  ghost predicate Adds(w: Handshake, t: Token, written: Option<(Handshake, Bytes)>) {
    && written.Some?
    && |written.value.1| == TokensSize([t], IsKeyed(w), w.psk.Some?)
    && IsKeyed(written.value.0) == KeyedAfter([t], IsKeyed(w), w.psk.Some?)
    && written.value.0.sym.cipher.n <= w.sym.cipher.n + 1
  }

  lemma StaticFits(su: Suite, w: Handshake, gen: KeyPair)
    requires su.Lawful() && Honest(su, w.s) && w.sym.cipher.n < MAX_NONCE
    ensures Adds(w, S, WriteToken(su, w, S, gen))
  {
    assert EncryptAndHash(su, w.sym, w.s.pub).Some?;
    SymmetricSync(su, w.sym, w.s.pub);
  }

  lemma MixFits(su: Suite, w: Handshake, d: Handshake, t: Token, gen: KeyPair, k: Seen)
    requires su.Lawful() && Facing(su, w, d, k) && Ready(t, k, w.psk.Some?) && t != E && t != S
    ensures Adds(w, t, WriteToken(su, w, t, gen))
  {
    if t != PSK { SecretSync(su, w, d, t, k); }
  }

  lemma TokenFits(su: Suite, w: Handshake, d: Handshake, t: Token, gen: KeyPair, k: Seen)
    requires su.Lawful() && Facing(su, w, d, k) && Honest(su, gen) && Ready(t, k, w.psk.Some?)
    requires w.sym.cipher.n < MAX_NONCE
    ensures Adds(w, t, WriteToken(su, w, t, gen))
  {
    if t == S {
      StaticFits(su, w, gen);
    } else if t != E {
      MixFits(su, w, d, t, gen, k);
    }
  }

  ghost predicate AddsAll(w: Handshake, ts: seq<Token>, written: Option<(Handshake, Bytes)>) {
    && written.Some?
    && |written.value.1| == TokensSize(ts, IsKeyed(w), w.psk.Some?)
    && IsKeyed(written.value.0) == KeyedAfter(ts, IsKeyed(w), w.psk.Some?)
    && written.value.0.sym.cipher.n <= w.sym.cipher.n + |ts|
  }

  /** The first token, then the rest. */
  lemma SizeCons(ts: seq<Token>, keyed: bool, psk: bool)
    requires ts != []
    ensures var next := KeyedAfter([ts[0]], keyed, psk);
            && TokensSize(ts, keyed, psk) == TokensSize([ts[0]], keyed, psk) + TokensSize(ts[1..], next, psk)
            && KeyedAfter(ts, keyed, psk) == KeyedAfter(ts[1..], next, psk)
  {
    var first := [ts[0]];
    assert first[1..] == [];
    assert TokensSize([], true, psk) == 0 && TokensSize([], keyed, psk) == 0 && TokensSize([], keyed || psk, psk) == 0;
  }

  lemma AddsCons(w: Handshake, w1: Handshake, part: Bytes, ts: seq<Token>, more: Option<(Handshake, Bytes)>)
    requires ts != [] && w1.psk == w.psk && Adds(w, ts[0], Some((w1, part))) && AddsAll(w1, ts[1..], more)
    ensures AddsAll(w, ts, Some((more.value.0, part + more.value.1)))
  {
    SizeCons(ts, IsKeyed(w), w.psk.Some?);
  }

  lemma {:induction false} TokensFit(su: Suite, w: Handshake, d: Handshake, ts: seq<Token>, gen: KeyPair, k: Seen)
    requires su.Lawful() && Facing(su, w, d, k) && Honest(su, gen) && AllReady(ts, k, w.psk.Some?, w.initiator)
    requires w.sym.cipher.n + |ts| < MAX_NONCE
    ensures AddsAll(w, ts, WriteTokens(su, w, ts, gen))
    decreases |ts|
  {
    if ts != [] {
      TokenFits(su, w, d, ts[0], gen, k);
      var (w1, part) := WriteToken(su, w, ts[0], gen).value;
      TokenSync(su, w, d, ts[0], gen, k, part, 0);
      var (d1, _) := ReadToken(su, d, ts[0], part, 0).value;
      TokensFit(su, w1, d1, ts[1..], gen, Crossed(ts[0], k, w.initiator));
      AddsCons(w, w1, part, ts, WriteTokens(su, w1, ts[1..], gen));
    }
  }

  /** The bytes of the next message beside its payload. */
  function Overhead(hs: Handshake): nat
    requires hs.index < |hs.messages|
  {
    var ts := hs.messages[hs.index];
    TokensSize(ts, IsKeyed(hs), hs.psk.Some?) + if KeyedAfter(ts, IsKeyed(hs), hs.psk.Some?) then TAG_BYTES else 0
  }

  /** The payload closes a message: it fits with what the tokens took, or the write throws. */
  lemma PayloadFits(su: Suite, hs: Handshake, payload: Bytes)
    requires su.Lawful() && hs.sym.cipher.n < MAX_NONCE
    ensures EncryptAndHash(su, hs.sym, payload).Some?
    ensures var (y, last) := EncryptAndHash(su, hs.sym, payload).value;
            && |last| == |payload| + (if IsKeyed(hs) then TAG_BYTES else 0)
            && y.cipher.k == hs.sym.cipher.k && y.cipher.n <= hs.sym.cipher.n + 1
  {
    assert EncryptAndHash(su, hs.sym, payload).Some?;
    SymmetricSync(su, hs.sym, payload);
  }

  /** What writing a message comes to, by its size. */
  ghost predicate FitsExactly(w: Handshake, payload: Bytes, written: (Handshake, Option<Bytes>))
    requires w.index < |w.messages|
  {
    var (w', msg) := written;
    && (msg.Some? <==> Overhead(w) + |payload| <= MAX_HANDSHAKE_MESSAGE_BYTES)
    && (msg.Some? ==>
          && |msg.value| == Overhead(w) + |payload|
          && IsKeyed(w') == KeyedAfter(w.messages[w.index], IsKeyed(w), w.psk.Some?)
          && w'.sym.cipher.n <= w.sym.cipher.n + |w.messages[w.index]| + 1)
  }

  /** On its turn a side can write a payload exactly when the whole message fits in 1024 bytes. */
  lemma WritesIffItFits(su: Suite, w: Handshake, d: Handshake, payload: Bytes, gen: KeyPair, k: Seen)
    requires su.Lawful() && Facing(su, w, d, k) && Honest(su, gen) && MayStep(w, true)
    requires AllReady(w.messages[w.index], k, w.psk.Some?, w.initiator)
    requires w.sym.cipher.n + |w.messages[w.index]| < MAX_NONCE
    ensures FitsExactly(w, payload, WriteMessage(su, w, payload, gen))
  {
    TokensFit(su, w, d, w.messages[w.index], gen, k);
    PayloadFits(su, WriteTokens(su, w, w.messages[w.index], gen).value.0, payload);
  }

  lemma OpenedSize(su: Suite, y: Symmetric, text: Bytes)
    requires su.Lawful()
    ensures DecryptAndHash(su, y, text).Some? ==>
              var (y', plain) := DecryptAndHash(su, y, text).value;
              |text| == |plain| + (if y.cipher.k.Some? then TAG_BYTES else 0) && y'.cipher.k == y.cipher.k
  {
  }

  /** What one token that is read takes: the bytes the writer's adds. */
  lemma TokenTakes(su: Suite, d: Handshake, t: Token, msg: Bytes, offset: nat)
    requires su.Lawful() && offset <= |msg|
    ensures ReadToken(su, d, t, msg, offset).Some? ==>
              var (d', o) := ReadToken(su, d, t, msg, offset).value;
              && o == offset + TokensSize([t], IsKeyed(d), d.psk.Some?) && d'.psk == d.psk
              && IsKeyed(d') == KeyedAfter([t], IsKeyed(d), d.psk.Some?)
  {
    assert [t][1..] == [];
    assert forall keyed: bool :: TokensSize([], keyed, d.psk.Some?) == 0 && KeyedAfter([], keyed, d.psk.Some?) == keyed;
    if t == S && |msg| - offset >= StaticLength(d.sym) {
      OpenedSize(su, d.sym, msg[offset..offset + StaticLength(d.sym)]);
    }
  }

  lemma {:induction false} TokensTake(su: Suite, d: Handshake, ts: seq<Token>, msg: Bytes, offset: nat)
    requires su.Lawful() && offset <= |msg|
    ensures ReadTokens(su, d, ts, msg, offset).Some? ==>
              var (d', o) := ReadTokens(su, d, ts, msg, offset).value;
              && o == offset + TokensSize(ts, IsKeyed(d), d.psk.Some?)
              && IsKeyed(d') == KeyedAfter(ts, IsKeyed(d), d.psk.Some?)
    decreases |ts|
  {
    if ts != [] && ReadToken(su, d, ts[0], msg, offset).Some? {
      var (d1, o) := ReadToken(su, d, ts[0], msg, offset).value;
      TokenTakes(su, d, ts[0], msg, offset);
      TokensTake(su, d1, ts[1..], msg, o);
      SizeCons(ts, IsKeyed(d), d.psk.Some?);
    }
  }

  /**
   Whatever a read returns came in a message of at most 1024 bytes, and is as long as the message without the keys and
   tags of this turn: anything longer or shorter throws, whoever made it.
   */
  lemma ReadsOnlyWhatFits(su: Suite, d: Handshake, msg: Bytes)
    requires su.Lawful() && d.index < |d.messages|
    ensures var (_, got) := ReadMessage(su, d, msg);
            got.Some? ==> |msg| == Overhead(d) + |got.value| && |msg| <= MAX_HANDSHAKE_MESSAGE_BYTES
  {
    var ts := d.messages[d.index];
    TokensTake(su, d, ts, msg, 0);
    if ReadTokens(su, d, ts, msg, 0).Some? {
      var (d', offset) := ReadTokens(su, d, ts, msg, 0).value;
      OpenedSize(su, d'.sym, msg[offset..]);
    }
  }

  // ---------------------------------------------------------------- the two patterns

  const NothingSeen := Seen(false, false, false, false)
  const AfterFirst := Seen(true, false, false, false)
  const AfterSecond := Seen(true, true, false, true)
  const AfterThird := Seen(true, true, true, true)

  /** What has crossed before message `j`. */
  function SeenAt(j: nat): Seen {
    if j == 0 then NothingSeen else if j == 1 then AfterFirst else if j == 2 then AfterSecond else AfterThird
  }

  lemma Unrolled(ts: seq<Token>)
    requires ts == [E] || ts == [S, SE] || ts == [E, EE, S, ES] || ts == [E, EE, S, ES, PSK]
    ensures |ts| == 1 ==> ts[1..] == []
    ensures |ts| == 2 ==> ts[1..] == [SE] && ts[1..][1..] == []
    ensures |ts| >= 4 ==> ts[1..][0] == EE && ts[1..][1..][0] == S && ts[1..][1..][1..][0] == ES
    ensures |ts| == 4 ==> ts[1..][1..][1..][1..] == []
    ensures |ts| == 5 ==> ts[1..][1..][1..][1..] == [PSK] && ts[1..][1..][1..][1..][1..] == []
  {
  }

  /** Every token of both patterns finds its keys, and each message brings what the next one needs. */
  lemma PatternsReady(p: Protocol, j: nat)
    requires j < 3
    ensures |Pattern(p)| == 3 && |Pattern(p)[j]| <= 5
    ensures AllReady(Pattern(p)[j], SeenAt(j), p == XXpsk2, j % 2 == 0)
    ensures AllCrossed(Pattern(p)[j], SeenAt(j), j % 2 == 0) == SeenAt(j + 1)
  {
    Unrolled(Pattern(p)[j]);
  }

  /** Whether a key is mixed before message `j`: from message 2 on in XX, from the first "e" on in XXpsk2. */
  predicate KeyedAt(p: Protocol, j: nat) {
    j > 1 || (j == 1 && p == XXpsk2)
  }

  lemma SecondSize(p: Protocol)
    ensures |Pattern(p)| == 3
    ensures KeyedAfter(Pattern(p)[1], p == XXpsk2, p == XXpsk2)
            && TokensSize(Pattern(p)[1], p == XXpsk2, p == XXpsk2) == 80
  {
    var ts := Pattern(p)[1];
    Unrolled(ts);
    var ends := ts[1..][1..][1..];
    assert TokensSize(ends[1..], true, p == XXpsk2) == 0 && KeyedAfter(ends[1..], true, p == XXpsk2);
    assert TokensSize(ends, true, p == XXpsk2) == 0 && KeyedAfter(ends, true, p == XXpsk2);
  }

  lemma PatternsSize(p: Protocol, j: nat)
    requires j < 3
    ensures |Pattern(p)| == 3
    ensures KeyedAfter(Pattern(p)[j], KeyedAt(p, j), p == XXpsk2) == KeyedAt(p, j + 1)
    ensures TokensSize(Pattern(p)[j], KeyedAt(p, j), p == XXpsk2) == (if j == 0 then 32 else if j == 1 then 80 else 48)
  {
    if j == 1 {
      SecondSize(p);
    } else {
      Unrolled(Pattern(p)[j]);
    }
  }

  /** The largest payload of each message. */
  function Limit(p: Protocol, j: nat): nat {
    if j == 0 then (if p == XX then 992 else 976) else if j == 1 then 928 else 960
  }

  /** Both sides stand before message `j` of protocol `p`, in one state. */
  ghost predicate Stage(su: Suite, p: Protocol, i: Handshake, r: Handshake, j: nat) {
    && Peers(su, i, r, SeenAt(j)) && i.index == j && i.messages == Pattern(p) && i.psk.Some? == (p == XXpsk2)
    && IsKeyed(i) == KeyedAt(p, j) && i.sym.cipher.n <= 8 * j && !i.split
  }

  lemma ExchangeWrites(su: Suite, p: Protocol, w: Handshake, d: Handshake, j: nat, payload: Bytes, gen: KeyPair)
    requires su.Lawful() && j < 3 && Honest(su, gen) && w.initiator == (j % 2 == 0)
    requires if w.initiator then Stage(su, p, w, d, j) else Stage(su, p, d, w, j)
    ensures MayStep(w, true) && AllReady(w.messages[w.index], SeenAt(j), w.psk.Some?, w.initiator)
    ensures AllCrossed(w.messages[w.index], SeenAt(j), w.initiator) == SeenAt(j + 1)
    ensures var (w', msg) := WriteMessage(su, w, payload, gen);
            && (msg.Some? <==> |payload| <= Limit(p, j))
            && (msg.Some? ==> IsKeyed(w') == KeyedAt(p, j + 1) && w'.sym.cipher.n <= 8 * (j + 1))
  {
    PatternsReady(p, j);
    PatternsSize(p, j);
    WritesIffItFits(su, w, d, payload, gen, SeenAt(j));
  }

  /** One message of the handshake: it is written exactly when its payload is within the limit, and then it is read. */
  lemma Exchange(su: Suite, p: Protocol, w: Handshake, d: Handshake, j: nat, payload: Bytes, gen: KeyPair)
    requires su.Lawful() && j < 3 && Honest(su, gen) && w.initiator == (j % 2 == 0)
    requires if w.initiator then Stage(su, p, w, d, j) else Stage(su, p, d, w, j)
    ensures var (w', msg) := WriteMessage(su, w, payload, gen);
            && (msg.Some? <==> |payload| <= Limit(p, j))
            && (msg.Some? ==>
                  var (d', got) := ReadMessage(su, d, msg.value);
                  && got == Some(payload) && w'.s == w.s && d'.s == d.s
                  && if w.initiator then Stage(su, p, w', d', j + 1) else Stage(su, p, d', w', j + 1))
  {
    ExchangeWrites(su, p, w, d, j, payload, gen);
    if WriteMessage(su, w, payload, gen).1.Some? {
      MessageSync(su, w, d, payload, gen, SeenAt(j));
      TokensKeep(su, w, w.messages[w.index], gen);
    }
  }

  /** The two constructors given one protocol, one prologue and one PSK. */
  lemma Begin(su: Suite, p: Protocol, prologue: Bytes, si: KeyPair, sr: KeyPair, psk: Option<Bytes>,
              ei: Option<KeyPair>, er: Option<KeyPair>)
    requires su.Lawful() && Honest(su, si) && Honest(su, sr)
    requires (ei.Some? ==> Honest(su, ei.value)) && (er.Some? ==> Honest(su, er.value))
    requires (p == XXpsk2) == psk.Some? && (psk.Some? ==> |psk.value| == KEY_BYTES)
    ensures var i, r := Start(su, p, true, prologue, si, psk, ei), Start(su, p, false, prologue, sr, psk, er);
            i.Some? && r.Some? && Stage(su, p, i.value, r.value, 0)
  {
  }

  /** Both sides after some messages were delivered unaltered, and what the readers got. */
  datatype Delivered = Delivered(i: Handshake, r: Handshake, got: seq<Option<Bytes>>)

  /** One message, written by the side whose turn `j` is; `None` when the write throws. */
  function DeliverOne(su: Suite, i: Handshake, r: Handshake, j: nat, payload: Bytes, gi: KeyPair,
                      gr: KeyPair): Option<Delivered> {
    var (w', msg) := if j % 2 == 0 then WriteMessage(su, i, payload, gi) else WriteMessage(su, r, payload, gr);
    if msg.None? then None else
    var (d', got) := ReadMessage(su, if j % 2 == 0 then r else i, msg.value);
    Some(if j % 2 == 0 then Delivered(w', d', [got]) else Delivered(d', w', [got]))
  }

  function Append(one: Delivered, rest: Option<Delivered>): Option<Delivered> {
    if rest.None? then None else Some(rest.value.(got := one.got + rest.value.got))
  }

  /** One message after another, `deliver` each. */
  function DeliverEach(deliver: (Handshake, Handshake, nat, Bytes) -> Option<Delivered>, i: Handshake, r: Handshake,
                       j: nat, payloads: seq<Bytes>): Option<Delivered>
    decreases |payloads|
  {
    if payloads == [] then Some(Delivered(i, r, [])) else
    match deliver(i, r, j, payloads[0])
    case None => None
    case Some(d) => Append(d, DeliverEach(deliver, d.i, d.r, j + 1, payloads[1..]))
  }

  function DeliverWith(su: Suite, gi: KeyPair, gr: KeyPair): (Handshake, Handshake, nat, Bytes) -> Option<Delivered> {
    (i: Handshake, r: Handshake, j: nat, payload: Bytes) => DeliverOne(su, i, r, j, payload, gi, gr)
  }

  /** Messages `j`, `j + 1`, ... with these payloads. */
  function Deliver(su: Suite, i: Handshake, r: Handshake, j: nat, payloads: seq<Bytes>, gi: KeyPair,
                   gr: KeyPair): Option<Delivered> {
    DeliverEach(DeliverWith(su, gi, gr), i, r, j, payloads)
  }

  predicate AllFit(p: Protocol, j: nat, payloads: seq<Bytes>) {
    forall k: nat | k < |payloads| :: |payloads[k]| <= Limit(p, j + k)
  }

  lemma AllFitCons(p: Protocol, j: nat, payloads: seq<Bytes>)
    requires payloads != []
    ensures AllFit(p, j, payloads) <==> |payloads[0]| <= Limit(p, j) && AllFit(p, j + 1, payloads[1..])
  {
    if |payloads[0]| <= Limit(p, j) && AllFit(p, j + 1, payloads[1..]) {
      forall k: nat | k < |payloads| ensures |payloads[k]| <= Limit(p, j + k) {
        if k > 0 { assert payloads[1..][k - 1] == payloads[k] && (j + 1) + (k - 1) == j + k; }
      }
    }
    if AllFit(p, j, payloads) {
      assert j + 0 == j;
      forall k: nat | k < |payloads[1..]| ensures |payloads[1..][k]| <= Limit(p, j + 1 + k) {
        assert payloads[1..][k] == payloads[k + 1] && j + 1 + k == j + (k + 1);
      }
    }
  }

  /** The readers got exactly these payloads. */
  ghost predicate AllRead(got: seq<Option<Bytes>>, payloads: seq<Bytes>) {
    |got| == |payloads| && forall k | 0 <= k < |payloads| :: got[k] == Some(payloads[k])
  }

  lemma AllReadCons(got: seq<Option<Bytes>>, payloads: seq<Bytes>)
    requires payloads != [] && AllRead(got, payloads[1..])
    ensures AllRead([Some(payloads[0])] + got, payloads)
  {
  }

  /** What delivering these payloads from stage `j` comes to. */
  ghost predicate Outcome(su: Suite, p: Protocol, i: Handshake, r: Handshake, j: nat, payloads: seq<Bytes>,
                          out: Option<Delivered>) {
    && (out.Some? <==> AllFit(p, j, payloads))
    && (out.Some? ==> AllRead(out.value.got, payloads) && Stage(su, p, out.value.i, out.value.r, j + |payloads|)
                      && out.value.i.s == i.s && out.value.r.s == r.s)
  }

  lemma DeliverOneKeeps(su: Suite, p: Protocol, i: Handshake, r: Handshake, j: nat, payload: Bytes, gi: KeyPair,
                        gr: KeyPair)
    requires su.Lawful() && j < 3 && Stage(su, p, i, r, j) && Honest(su, gi) && Honest(su, gr)
    ensures Outcome(su, p, i, r, j, [payload], DeliverOne(su, i, r, j, payload, gi, gr))
  {
    AllFitCons(p, j, [payload]);
    if j % 2 == 0 { Exchange(su, p, i, r, j, payload, gi); } else { Exchange(su, p, r, i, j, payload, gr); }
  }

  lemma OutcomeCons(su: Suite, p: Protocol, i: Handshake, r: Handshake, j: nat, payloads: seq<Bytes>, one: Delivered,
                    rest: Option<Delivered>)
    requires payloads != [] && Outcome(su, p, i, r, j, [payloads[0]], Some(one))
             && Outcome(su, p, one.i, one.r, j + 1, payloads[1..], rest)
    ensures Outcome(su, p, i, r, j, payloads, Append(one, rest))
  {
    AllFitCons(p, j, payloads);
    AllFitCons(p, j, [payloads[0]]);
    if rest.Some? {
      assert one.got == [Some(payloads[0])];
      AllReadCons(rest.value.got, payloads);
    }
  }

  lemma OutcomeOne(su: Suite, p: Protocol, i: Handshake, r: Handshake, j: nat, payloads: seq<Bytes>,
                   one: Option<Delivered>)
    requires payloads != [] && Outcome(su, p, i, r, j, [payloads[0]], one)
    ensures one.Some? ==> Stage(su, p, one.value.i, one.value.r, j + 1)
    ensures one.None? ==> Outcome(su, p, i, r, j, payloads, None)
  {
    AllFitCons(p, j, payloads);
    AllFitCons(p, j, [payloads[0]]);
  }

  /** A way to deliver one message that comes to what it should from every stage. */
  ghost predicate Delivers(su: Suite, p: Protocol, deliver: (Handshake, Handshake, nat, Bytes) -> Option<Delivered>) {
    forall i, r, j: nat, payload | j < 3 && Stage(su, p, i, r, j) ::
      Outcome(su, p, i, r, j, [payload], deliver(i, r, j, payload))
  }

  lemma {:induction false} EachKeeps(su: Suite, p: Protocol,
                                     deliver: (Handshake, Handshake, nat, Bytes) -> Option<Delivered>,
                                     i: Handshake, r: Handshake, j: nat, payloads: seq<Bytes>)
    requires Delivers(su, p, deliver) && j + |payloads| <= 3 && Stage(su, p, i, r, j)
    ensures Outcome(su, p, i, r, j, payloads, DeliverEach(deliver, i, r, j, payloads))
    decreases |payloads|
  {
    if payloads != [] {
      var one := deliver(i, r, j, payloads[0]);
      OutcomeOne(su, p, i, r, j, payloads, one);
      if one.Some? {
        EachKeeps(su, p, deliver, one.value.i, one.value.r, j + 1, payloads[1..]);
        OutcomeCons(su, p, i, r, j, payloads, one.value,
                    DeliverEach(deliver, one.value.i, one.value.r, j + 1, payloads[1..]));
      }
    }
  }

  lemma DeliverKeeps(su: Suite, p: Protocol, i: Handshake, r: Handshake, j: nat, payloads: seq<Bytes>, gi: KeyPair,
                     gr: KeyPair)
    requires su.Lawful() && j + |payloads| <= 3 && Stage(su, p, i, r, j) && Honest(su, gi) && Honest(su, gr)
    ensures Outcome(su, p, i, r, j, payloads, Deliver(su, i, r, j, payloads, gi, gr))
  {
    forall i, r, j: nat, payload | j < 3 && Stage(su, p, i, r, j)
      ensures Outcome(su, p, i, r, j, [payload], DeliverWith(su, gi, gr)(i, r, j, payload))
    {
      DeliverOneKeeps(su, p, i, r, j, payload, gi, gr);
    }
    EachKeeps(su, p, DeliverWith(su, gi, gr), i, r, j, payloads);
  }

  /** Both sides finished, with one secret between them. */
  ghost predicate Agreed(su: Suite, i: Handshake, r: Handshake) {
    && i.initiator && !r.initiator && Complete(i) && Complete(r) && !i.failed && !r.failed
    && i.sym.h == r.sym.h && i.sym.ck == r.sym.ck
    && i.rs == Some(r.s.pub) && r.rs == Some(i.s.pub)
    && Split(su, i).1.Some? && Split(su, r).1.Some?
    && Split(su, i).1.value.send == Split(su, r).1.value.receive
    && Split(su, i).1.value.receive == Split(su, r).1.value.send
  }

  lemma LastStageAgrees(su: Suite, p: Protocol, i: Handshake, r: Handshake)
    requires Stage(su, p, i, r, 3)
    ensures Agreed(su, i, r)
  {
  }

  /**
   Handshake agreement, for XX and XXpsk2 and every honest key, prologue, PSK and payload: the three
   messages can be sent exactly when each payload is within its limit, and then each side reads the
   other's payloads and static key, both end with one handshake hash and chaining key, and their
   split keys are equal crosswise.
   */
  lemma Agreement(su: Suite, p: Protocol, prologue: Bytes, si: KeyPair, sr: KeyPair, psk: Option<Bytes>,
                  ei: Option<KeyPair>, er: Option<KeyPair>, gi: KeyPair, gr: KeyPair, payloads: seq<Bytes>)
    requires su.Lawful() && Honest(su, si) && Honest(su, sr) && Honest(su, gi) && Honest(su, gr)
    requires (ei.Some? ==> Honest(su, ei.value)) && (er.Some? ==> Honest(su, er.value))
    requires (p == XXpsk2) == psk.Some? && (psk.Some? ==> |psk.value| == KEY_BYTES)
    requires |payloads| == 3
    ensures Start(su, p, true, prologue, si, psk, ei).Some? && Start(su, p, false, prologue, sr, psk, er).Some?
    ensures var out := Deliver(su, Start(su, p, true, prologue, si, psk, ei).value,
                               Start(su, p, false, prologue, sr, psk, er).value,
                               0, payloads, gi, gr);
            && (out.Some? <==> AllFit(p, 0, payloads))
            && (out.Some? ==>
                  && AllRead(out.value.got, payloads)
                  && Agreed(su, out.value.i, out.value.r) && out.value.i.s == si && out.value.r.s == sr)
  {
    Begin(su, p, prologue, si, sr, psk, ei, er);
    var i, r := Start(su, p, true, prologue, si, psk, ei).value, Start(su, p, false, prologue, sr, psk, er).value;
    DeliverKeeps(su, p, i, r, 0, payloads, gi, gr);
    var out := Deliver(su, i, r, 0, payloads, gi, gr);
    if out.Some? { LastStageAgrees(su, p, out.value.i, out.value.r); }
  }
}
