/** The laws asked of the primitives can all hold at once, and a split that throws does not end a handshake. */
module NoiseWitness {
  import opened Options
  import opened NoiseModel
  import opened NoiseHandshake
  import opened NoiseRuns
  import opened NoiseSchedule

  function Pow256(len: nat): nat {
    if len == 0 then 1 else 256 * Pow256(len - 1)
  }

  function Digits(n: nat, len: nat): (r: Bytes)
    ensures |r| == len
    decreases len
  {
    if len == 0 then [] else [n % 256] + Digits(n / 256, len - 1)
  }

  lemma {:induction false} DigitsSeparate(n: nat, m: nat, len: nat)
    requires n < Pow256(len) && m < Pow256(len) && Digits(n, len) == Digits(m, len)
    ensures n == m
    decreases len
  {
    if len > 0 {
      assert Digits(n, len)[0] == Digits(m, len)[0] && Digits(n, len)[1..] == Digits(m, len)[1..];
      DigitsSeparate(n / 256, m / 256, len - 1);
    }
  }

  function First(s: Bytes): Byte {
    if s == [] then 0 else s[0]
  }

  function Padded(b: Byte): (r: Bytes)
    ensures |r| == 32 && First(r) == b
  {
    [b] + Zeros(31)
  }

  /** A toy tag: a byte of the key, one of the associated data, and the nonce's digits. */
  function Tag(k: Bytes, n: nat, ad: Bytes): (r: Bytes)
    ensures |r| == TAG_BYTES
  {
    [First(k), First(ad)] + Digits(n, 14)
  }

  function ToySeal(k: Bytes, n: nat, ad: Bytes, p: Bytes): Bytes {
    p + Tag(k, n, ad)
  }

  function ToyOpen(k: Bytes, n: nat, ad: Bytes, c: Bytes): Option<Bytes> {
    if |c| >= TAG_BYTES && c[|c| - TAG_BYTES..] == Tag(k, n, ad) then Some(c[..|c| - TAG_BYTES]) else None
  }

  function ToyHash(x: Bytes): Bytes {
    Padded(if |x| == 33 then x[32] else First(x))
  }

  function ToyHmac(k: Bytes, x: Bytes): Bytes {
    Padded(First(if |x| == KEY_BYTES then x else k))
  }

  /** A toy suite. */
  function Toy(): Suite {
    Suite(x => ToyHash(x), (k, x) => ToyHmac(k, x), (_, _) => Some(Zeros(KEY_BYTES)), _ => Zeros(KEY_BYTES),
          (k, n, ad, p) => ToySeal(k, n, ad, p), (k, n, ad, c) => ToyOpen(k, n, ad, c), _ => true)
  }

  lemma SameTag(k: Bytes, n: nat, ad: Bytes, p: Bytes, k': Bytes, n': nat, ad': Bytes, p': Bytes)
    requires ToySeal(k, n, ad, p) == ToySeal(k', n', ad', p')
    ensures First(k) == First(k') && First(ad) == First(ad') && Digits(n, 14) == Digits(n', 14)
  {
    var c := ToySeal(k, n, ad, p);
    assert c[|c| - TAG_BYTES..] == Tag(k, n, ad) == Tag(k', n', ad');
    assert Tag(k, n, ad)[2..] == Digits(n, 14) && Tag(k', n', ad')[2..] == Digits(n', 14);
    assert Tag(k, n, ad)[0] == First(k) && Tag(k', n', ad')[0] == First(k');
    assert Tag(k, n, ad)[1] == First(ad) && Tag(k', n', ad')[1] == First(ad');
  }

  lemma ToySeparates(k: Bytes, n: nat, m: nat, p: Bytes, q: Bytes)
    requires n < MAX_NONCE && m < MAX_NONCE && ToySeal(k, n, [], p) == ToySeal(k, m, [], q)
    ensures n == m
  {
    SameTag(k, n, [], p, k, m, [], q);
    assert Pow256(4) == 0x1_0000_0000;
    assert Pow256(8) == MAX_NONCE + 1;
    assert Pow256(12) >= Pow256(8);
    assert Pow256(14) >= Pow256(12);
    DigitsSeparate(n, m, 14);
  }

  lemma ToyOpens(k: Bytes, n: nat, ad: Bytes, p: Bytes)
    ensures ToyOpen(k, n, ad, ToySeal(k, n, ad, p)) == Some(p)
  {
    var c := p + Tag(k, n, ad);
    assert c[|c| - TAG_BYTES..] == Tag(k, n, ad) && c[..|c| - TAG_BYTES] == p;
  }

  lemma ToySeals(k: Bytes, n: nat, ad: Bytes, c: Bytes)
    requires ToyOpen(k, n, ad, c).Some?
    ensures ToySeal(k, n, ad, ToyOpen(k, n, ad, c).value) == c
  {
    assert c[..|c| - TAG_BYTES] + c[|c| - TAG_BYTES..] == c;
  }

  lemma ToySeparatesAll()
    ensures forall k :: Toy().Separates(k)
  {
    forall k ensures Toy().Separates(k) {
      forall n: nat, m: nat, p, q | n < MAX_NONCE && m < MAX_NONCE && Toy().seal(k, n, [], p) == Toy().seal(k, m, [], q)
        ensures n == m
      {
        ToySeparates(k, n, m, p, q);
      }
    }
  }

  lemma ToyLawful()
    ensures Toy().Lawful()
  {
    forall k, n: nat, ad, p: Bytes ensures Toy().open(k, n, ad, Toy().seal(k, n, ad, p)) == Some(p) {
      ToyOpens(k, n, ad, p);
    }
    forall k, n: nat, ad, c | Toy().open(k, n, ad, c).Some?
      ensures Toy().seal(k, n, ad, Toy().open(k, n, ad, c).value) == c
    {
      ToySeals(k, n, ad, c);
    }
  }

  /** Every law used anywhere holds of one suite, so no theorem about lawful suites is empty. */
  lemma LawsAreConsistent()
    ensures Toy().Lawful() && forall k :: Toy().Separates(k)
  {
    ToyLawful();
    ToySeparatesAll();
  }

  /** Every key is apart from one with another first byte, and binds apart associated data that begin otherwise. */
  lemma ToyKeepsApart(k: Bytes, k': Bytes, ad: Bytes, ad': Bytes)
    ensures First(k) != First(k') ==> Apart(Toy(), k, k')
    ensures First(ad) != First(ad') ==> Binds(Toy(), k, ad, ad')
  {
    forall n: nat, a, p, n': nat, a', p' | First(k) != First(k')
      ensures Toy().seal(k, n, a, p) != Toy().seal(k', n', a', p')
    {
      if ToySeal(k, n, a, p) == ToySeal(k', n', a', p') { SameTag(k, n, a, p, k', n', a', p'); }
    }
    forall n: nat, p, p' | First(ad) != First(ad') ensures Toy().seal(k, n, ad, p) != Toy().seal(k, n, ad', p') {
      if ToySeal(k, n, ad, p) == ToySeal(k, n, ad', p') { SameTag(k, n, ad, p, k, n, ad', p'); }
    }
  }

  /** What the toy primitives carry in their first bytes. */
  ghost predicate Carries(su: Suite) {
    && (forall k, x :: |su.hmac(k, x)| == 32 && First(su.hmac(k, x)) == First(if |x| == KEY_BYTES then x else k))
    && (forall x :: |su.hash(x)| == 32 && First(su.hash(x)) == if |x| == 33 then x[32] else First(x))
  }

  lemma ToyCarries()
    ensures Carries(Toy())
  {
  }

  lemma {:induction false} CarriesOutput(su: Suite, ck: Bytes, x: Bytes, i: nat)
    requires Carries(su) && 1 <= i <= 3 && |x| == KEY_BYTES
    ensures |Output(su, ck, x, i)| == 32 && First(Output(su, ck, x, i)) == First(x)
    decreases i
  {
    if i > 1 { CarriesOutput(su, ck, x, i - 1); }
  }

  lemma PsksDiffer(su: Suite, q: Parties, other: Bytes)
    requires Carries(su) && q.psk.Some? && |q.psk.value| == |other| == KEY_BYTES && First(q.psk.value) != First(other)
    ensures First(Key2(su, q)) != First(Key2(su, q.(psk := Some(other))))
  {
    CarriesKey(su, q);
    CarriesKey(su, q.(psk := Some(other)));
  }

  lemma CarriesKey(su: Suite, q: Parties)
    requires Carries(su) && q.psk.Some? && |q.psk.value| == KEY_BYTES
    ensures First(Key2(su, q)) == First(q.psk.value)
  {
    var ck := Chain(su, Initial(su, q), Inputs(su, q)[..4]);
    CarriesOutput(su, ck, q.psk.value, 3);
    assert Key2(su, q) == Output(su, ck, q.psk.value, 3);
  }

  lemma CarriesOne(su: Suite, h: Bytes, part: Bytes)
    requires Carries(su) && |h| == 32
    ensures |su.hash(h + part)| == 32
    ensures |part| == 1 ==> First(su.hash(h + part)) == part[0]
    ensures |part| == KEY_BYTES ==> First(su.hash(h + part)) == First(h)
  {
  }

  lemma AbsorbTwo(su: Suite, h: Bytes, a: Bytes, b: Bytes)
    ensures Absorb(su, h, [a, b]) == su.hash(su.hash(h + a) + b)
  {
    AbsorbOne(su, h, [], a);
    AbsorbOne(su, h, [a], b);
    assert [] + [a] == [a] && [a] + [b] == [a, b];
  }

  lemma CarriesHash(su: Suite, q: Parties)
    requires Carries(su) && q.psk.Some? && |q.ei.pub| == KEY_BYTES && |q.prologue| == 1
    ensures First(Hash1(su, q)) == q.prologue[0]
  {
    var h := Initial(su, q);
    AbsorbTwo(su, h, q.prologue, q.ei.pub);
    CarriesOne(su, h, q.prologue);
    CarriesOne(su, su.hash(h + q.prologue), q.ei.pub);
  }

  /** The hypothesis about two PSKs can be met in this suite. */
  lemma PsksCanBeApart(q: Parties, other: Bytes)
    requires q.psk.Some? && |q.psk.value| == |other| == KEY_BYTES && First(q.psk.value) != First(other)
    ensures Apart(Toy(), Key2(Toy(), q), Key2(Toy(), q.(psk := Some(other))))
  {
    ToyCarries();
    PsksDiffer(Toy(), q, other);
    ToyKeepsApart(Key2(Toy(), q), Key2(Toy(), q.(psk := Some(other))), [], []);
  }

  /** And the one about two prologues. */
  lemma ProloguesCanBeBound(q: Parties, other: Bytes, k: Bytes)
    requires q.psk.Some? && |q.ei.pub| == KEY_BYTES && |q.prologue| == |other| == 1 && q.prologue[0] != other[0]
    ensures Binds(Toy(), k, Hash1(Toy(), q.(prologue := other)), Hash1(Toy(), q))
  {
    ToyCarries();
    CarriesHash(Toy(), q);
    CarriesHash(Toy(), q.(prologue := other));
    ToyKeepsApart(k, k, Hash1(Toy(), q.(prologue := other)), Hash1(Toy(), q));
  }

  /** A split before the last message throws, yet the next write returns: only write and read errors are final. */
  lemma EarlySplitIsNotFinal(su: Suite, prologue: Bytes, si: KeyPair, gi: KeyPair)
    requires su.Lawful() && Honest(su, si) && Honest(su, gi)
    ensures Start(su, XX, true, prologue, si, None, None).Some?
    ensures Returned(su, Start(su, XX, true, prologue, si, None, None).value, [OpSplit, OpWrite([], gi)]) ==
              [false, true]
  {
    Begin(su, XX, prologue, si, si, None, None, None);
    var i, r := Start(su, XX, true, prologue, si, None, None).value,
                Start(su, XX, false, prologue, si, None, None).value;
    Exchange(su, XX, i, r, 0, [], gi);
    var ops := [OpSplit, OpWrite([], gi)];
    assert ops[1..] == [OpWrite([], gi)] && ops[1..][1..] == [];
    assert Do(su, i, OpSplit) == (i, false);
  }
}
