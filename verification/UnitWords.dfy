/**
 packages/core/systemd-unit.ts: words written into a unit file value and read back. Strings are
 JavaScript's, sequences of UTF-16 code units, and the two regular expressions are written out as
 the scans they are.
 */
module UnitWords {
  import opened Options

  type Unit = n: int | 0 <= n < 0x1_0000
  type Text = seq<Unit>

  const TAB: Unit := 9
  const NEWLINE: Unit := 10
  const RETURN: Unit := 13
  const SPACE: Unit := 32
  const QUOTE: Unit := 34
  const DOLLAR: Unit := 36
  const PERCENT: Unit := 37
  const BACKSLASH: Unit := 92
  const LOWER_N: Unit := 110
  const LOWER_R: Unit := 114
  const LOWER_T: Unit := 116

  /** `\s`, and what trim removes. */
  predicate IsSpace(c: Unit) {
    9 <= c <= 13 || c == 32 || c == 0xA0 || c == 0x1680 || 0x2000 <= c <= 0x200A
    || c == 0x2028 || c == 0x2029 || c == 0x202F || c == 0x205F || c == 0x3000 || c == 0xFEFF
  }

  /** What `.` does not match. */
  predicate EndsLine(c: Unit) {
    c == 10 || c == 13 || c == 0x2028 || c == 0x2029
  }

  // ---------------------------------------------------------------- writing

  function Escape(c: Unit, exec: bool): Text {
    if c == PERCENT then [PERCENT, PERCENT]
    else if c == DOLLAR then (if exec then [DOLLAR, DOLLAR] else [DOLLAR])
    else if c == BACKSLASH || c == QUOTE then [BACKSLASH, c]
    else if c == NEWLINE then [BACKSLASH, LOWER_N]
    else if c == TAB then [BACKSLASH, LOWER_T]
    else if c == RETURN then [BACKSLASH, LOWER_R]
    else [c]
  }

  function EscapeAll(s: Text, exec: bool): Text {
    if s == [] then [] else Escape(s[0], exec) + EscapeAll(s[1..], exec)
  }

  /** quoteUnitWord. */
  function QuoteWord(s: Text, exec: bool): Text {
    [QUOTE] + (EscapeAll(s, exec) + [QUOTE])
  }

  /** Quoted words, each behind a space. */
  function WriteMore(words: seq<Text>, exec: bool): Text {
    if words == [] then [] else [SPACE] + (QuoteWord(words[0], exec) + WriteMore(words[1..], exec))
  }

  /** The words of a value, quoted and joined by a space. */
  function WriteWords(words: seq<Text>, exec: bool): Text {
    if words == [] then [] else QuoteWord(words[0], exec) + WriteMore(words[1..], exec)
  }

  // ---------------------------------------------------------------- reading

  /** The replacement of `\\(.)`, `%%` and `$$`, from the left. */
  function Unescape(s: Text, exec: bool): Text
    decreases |s|
  {
    if s == [] then []
    else if |s| >= 2 && s[0] == BACKSLASH && !EndsLine(s[1]) then
      [if s[1] == LOWER_N then NEWLINE else if s[1] == LOWER_T then TAB else if s[1] == LOWER_R then RETURN else s[1]]
      + Unescape(s[2..], exec)
    else if |s| >= 2 && s[0] == PERCENT && s[1] == PERCENT then [PERCENT] + Unescape(s[2..], exec)
    else if |s| >= 2 && s[0] == DOLLAR && s[1] == DOLLAR
         then (if exec then [DOLLAR] else [DOLLAR, DOLLAR]) + Unescape(s[2..], exec)
    else [s[0]] + Unescape(s[1..], exec)
  }

  /** Where the longest match of `(?:[^"\\]|\\.)*` from `i` on ends. */
  function Inside(line: Text, i: nat): (end: nat)
    requires i <= |line|
    ensures i <= end <= |line|
    decreases |line| - i
  {
    if i == |line| || line[i] == QUOTE then i
    else if line[i] != BACKSLASH then Inside(line, i + 1)
    else if i + 1 < |line| && !EndsLine(line[i + 1]) then Inside(line, i + 2)
    else i
  }

  /** Where the longest match of `[^\s"]*` ends. */
  function Bare(line: Text, i: nat): (end: nat)
    requires i <= |line|
    ensures i <= end <= |line|
    decreases |line| - i
  {
    if i == |line| || line[i] == QUOTE || IsSpace(line[i]) then i else Bare(line, i + 1)
  }

  /** Where the longest match of `\s*` ends. */
  function Spaces(line: Text, i: nat): (end: nat)
    requires i <= |line|
    ensures i <= end <= |line|
    decreases |line| - i
  {
    if i == |line| || !IsSpace(line[i]) then i else Spaces(line, i + 1)
  }

  /** What the word pattern matched: the raw word and where the match ends. */
  datatype Match = Match(raw: Text, end: nat)

  /**
   The word pattern at `i`. Each part can match in one way only: after the spaces a quote begins a
   quoted word, which ends at the first quote that is not escaped, and any other character begins a
   bare one.
   */
  function MatchWord(line: Text, i: nat): (m: Option<Match>)
    requires i <= |line|
    ensures m.Some? ==> i < m.value.end <= |line|
  {
    var start := Spaces(line, i);
    if start == |line| then None
    else if line[start] == QUOTE then
      var end := Inside(line, start + 1);
      if end < |line| && line[end] == QUOTE then Some(Match(line[start + 1..end], end + 1)) else None
    else if Bare(line, start) > start then Some(Match(line[start..Bare(line, start)], Bare(line, start)))
    else None
  }

  /** Nothing but spaces is left. */
  predicate Blank(line: Text, i: nat)
    requires i <= |line|
  {
    Spaces(line, i) == |line|
  }

  /** Words read before, and then the rest, if that could be read. */
  function Follow(out: seq<Text>, rest: Option<seq<Text>>): Option<seq<Text>> {
    if rest.None? then None else Some(out + rest.value)
  }

  /** The words of the line from `i` on. */
  function ReadWords(line: Text, i: nat, exec: bool): Option<seq<Text>>
    requires i <= |line|
    decreases |line| - i
  {
    if Blank(line, i) then Some([])
    else match MatchWord(line, i)
      case None => None
      case Some(Match(raw, end)) => Follow([Unescape(raw, exec)], ReadWords(line, end, exec))
  }

  lemma FollowNext(out: seq<Text>, word: Text, rest: Option<seq<Text>>)
    ensures Follow(out, Follow([word], rest)) == Follow(out + [word], rest)
    ensures Follow([], rest) == rest
  {
    if rest.Some? { assert out + ([word] + rest.value) == out + [word] + rest.value && [] + rest.value == rest.value; }
  }

  /** unitWords. */
  method UnitWords(line: Text, exec: bool) returns (r: Option<seq<Text>>)
    ensures r == ReadWords(line, 0, exec)
  {
    var out: seq<Text> := [];
    var index: nat := 0;
    FollowNext([], [], ReadWords(line, 0, exec));
    while index < |line| && !Blank(line, index)
      invariant index <= |line|
      invariant ReadWords(line, 0, exec) == Follow(out, ReadWords(line, index, exec))
      decreases |line| - index
    {
      var found := MatchWord(line, index);
      if found.None? { return None; }
      FollowNext(out, Unescape(found.value.raw, exec), ReadWords(line, found.value.end, exec));
      index := found.value.end;
      out := out + [Unescape(found.value.raw, exec)];
    }
    assert ReadWords(line, index, exec) == Some([]) && out + [] == out;
    return Some(out);
  }

  // ---------------------------------------------------------------- round trip

  lemma UnescapeOne(c: Unit, rest: Text, exec: bool)
    requires c != DOLLAR || exec
    ensures Unescape(Escape(c, exec) + rest, exec) == [c] + Unescape(rest, exec)
  {
    var s := Escape(c, exec) + rest;
    if |Escape(c, exec)| == 2 {
      assert s[2..] == rest;
    } else {
      assert s[1..] == rest;
    }
  }

  lemma UnescapeHead(s: Text, exec: bool)
    requires s != [] && (s[0] != DOLLAR || exec)
    ensures Unescape(EscapeAll(s, exec), exec) == [s[0]] + Unescape(EscapeAll(s[1..], exec), exec)
  {
    UnescapeOne(s[0], EscapeAll(s[1..], exec), exec);
  }

  lemma Rejoined(s: Text, n: nat)
    requires n <= |s|
    ensures s[..n] + s[n..] == s
  {
  }

  /** Unescaping undoes escaping, whatever the runs of `%`, `$` and backslashes. */
  lemma {:induction false} UnescapeAll(s: Text, exec: bool)
    ensures Unescape(EscapeAll(s, exec), exec) == s
    decreases |s|
  {
    if s != [] {
      var n := if s[0] == DOLLAR && !exec && |s| >= 2 && s[1] == DOLLAR then 2 else 1;
      if s[0] == DOLLAR && !exec { UnescapeDollar(s, exec); } else { UnescapeHead(s, exec); }
      UnescapeAll(s[n..], exec);
      assert s[..n] == if n == 2 then [DOLLAR, DOLLAR] else [s[0]];
      Rejoined(s, n);
    }
  }

  /** Outside command lines a `$` is written as it is, so a pair of them is read as a pair. */
  lemma UnescapeDollar(s: Text, exec: bool)
    requires !exec && s != [] && s[0] == DOLLAR
    ensures |s| >= 2 && s[1] == DOLLAR ==>
              Unescape(EscapeAll(s, exec), exec) == [DOLLAR, DOLLAR] + Unescape(EscapeAll(s[2..], exec), exec)
    ensures !(|s| >= 2 && s[1] == DOLLAR) ==>
              Unescape(EscapeAll(s, exec), exec) == [DOLLAR] + Unescape(EscapeAll(s[1..], exec), exec)
  {
    var rest := EscapeAll(s[1..], exec);
    assert EscapeAll(s, exec) == [DOLLAR] + rest;
    assert ([DOLLAR] + rest)[1..] == rest;
    if |s| >= 2 {
      assert s[1..][0] == s[1] && s[1..][1..] == s[2..];
      assert rest == Escape(s[1], exec) + EscapeAll(s[2..], exec);
      if s[1] == DOLLAR {
        assert ([DOLLAR] + rest)[2..] == EscapeAll(s[2..], exec);
      }
    }
  }

  /** `t` stands in the line at `i`. */
  ghost predicate Stands(line: Text, i: nat, t: Text) {
    i + |t| <= |line| && forall k | 0 <= k < |t| :: line[i + k] == t[k]
  }

  lemma StandsSplit(line: Text, i: nat, a: Text, b: Text)
    requires Stands(line, i, a + b)
    ensures Stands(line, i, a) && Stands(line, i + |a|, b)
  {
    var t := a + b;
    forall k | 0 <= k < |a| ensures line[i + k] == a[k] { assert t[k] == a[k]; }
    forall k | 0 <= k < |b| ensures line[i + |a| + k] == b[k] { assert t[|a| + k] == b[k]; }
  }

  lemma StandsUnit(line: Text, i: nat, c: Unit)
    requires Stands(line, i, [c])
    ensures i < |line| && line[i] == c
  {
    assert line[i + 0] == [c][0];
  }

  lemma StandsSlice(line: Text, i: nat, t: Text)
    requires Stands(line, i, t)
    ensures i + |t| <= |line| && line[i..i + |t|] == t
  {
  }

  lemma InsideOne(line: Text, i: nat, c: Unit, exec: bool)
    requires Stands(line, i, Escape(c, exec))
    ensures Inside(line, i) == Inside(line, i + |Escape(c, exec)|)
  {
    var e := Escape(c, exec);
    assert line[i + 0] == e[0];
    if |e| == 2 { assert line[i + 1] == e[1]; }
  }

  /** A quoted word ends where it was made to end. */
  lemma {:induction false} InsideEscaped(line: Text, i: nat, s: Text, exec: bool)
    requires Stands(line, i, EscapeAll(s, exec)) && i + |EscapeAll(s, exec)| < |line|
             && line[i + |EscapeAll(s, exec)|] == QUOTE
    ensures Inside(line, i) == i + |EscapeAll(s, exec)|
    decreases |s|
  {
    if s != [] {
      var e, rest := Escape(s[0], exec), EscapeAll(s[1..], exec);
      StandsSplit(line, i, e, rest);
      InsideOne(line, i, s[0], exec);
      InsideEscaped(line, i + |e|, s[1..], exec);
    }
  }

  lemma QuotedParts(line: Text, at: nat, s: Text, exec: bool)
    requires Stands(line, at, QuoteWord(s, exec))
    ensures var end := at + 1 + |EscapeAll(s, exec)|;
            && end < |line| && line[at] == QUOTE && line[end] == QUOTE && Stands(line, at + 1, EscapeAll(s, exec))
            && end + 1 == at + |QuoteWord(s, exec)|
  {
    var body := EscapeAll(s, exec);
    StandsSplit(line, at, [QUOTE], body + [QUOTE]);
    StandsSplit(line, at + 1, body, [QUOTE]);
    StandsUnit(line, at, QUOTE);
    StandsUnit(line, at + 1 + |body|, QUOTE);
  }

  lemma MatchQuoted(line: Text, i: nat, at: nat, end: nat)
    requires i <= at < end < |line| && Spaces(line, i) == at && line[at] == QUOTE
    requires Inside(line, at + 1) == end && line[end] == QUOTE
    ensures !Blank(line, i) && MatchWord(line, i) == Some(Match(line[at + 1..end], end + 1))
  {
  }

  lemma SpacesTo(line: Text, i: nat, at: nat)
    requires at < |line| && !IsSpace(line[at]) && (at == i || (at == i + 1 && line[i] == SPACE))
    ensures Spaces(line, i) == at
  {
    assert Spaces(line, at) == at;
  }

  lemma MatchOne(line: Text, i: nat, at: nat, s: Text, exec: bool)
    requires (at == i || (at == i + 1 && at <= |line| && line[i] == SPACE)) && Stands(line, at, QuoteWord(s, exec))
    ensures !Blank(line, i) && MatchWord(line, i) == Some(Match(EscapeAll(s, exec), at + |QuoteWord(s, exec)|))
  {
    var end := at + 1 + |EscapeAll(s, exec)|;
    QuotedParts(line, at, s, exec);
    SpacesTo(line, i, at);
    InsideEscaped(line, at + 1, s, exec);
    MatchQuoted(line, i, at, end);
    StandsSlice(line, at + 1, EscapeAll(s, exec));
  }

  /** A quoted word standing behind at most one space is read, and reading goes on after it. */
  lemma ReadOne(line: Text, i: nat, at: nat, s: Text, exec: bool)
    requires (at == i || (at == i + 1 && at <= |line| && line[i] == SPACE)) && Stands(line, at, QuoteWord(s, exec))
    ensures ReadWords(line, i, exec) == Follow([s], ReadWords(line, at + |QuoteWord(s, exec)|, exec))
  {
    MatchOne(line, i, at, s, exec);
    UnescapeAll(s, exec);
  }

  /** A space, a quoted word, and the rest, which begins at `j`. */
  lemma MoreParts(line: Text, i: nat, word: Text, more: Text, exec: bool) returns (j: nat)
    requires Stands(line, i, [SPACE] + (QuoteWord(word, exec) + more))
    ensures i < |line| && line[i] == SPACE && Stands(line, i + 1, QuoteWord(word, exec))
    ensures j == i + 1 + |QuoteWord(word, exec)| && Stands(line, j, more)
            && j + |more| == i + |[SPACE] + (QuoteWord(word, exec) + more)|
  {
    var first := QuoteWord(word, exec);
    StandsSplit(line, i, [SPACE], first + more);
    StandsUnit(line, i, SPACE);
    StandsSplit(line, i + 1, first, more);
    j := i + 1 + |first|;
  }

  lemma ReadNext(line: Text, i: nat, word: Text, more: Text, exec: bool) returns (j: nat)
    requires Stands(line, i, [SPACE] + (QuoteWord(word, exec) + more))
             && i + |[SPACE] + (QuoteWord(word, exec) + more)| == |line|
    ensures Stands(line, j, more) && j + |more| == |line|
    ensures ReadWords(line, i, exec) == Follow([word], ReadWords(line, j, exec))
  {
    j := MoreParts(line, i, word, more, exec);
    ReadOne(line, i, i + 1, word, exec);
  }

  lemma {:induction false} ReadMore(line: Text, i: nat, words: seq<Text>, exec: bool)
    requires Stands(line, i, WriteMore(words, exec)) && i + |WriteMore(words, exec)| == |line|
    ensures ReadWords(line, i, exec) == Some(words)
    decreases |words|
  {
    if words == [] {
      assert Blank(line, i);
    } else {
      var j := ReadNext(line, i, words[0], WriteMore(words[1..], exec), exec);
      ReadMore(line, j, words[1..], exec);
      FollowRest(words);
    }
  }

  lemma FollowRest(words: seq<Text>)
    requires words != []
    ensures Follow([words[0]], Some(words[1..])) == Some(words)
  {
    assert [words[0]] + words[1..] == words;
  }

  /** The word-list round trip: every list of strings, in a command line or not, is read back as it was. */
  lemma WordsRoundTrip(words: seq<Text>, exec: bool)
    ensures ReadWords(WriteWords(words, exec), 0, exec) == Some(words)
  {
    if words != [] {
      var line, first, more := WriteWords(words, exec), QuoteWord(words[0], exec), WriteMore(words[1..], exec);
      assert Stands(line, 0, first + more);
      StandsSplit(line, 0, first, more);
      ReadOne(line, 0, 0, words[0], exec);
      ReadMore(line, |first|, words[1..], exec);
      FollowRest(words);
    }
  }

  /** A written word stays on its line: no newline, tab or carriage return is left in it. */
  lemma {:induction false} WrittenOnOneLine(s: Text, exec: bool)
    ensures forall c | c in EscapeAll(s, exec) :: c !in {NEWLINE, TAB, RETURN}
    decreases |s|
  {
    if s != [] {
      WrittenOnOneLine(s[1..], exec);
      assert forall c | c in Escape(s[0], exec) :: c !in {NEWLINE, TAB, RETURN};
    }
  }

  // ---------------------------------------------------------------- exactly what is read

  /** A word of a line: where it begins and ends, quotes included. */
  datatype Span = Span(start: nat, end: nat, quoted: bool)

  ghost predicate AllSpace(line: Text, from: nat, to: nat)
    requires from <= to <= |line|
  {
    forall k | from <= k < to :: IsSpace(line[k])
  }

  /** No unescaped quote, and no backslash without a character to escape. */
  predicate Closed(s: Text)
    decreases |s|
  {
    || s == []
    || (s[0] != QUOTE && s[0] != BACKSLASH && Closed(s[1..]))
    || (|s| >= 2 && s[0] == BACKSLASH && !EndsLine(s[1]) && Closed(s[2..]))
  }

  /** A quoted word, or the longest run without spaces and quotes. */
  ghost predicate IsWord(line: Text, w: Span) {
    && w.start < w.end <= |line|
    && if w.quoted then
         && w.start + 2 <= w.end && line[w.start] == QUOTE && line[w.end - 1] == QUOTE
         && Closed(line[w.start + 1..w.end - 1])
       else
         && (forall k | w.start <= k < w.end :: !IsSpace(line[k]) && line[k] != QUOTE)
         && (w.end == |line| || IsSpace(line[w.end]) || line[w.end] == QUOTE)
  }

  /** From `i` on the line is these words and spaces around them. */
  ghost predicate Spelled(line: Text, i: nat, words: seq<Span>)
    requires i <= |line|
    decreases |words|
  {
    if words == [] then AllSpace(line, i, |line|)
    else
      && i <= words[0].start && IsWord(line, words[0]) && AllSpace(line, i, words[0].start)
      && Spelled(line, words[0].end, words[1..])
  }

  function Raw(line: Text, w: Span): Text {
    if w.quoted && 0 < w.start + 1 < w.end <= |line| then line[w.start + 1..w.end - 1]
    else if w.start <= w.end <= |line| then line[w.start..w.end] else []
  }

  function Meant(line: Text, words: seq<Span>, exec: bool): seq<Text> {
    seq(|words|, k requires 0 <= k < |words| => Unescape(Raw(line, words[k]), exec))
  }

  lemma {:induction false} SpacesIs(line: Text, i: nat)
    requires i <= |line|
    ensures var end := Spaces(line, i); AllSpace(line, i, end) && (end == |line| || !IsSpace(line[end]))
    decreases |line| - i
  {
    if i < |line| && IsSpace(line[i]) { SpacesIs(line, i + 1); }
  }

  lemma {:induction false} BareIs(line: Text, i: nat)
    requires i <= |line|
    ensures var end := Bare(line, i);
            && (forall k | i <= k < end :: !IsSpace(line[k]) && line[k] != QUOTE)
            && (end == |line| || IsSpace(line[end]) || line[end] == QUOTE)
    decreases |line| - i
  {
    if i < |line| && line[i] != QUOTE && !IsSpace(line[i]) { BareIs(line, i + 1); }
  }

  lemma {:induction false} InsideIsClosed(line: Text, i: nat)
    requires i <= |line|
    ensures Closed(line[i..Inside(line, i)])
    decreases |line| - i
  {
    var end := Inside(line, i);
    if end > i {
      var s := line[i..end];
      if line[i] != BACKSLASH {
        InsideIsClosed(line, i + 1);
        assert s[1..] == line[i + 1..end];
      } else {
        InsideIsClosed(line, i + 2);
        assert s[2..] == line[i + 2..end] && s[1] == line[i + 1];
      }
    }
  }

  lemma {:induction false} ClosedIsInside(line: Text, i: nat, end: nat)
    requires i <= end < |line| && line[end] == QUOTE && Closed(line[i..end])
    ensures Inside(line, i) == end
    decreases |line| - i
  {
    if i < end {
      var s := line[i..end];
      assert s[0] == line[i];
      if s[0] == BACKSLASH {
        assert s[1] == line[i + 1] && s[2..] == line[i + 2..end];
        ClosedIsInside(line, i + 2, end);
      } else {
        assert s[1..] == line[i + 1..end];
        ClosedIsInside(line, i + 1, end);
      }
    }
  }

  lemma MatchIsWord(line: Text, i: nat) returns (w: Span)
    requires i <= |line| && MatchWord(line, i).Some?
    ensures i <= w.start && IsWord(line, w) && AllSpace(line, i, w.start)
    ensures MatchWord(line, i) == Some(Match(Raw(line, w), w.end))
  {
    SpacesIs(line, i);
    var start := Spaces(line, i);
    if line[start] == QUOTE {
      InsideIsClosed(line, start + 1);
      w := Span(start, Inside(line, start + 1) + 1, true);
    } else {
      BareIs(line, start);
      w := Span(start, Bare(line, start), false);
    }
  }

  lemma WordIsMatch(line: Text, i: nat, w: Span)
    requires i <= w.start && IsWord(line, w) && AllSpace(line, i, w.start)
    ensures !Blank(line, i) && MatchWord(line, i) == Some(Match(Raw(line, w), w.end))
  {
    SpacesIs(line, i);
    assert !IsSpace(line[w.start]);
    assert Spaces(line, i) == w.start;
    if w.quoted {
      ClosedIsInside(line, w.start + 1, w.end - 1);
    } else {
      BareIs(line, w.start);
    }
  }

  lemma MeantRest(line: Text, words: seq<Span>, exec: bool)
    requires words != []
    ensures Meant(line, words, exec) == [Unescape(Raw(line, words[0]), exec)] + Meant(line, words[1..], exec)
  {
  }

  lemma {:induction false} SpelledIsRead(line: Text, i: nat, words: seq<Span>, exec: bool)
    requires i <= |line| && Spelled(line, i, words)
    ensures ReadWords(line, i, exec) == Some(Meant(line, words, exec))
    decreases |words|
  {
    if words == [] {
      SpacesIs(line, i);
      assert Blank(line, i) && Meant(line, words, exec) == [];
    } else {
      WordIsMatch(line, i, words[0]);
      SpelledIsRead(line, words[0].end, words[1..], exec);
      MeantRest(line, words, exec);
    }
  }

  lemma {:induction false} ReadIsSpelled(line: Text, i: nat, exec: bool) returns (words: seq<Span>)
    requires i <= |line| && ReadWords(line, i, exec).Some?
    ensures Spelled(line, i, words)
    decreases |line| - i
  {
    if Blank(line, i) {
      SpacesIs(line, i);
      words := [];
    } else {
      var w := MatchIsWord(line, i);
      var rest := ReadIsSpelled(line, w.end, exec);
      words := [w] + rest;
      assert words[1..] == rest;
    }
  }

  /**
   Every line, written by Stim or not: it is read as some words if and only if it is made of those words,
   quoted or bare, with spaces around them, and is refused if it is not so made.
   */
  lemma ReadsExactly(line: Text, exec: bool, out: seq<Text>)
    ensures ReadWords(line, 0, exec) == Some(out) <==>
              exists words :: Spelled(line, 0, words) && out == Meant(line, words, exec)
  {
    if ReadWords(line, 0, exec) == Some(out) {
      var words := ReadIsSpelled(line, 0, exec);
      SpelledIsRead(line, 0, words, exec);
    }
    forall words | Spelled(line, 0, words) ensures ReadWords(line, 0, exec) == Some(Meant(line, words, exec)) {
      SpelledIsRead(line, 0, words, exec);
    }
  }

  // ---------------------------------------------------------------- exactly what a raw word means

  /** What a replacement takes: a backslash and a character, two percent signs, two dollars, or nothing special. */
  datatype Piece = Escaped(c: Unit) | Percents | Dollars | Kept(c: Unit)

  function Written(p: Piece): Text {
    match p
    case Escaped(c) => [BACKSLASH, c]
    case Percents => [PERCENT, PERCENT]
    case Dollars => [DOLLAR, DOLLAR]
    case Kept(c) => [c]
  }

  /** The character an escape stands for. */
  ghost predicate StandsFor(c: Unit, x: Unit) {
    && (c == LOWER_N ==> x == NEWLINE) && (c == LOWER_T ==> x == TAB) && (c == LOWER_R ==> x == RETURN)
    && (c !in {LOWER_N, LOWER_T, LOWER_R} ==> x == c)
  }

  ghost predicate Means(p: Piece, exec: bool, out: Text) {
    match p
    case Escaped(c) => |out| == 1 && StandsFor(c, out[0])
    case Percents => out == [PERCENT]
    case Dollars => out == if exec then [DOLLAR] else [DOLLAR, DOLLAR]
    case Kept(c) => out == [c]
  }

  /** The text is these pieces, each the longest that could be taken where it begins. */
  ghost predicate Pieces(s: Text, ps: seq<Piece>)
    decreases |ps|
  {
    if ps == [] then s == []
    else
      && Written(ps[0]) <= s && Pieces(s[|Written(ps[0])|..], ps[1..])
      && (ps[0].Escaped? ==> !EndsLine(ps[0].c))
      && (ps[0].Kept? && |s| >= 2 ==>
            !((s[0] == BACKSLASH && !EndsLine(s[1])) || (s[0] == s[1] && s[0] in {PERCENT, DOLLAR})))
  }

  /** The pieces' meanings, one after another. */
  ghost predicate Spells(ps: seq<Piece>, exec: bool, out: Text)
    decreases |ps|
  {
    if ps == [] then out == []
    else exists n: nat :: n <= |out| && Means(ps[0], exec, out[..n]) && Spells(ps[1..], exec, out[n..])
  }

  /** Every raw word is made of such pieces, and unescaping gives what they mean. */
  lemma {:induction false} UnescapeExactly(s: Text, exec: bool) returns (ps: seq<Piece>)
    ensures Pieces(s, ps) && Spells(ps, exec, Unescape(s, exec))
    decreases |s|
  {
    if s == [] {
      ps := [];
    } else {
      var out := Unescape(s, exec);
      var p := if |s| >= 2 && s[0] == BACKSLASH && !EndsLine(s[1]) then Escaped(s[1])
               else if |s| >= 2 && s[0] == PERCENT && s[1] == PERCENT then Percents
               else if |s| >= 2 && s[0] == DOLLAR && s[1] == DOLLAR then Dollars else Kept(s[0]);
      var n: nat := if p.Dollars? && !exec then 2 else 1;
      var rest := UnescapeExactly(s[|Written(p)|..], exec);
      ps := [p] + rest;
      assert ps[1..] == rest && out[n..] == Unescape(s[|Written(p)|..], exec);
      assert Means(p, exec, out[..n]);
    }
  }

  /** No text is made of pieces in two ways. */
  lemma {:induction false} OnePieces(s: Text, ps: seq<Piece>, qs: seq<Piece>)
    requires Pieces(s, ps) && Pieces(s, qs)
    ensures ps == qs
    decreases |ps|
  {
    if ps != [] && qs != [] {
      var p, q := ps[0], qs[0];
      assert Written(p)[0] == s[0] && Written(q)[0] == s[0];
      assert |Written(p)| == 2 ==> s[1] == Written(p)[1];
      assert |Written(q)| == 2 ==> s[1] == Written(q)[1];
      assert p == q;
      OnePieces(s[|Written(p)|..], ps[1..], qs[1..]);
    }
  }
}
