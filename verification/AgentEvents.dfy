/**
 packages/core/state/agent-actions.ts: the events file of an agent session, read piece by piece as it
 grows. Reading it at any moments, in batches of 500 lines, finds what one reading of the whole file
 would. The file is text here; JSON is a parameter.
 */
module AgentEvents {
  import opened Options

  datatype Version = One | Unrecognized(text: string)

  datatype Kind = ActionRecorded | RequestFinished | RequestStarted | OtherKind

  /** A line's JSON object; None for a field of another type. */
  datatype Entry = Entry(version: Version, ts: Option<int>, session: Option<string>, kind: Kind,
                         command: Option<string>,
                         summary: Option<string>, error: bool, requestId: Option<string>)

  datatype Event = Event(ts: int, session: string, kind: Kind, command: string, summary: string, failed: bool,
                         requestId: Option<string>)

  datatype Unknown = Unknown(version: string, ts: Option<int>)

  datatype Parsed = Parsed(events: seq<Event>, started: seq<(string, int)>, finished: seq<string>,
                           session: Option<string>, unknown: Option<Unknown>)

  const Empty := Parsed([], [], [], None, None)

  /** JSON.parse of a line; None when it throws or gives no object. An empty line throws. */
  type Json = string -> Option<Entry>

  const NEWLINE: char := '\n'
  const BATCH: nat := 500

  function First<T>(a: Option<T>, b: Option<T>): Option<T> {
    if a.Some? then a else b
  }

  /** What was parsed, and then what was parsed after it. */
  function Merge(a: Parsed, b: Parsed): Parsed {
    Parsed(a.events + b.events, a.started + b.started, a.finished + b.finished, First(a.session, b.session),
           First(a.unknown, b.unknown))
  }

  predicate Named(id: Option<string>) {
    id.Some? && id.value != ""
  }

  /** parseAgentEvents, on one line. */
  function ParseLine(json: Json, line: string): Parsed {
    if json(line).None? then Empty
    else
      var e := json(line).value;
      if e.version != One then Empty.(unknown := Some(Unknown(e.version.text, e.ts)))
      else
        var started := if e.kind == RequestStarted && Named(e.requestId) && e.ts.Some?
                       then [(e.requestId.value, e.ts.value)] else [];
        var scope := e.kind == RequestStarted && (e.command == Some("open") || e.command == Some("close"));
        var done := e.kind == RequestFinished && !e.error;
        var finished := if done && Named(e.requestId) then [e.requestId.value] else [];
        var shown := (e.kind == ActionRecorded || (e.kind == RequestFinished && e.error) || scope)
                     && e.ts.Some? && e.session.Some? && e.command.Some? && (e.summary.Some? || scope);
        var events := if shown
                      then [Event(e.ts.value, e.session.value, e.kind, e.command.value,
                                  if e.summary.Some? then e.summary.value else "",
                                  e.kind == RequestFinished, e.requestId)]
                      else [];
        Parsed(events, started, finished, e.session, None)
  }

  function Parse(json: Json, lines: seq<string>): Parsed {
    if lines == [] then Empty else Merge(ParseLine(json, lines[0]), Parse(json, lines[1..]))
  }

  lemma MergeLaws(a: Parsed, b: Parsed, c: Parsed)
    ensures Merge(Merge(a, b), c) == Merge(a, Merge(b, c)) && Merge(a, Empty) == a && Merge(Empty, a) == a
  {
  }

  lemma {:induction false} ParseBoth(json: Json, a: seq<string>, b: seq<string>)
    ensures Parse(json, a + b) == Merge(Parse(json, a), Parse(json, b))
    decreases |a|
  {
    MergeLaws(Parse(json, b), Empty, Empty);
    if a == [] {
      assert a + b == b;
    } else {
      assert (a + b)[1..] == a[1..] + b;
      ParseBoth(json, a[1..], b);
      MergeLaws(ParseLine(json, a[0]), Parse(json, a[1..]), Parse(json, b));
    }
  }

  lemma ParseOne(json: Json, line: string)
    ensures Parse(json, [line]) == ParseLine(json, line)
  {
    MergeLaws(ParseLine(json, line), Empty, Empty);
  }

  /** parseAgentEvents: the loop over the lines. */
  method ParseAgentEvents(json: Json, lines: seq<string>) returns (parsed: Parsed)
    ensures parsed == Parse(json, lines)
  {
    parsed := Empty;
    for i := 0 to |lines|
      invariant parsed == Parse(json, lines[..i])
    {
      assert lines[..i + 1] == lines[..i] + [lines[i]];
      ParseBoth(json, lines[..i], [lines[i]]);
      ParseOne(json, lines[i]);
      parsed := Merge(parsed, ParseLine(json, lines[i]));
    }
    assert lines[..|lines|] == lines;
  }

  // ---------------------------------------------------------------- what a parse finds

  /** The line is a version-1 object for which `P` holds. */
  ghost predicate Says(json: Json, line: string, P: Entry -> bool) {
    json(line).Some? && json(line).value.version == One && P(json(line).value)
  }

  /** `out` has one element for each line for which `P` holds, in the order of the lines, with `Q` between them. */
  ghost predicate Lists<T(!new)>(json: Json, lines: seq<string>, P: Entry -> bool, Q: (Entry, T) -> bool,
                                 out: seq<T>, at: seq<nat>) {
    && |at| == |out|
    && (forall j, k | 0 <= j < k < |at| :: at[j] < at[k])
    && (forall k | 0 <= k < |at| ::
          at[k] < |lines| && Says(json, lines[at[k]], P) && Q(json(lines[at[k]]).value, out[k]))
    && (forall i | 0 <= i < |lines| && Says(json, lines[i], P) :: i in at)
  }

  /** A request that ended in an error. */
  predicate Fails(e: Entry) {
    e.kind == RequestFinished && e.error
  }

  predicate OpensOrCloses(e: Entry) {
    e.kind == RequestStarted && e.command.Some? && e.command.value in {"open", "close"}
  }

  /** A recorded action, a failed request, or the start of an open or close, which alone needs no summary. */
  function IsShown(): Entry -> bool {
    (e: Entry) => (e.kind == ActionRecorded || Fails(e) || OpensOrCloses(e))
                  && e.ts.Some? && e.session.Some? && e.command.Some? && (OpensOrCloses(e) || e.summary.Some?)
  }

  function ShownAs(): (Entry, Event) -> bool {
    (e: Entry, x: Event) =>
      && e.ts == Some(x.ts) && e.session == Some(x.session) && e.command == Some(x.command) && x.kind == e.kind
      && x.requestId == e.requestId && (x.failed <==> Fails(e))
      && (e.summary == Some(x.summary) || (e.summary.None? && x.summary == ""))
  }

  function IsStart(): Entry -> bool {
    (e: Entry) => e.kind == RequestStarted && e.requestId.Some? && e.requestId.value != "" && e.ts.Some?
  }

  function StartedAs(): (Entry, (string, int)) -> bool {
    (e: Entry, x: (string, int)) => e.requestId == Some(x.0) && e.ts == Some(x.1)
  }

  function IsFinish(): Entry -> bool {
    (e: Entry) => e.kind == RequestFinished && !e.error && e.requestId.Some? && e.requestId.value != ""
  }

  function FinishedAs(): (Entry, string) -> bool {
    (e: Entry, x: string) => e.requestId == Some(x)
  }

  /** The session a version-1 line names. */
  function SessionOn(json: Json): string -> Option<string> {
    (line: string) => if json(line).Some? && json(line).value.version == One then json(line).value.session else None
  }

  /** The version another line has, with its time. */
  function UnknownOn(json: Json): string -> Option<Unknown> {
    (line: string) => if json(line).Some? && json(line).value.version.Unrecognized?
                      then Some(Unknown(json(line).value.version.text, json(line).value.ts)) else None
  }

  /** `found` is what the first line that has any gives. */
  ghost predicate IsFirst<T(!new)>(lines: seq<string>, f: string -> Option<T>, found: Option<T>) {
    || (found.None? && forall i | 0 <= i < |lines| :: f(lines[i]).None?)
    || exists i :: 0 <= i < |lines| && found.Some? && f(lines[i]) == found && forall j | 0 <= j < i :: f(lines[j]).None?
  }

  lemma ListsMore<T(!new)>(json: Json, lines: seq<string>, line: string, P: Entry -> bool, Q: (Entry, T) -> bool,
                           out: seq<T>, at: seq<nat>, more: seq<T>) returns (at': seq<nat>)
    requires Lists(json, lines, P, Q, out, at)
    requires if Says(json, line, P) then |more| == 1 && Q(json(line).value, more[0]) else more == []
    ensures Lists(json, lines + [line], P, Q, out + more, at')
  {
    var all, res := lines + [line], out + more;
    at' := if more == [] then at else at + [|lines|];
    forall k | 0 <= k < |at'|
      ensures at'[k] < |all| && Says(json, all[at'[k]], P) && Q(json(all[at'[k]]).value, res[k])
    {
      if k < |at| { assert at'[k] == at[k] && res[k] == out[k] && all[at[k]] == lines[at[k]]; }
    }
    forall i | 0 <= i < |all| && Says(json, all[i], P) ensures i in at' {
      if i < |lines| { assert all[i] == lines[i] && i in at; } else { assert at'[|at|] == i; }
    }
  }

  lemma FirstMore<T(!new)>(lines: seq<string>, line: string, f: string -> Option<T>, found: Option<T>)
    requires IsFirst(lines, f, found)
    ensures IsFirst(lines + [line], f, First(found, f(line)))
  {
    var all := lines + [line];
    if found.Some? {
      var i :| 0 <= i < |lines| && f(lines[i]) == found && forall j | 0 <= j < i :: f(lines[j]).None?;
      assert all[i] == lines[i] && forall j | 0 <= j < i :: all[j] == lines[j];
    } else if f(line).Some? {
      assert all[|lines|] == line && forall j | 0 <= j < |lines| :: all[j] == lines[j];
    }
  }

  lemma OneLine(json: Json, line: string)
    ensures var p := ParseLine(json, line);
            && (if Says(json, line, IsShown()) then |p.events| == 1 && ShownAs()(json(line).value, p.events[0])
                else p.events == [])
            && (if Says(json, line, IsStart()) then |p.started| == 1 && StartedAs()(json(line).value, p.started[0])
                else p.started == [])
            && (if Says(json, line, IsFinish()) then |p.finished| == 1 && FinishedAs()(json(line).value, p.finished[0])
                else p.finished == [])
            && p.session == SessionOn(json)(line) && p.unknown == UnknownOn(json)(line)
  {
  }

  /**
   What a parse finds, line by line: an event for each recorded action, failed request and start of an
   open or close that has the fields it needs, with `failed` on the failed requests alone; the starts
   and the requests that finished without an error, by id; each in the order of the lines. The session
   is the first one named, the unknown version the first one met.
   */
  lemma {:induction false} ParseFinds(json: Json, lines: seq<string>) returns (shown: seq<nat>, started: seq<nat>,
                                                                               finished: seq<nat>)
    ensures var p := Parse(json, lines);
            && Lists(json, lines, IsShown(), ShownAs(), p.events, shown)
            && Lists(json, lines, IsStart(), StartedAs(), p.started, started)
            && Lists(json, lines, IsFinish(), FinishedAs(), p.finished, finished)
            && IsFirst(lines, SessionOn(json), p.session) && IsFirst(lines, UnknownOn(json), p.unknown)
    decreases |lines|
  {
    if lines == [] {
      shown, started, finished := [], [], [];
    } else {
      var init, line := lines[..|lines| - 1], lines[|lines| - 1];
      assert lines == init + [line];
      var p, one := Parse(json, init), ParseLine(json, line);
      shown, started, finished := ParseFinds(json, init);
      ParseBoth(json, init, [line]);
      ParseOne(json, line);
      OneLine(json, line);
      shown := ListsMore(json, init, line, IsShown(), ShownAs(), p.events, shown, one.events);
      started := ListsMore(json, init, line, IsStart(), StartedAs(), p.started, started, one.started);
      finished := ListsMore(json, init, line, IsFinish(), FinishedAs(), p.finished, finished, one.finished);
      FirstMore(init, line, SessionOn(json), p.session);
      FirstMore(init, line, UnknownOn(json), p.unknown);
    }
  }

  /** The batches of 500 lines change nothing. */
  method ParseBatches(json: Json, lines: seq<string>) returns (parsed: Parsed)
    ensures parsed == Parse(json, lines)
  {
    parsed := Empty;
    var offset := 0;
    while offset < |lines|
      invariant 0 <= offset <= |lines|
      invariant parsed == Parse(json, lines[..offset])
      decreases |lines| - offset
    {
      var end := if offset + BATCH <= |lines| then offset + BATCH else |lines|;
      var batch := ParseAgentEvents(json, lines[offset..end]);
      assert lines[..end] == lines[..offset] + lines[offset..end];
      ParseBoth(json, lines[..offset], lines[offset..end]);
      parsed := Merge(parsed, batch);
      offset := end;
    }
    assert lines[..offset] == lines;
  }

  // ---------------------------------------------------------------- text and lines

  /** One more character in front of the lines of a text. */
  function Front(c: char, lines: seq<string>): (more: seq<string>)
    requires lines != []
    ensures more != []
  {
    if c == NEWLINE then [""] + lines else [[c] + lines[0]] + lines[1..]
  }

  /** `split('\n')`: there is always a last piece, after the last newline. */
  function Split(text: string): (lines: seq<string>)
    ensures lines != []
  {
    if text == [] then [""] else Front(text[0], Split(text[1..]))
  }

  /** The lines with a newline between each two. */
  function Join(lines: seq<string>): string
    requires lines != []
    decreases |lines|
  {
    if |lines| == 1 then lines[0] else lines[0] + [NEWLINE] + Join(lines[1..])
  }

  lemma JoinFront(c: char, lines: seq<string>)
    requires lines != []
    ensures Join(Front(c, lines)) == [c] + Join(lines)
  {
    var more := Front(c, lines);
    if c == NEWLINE {
      assert more[1..] == lines;
    } else if |lines| > 1 {
      assert more[1..] == lines[1..];
    }
  }

  /** The lines of a text hold no newline, and joined by newlines they are the text. */
  lemma {:induction false} SplitIsExact(text: string)
    ensures Join(Split(text)) == text && forall i | 0 <= i < |Split(text)| :: NEWLINE !in Split(text)[i]
    decreases |text|
  {
    if text != [] {
      SplitIsExact(text[1..]);
      JoinFront(text[0], Split(text[1..]));
      assert [text[0]] + text[1..] == text;
    }
  }

  /** Ends at a line's end. */
  predicate Whole(text: string) {
    text == [] || text[|text| - 1] == NEWLINE
  }

  /** `all` are the lines of a whole text, but its empty last piece, and then `more`. */
  ghost predicate Joins(lines: seq<string>, more: seq<string>, all: seq<string>) {
    lines != [] && lines[|lines| - 1] == "" && all == lines[..|lines| - 1] + more
  }

  lemma FrontJoins(c: char, lines: seq<string>, more: seq<string>, all: seq<string>)
    requires Joins(lines, more, all) && more != [] && (c == NEWLINE || |lines| > 1)
    ensures Joins(Front(c, lines), more, Front(c, all))
  {
    var next := Front(c, lines);
    if c == NEWLINE {
      assert next[..|next| - 1] == [""] + lines[..|lines| - 1];
    } else {
      assert next[..|next| - 1] == [[c] + lines[0]] + lines[1..|lines| - 1];
    }
  }

  lemma {:induction false} SplitWhole(a: string, b: string)
    requires Whole(a)
    ensures Joins(Split(a), Split(b), Split(a + b))
    ensures a != [] ==> |Split(a)| > 1
    decreases |a|
  {
    if a == [] {
      assert a + b == b;
    } else {
      var tail := a[1..];
      assert (a + b)[0] == a[0] && (a + b)[1..] == tail + b;
      if tail != [] { assert tail[|tail| - 1] == a[|a| - 1]; }
      SplitWhole(tail, b);
      FrontJoins(a[0], Split(tail), Split(b), Split(tail + b));
    }
  }

  lemma JoinsParse(json: Json, lines: seq<string>, more: seq<string>, all: seq<string>)
    requires json("").None? && Joins(lines, more, all)
    ensures Parse(json, all) == Merge(Parse(json, lines), Parse(json, more))
  {
    var init := lines[..|lines| - 1];
    assert lines == init + [""];
    ParseBoth(json, init, [""]);
    ParseOne(json, "");
    MergeLaws(Parse(json, init), Empty, Empty);
    ParseBoth(json, init, more);
  }

  /** Reading text in two pieces, cut at a line's end, finds what reading it at once does. */
  lemma ReadInTwo(json: Json, file: string, from: nat, cut: nat, to: nat)
    requires json("").None? && from <= cut <= to <= |file| && Whole(file[from..cut])
    ensures Parse(json, Split(file[from..to])) ==
              Merge(Parse(json, Split(file[from..cut])), Parse(json, Split(file[cut..to])))
  {
    assert file[from..to] == file[from..cut] + file[cut..to];
    SplitWhole(file[from..cut], file[cut..to]);
    JoinsParse(json, Split(file[from..cut]), Split(file[cut..to]), Split(file[from..to]));
  }

  // ---------------------------------------------------------------- the growing file

  /** Just past the last newline of a text; 0 when it has none. */
  function LastEnd(text: string): (end: nat)
    ensures end <= |text|
  {
    if text == [] then 0
    else if text[|text| - 1] == NEWLINE then |text|
    else LastEnd(text[..|text| - 1])
  }

  lemma {:induction false} LastEndIs(text: string)
    ensures Whole(text[..LastEnd(text)]) && NEWLINE !in text[LastEnd(text)..]
    decreases |text|
  {
    if text != [] && text[|text| - 1] != NEWLINE {
      var init, n := text[..|text| - 1], LastEnd(text);
      LastEndIs(init);
      assert init[..n] == text[..n];
      assert text[n..] == init[n..] + [text[|text| - 1]];
    }
  }

  /** What readSync put in the buffer: `got` characters from `start`, or all there are. */
  function Visible(file: string, start: nat, got: nat): string
    requires start <= |file|
  {
    if start + got <= |file| then file[start..start + got] else file[start..]
  }

  datatype Chunk = Chunk(text: string, next: nat, size: nat)

  /** readCompleteLines. */
  function ReadCompleteLines(file: string, start: nat, got: nat): Chunk {
    if |file| <= start then Chunk("", start, |file|)
    else
      var seen := Visible(file, start, got);
      Chunk(seen[..LastEnd(seen)], start + LastEnd(seen), |file|)
  }

  /** A moment at which the file is read: what it holds then, and how much the read gets. */
  datatype Moment = Moment(file: string, got: nat)

  /** The cursor's offset and all that was parsed, over any number of reads. */
  function ReadAll(json: Json, offset: nat, moments: seq<Moment>): (nat, Parsed)
    decreases |moments|
  {
    if moments == [] then (offset, Empty)
    else
      var chunk := ReadCompleteLines(moments[0].file, offset, moments[0].got);
      var (last, rest) := ReadAll(json, chunk.next, moments[1..]);
      (last, Merge(Parse(json, Split(chunk.text)), rest))
  }

  /** The file only grows. */
  ghost predicate Grows(moments: seq<Moment>) {
    forall i | 0 < i < |moments| :: moments[i - 1].file <= moments[i].file
  }

  lemma ReadOnce(file: string, start: nat, got: nat)
    requires start <= |file| && Whole(file[..start])
    ensures var c := ReadCompleteLines(file, start, got);
            && start <= c.next <= |file| && c.text == file[start..c.next] && Whole(file[..c.next]) && Whole(c.text)
            && (start + got >= |file| ==> NEWLINE !in file[c.next..])
  {
    var c := ReadCompleteLines(file, start, got);
    if start < |file| {
      var seen := Visible(file, start, got);
      LastEndIs(seen);
      assert seen[..LastEnd(seen)] == file[start..c.next];
      if LastEnd(seen) == 0 {
        assert file[..c.next] == file[..start];
      } else {
        assert c.text[|c.text| - 1] == file[c.next - 1];
      }
      if start + got >= |file| { assert seen[LastEnd(seen)..] == file[c.next..]; }
    } else {
      assert file[c.next..] == [];
    }
  }

  /** What a read leaves holds of the file at the next moment too. */
  lemma Carries(file: string, later: string, start: nat, next: nat)
    requires start <= next <= |file| && Whole(file[..next]) && file <= later
    ensures next <= |later| && Whole(later[..next]) && later[start..next] == file[start..next]
  {
    assert later[..next] == file[..next];
    assert later[start..next] == later[..next][start..] && file[start..next] == file[..next][start..];
  }

  /** One read of a text that begins the text `final`, in terms of `final`. */
  lemma ReadWithin(m: Moment, offset: nat, final: string)
    requires m.file <= final && offset <= |m.file| && Whole(final[..offset])
    ensures var c := ReadCompleteLines(m.file, offset, m.got);
            offset <= c.next <= |m.file| && Whole(final[..c.next]) && c.text == final[offset..c.next] && Whole(c.text)
  {
    assert final[..offset] == m.file[..offset];
    ReadOnce(m.file, offset, m.got);
    Carries(m.file, final, offset, ReadCompleteLines(m.file, offset, m.got).next);
  }

  /** Moments of a growing file, all of them beginnings of `final`, the first of at least `offset` characters. */
  ghost predicate Begins(moments: seq<Moment>, final: string, offset: nat) {
    && (forall i | 0 <= i < |moments| :: moments[i].file <= final) && Grows(moments)
    && (moments != [] ==> offset <= |moments[0].file|)
  }

  lemma BeginsTail(moments: seq<Moment>, final: string, offset: nat, next: nat)
    requires Begins(moments, final, offset) && moments != [] && next <= |moments[0].file|
    ensures Begins(moments[1..], final, next) && moments[0].file <= final
  {
    if |moments| > 1 { assert moments[0].file <= moments[1].file; }
  }

  lemma Glue(json: Json, text: string, rest: Parsed, final: string, from: nat, cut: nat, to: nat)
    requires json("").None? && from <= cut <= to <= |final| && text == final[from..cut] && Whole(text)
    requires rest == Parse(json, Split(final[cut..to]))
    ensures Merge(Parse(json, Split(text)), rest) == Parse(json, Split(final[from..to]))
  {
    ReadInTwo(json, final, from, cut, to);
  }

  /** Reads of texts that all begin the text `final` find what one reading of that part of `final` finds. */
  lemma {:induction false} ReadsAreOne(json: Json, offset: nat, moments: seq<Moment>, final: string)
    requires json("").None? && Begins(moments, final, offset) && offset <= |final| && Whole(final[..offset])
    ensures var (last, parsed) := ReadAll(json, offset, moments);
            && offset <= last <= |final| && Whole(final[..last]) && parsed == Parse(json, Split(final[offset..last]))
    decreases |moments|
  {
    if moments == [] {
      assert final[offset..offset] == "";
      ParseOne(json, "");
    } else {
      BeginsTail(moments, final, offset, offset);
      ReadWithin(moments[0], offset, final);
      var c := ReadCompleteLines(moments[0].file, offset, moments[0].got);
      BeginsTail(moments, final, offset, c.next);
      ReadsAreOne(json, c.next, moments[1..], final);
      var rest := ReadAll(json, c.next, moments[1..]);
      Glue(json, c.text, rest.1, final, offset, c.next, rest.0);
    }
  }

  lemma {:induction false} GrowsTo(moments: seq<Moment>, i: nat)
    requires Grows(moments) && i < |moments|
    ensures moments[i].file <= moments[|moments| - 1].file
    decreases |moments| - i
  {
    if i + 1 < |moments| {
      GrowsTo(moments, i + 1);
      assert moments[i].file <= moments[i + 1].file;
    }
  }

  /**
   For a file that only grows, read at any moments: all the reads together find the events, starts and
   finishes, in order, that one reading of the file up to the last line end seen finds, each line
   once; and if the last read got all there was, that is the file's last line end.
   */
  lemma IncrementalIsOneShot(json: Json, moments: seq<Moment>)
    requires json("").None? && Grows(moments) && moments != []
    ensures var (last, parsed) := ReadAll(json, 0, moments);
            var end := moments[|moments| - 1];
            && last <= |end.file| && Whole(end.file[..last]) && parsed == Parse(json, Split(end.file[..last]))
            && (end.got >= |end.file| ==> last == LastEnd(end.file))
  {
    var end := moments[|moments| - 1];
    forall i | 0 <= i < |moments| ensures moments[i].file <= end.file {
      GrowsTo(moments, i);
    }
    ReadsAreOne(json, 0, moments, end.file);
    var (last, parsed) := ReadAll(json, 0, moments);
    assert end.file[0..last] == end.file[..last];
    if end.got >= |end.file| {
      LastIsEnd(json, 0, moments);
      OneEnd(end.file, last);
    }
  }

  lemma {:induction false} LastIsEnd(json: Json, offset: nat, moments: seq<Moment>)
    requires json("").None? && Grows(moments) && moments != []
    requires offset <= |moments[0].file| && Whole(moments[0].file[..offset])
    requires moments[|moments| - 1].got >= |moments[|moments| - 1].file|
    ensures var (last, _) := ReadAll(json, offset, moments);
            last <= |moments[|moments| - 1].file| && NEWLINE !in moments[|moments| - 1].file[last..]
    decreases |moments|
  {
    var m := moments[0];
    ReadOnce(m.file, offset, m.got);
    var c := ReadCompleteLines(m.file, offset, m.got);
    var rest := moments[1..];
    if rest != [] {
      assert m.file <= rest[0].file && rest[0].file[..c.next] == m.file[..c.next];
      LastIsEnd(json, c.next, rest);
    }
  }

  lemma OneEnd(text: string, n: nat)
    requires n <= |text| && Whole(text[..n]) && NEWLINE !in text[n..]
    ensures n == LastEnd(text)
  {
    LastEndIs(text);
    WholeEnds(text, n, LastEnd(text));
    WholeEnds(text, LastEnd(text), n);
  }

  lemma WholeEnds(text: string, n: nat, m: nat)
    requires n <= |text| && m <= |text| && Whole(text[..m])
    ensures n < m ==> NEWLINE in text[n..]
  {
    if n < m { assert text[n..][m - 1 - n] == text[..m][m - 1]; }
  }

  // ---------------------------------------------------------------- the cursor

  /** A file that a read opened: which one it is, and what was in it. */
  datatype Opened = Opened(moment: Moment, identity: string)

  /** What the two reads of one visit would answer; None when the file cannot be opened or read. */
  datatype Visit = Visit(first: Option<Opened>, again: Option<Opened>)

  datatype Cursor = Cursor(offset: nat, identity: Option<string>)

  /** The file shrank, or another one is in its place. */
  predicate Replaced(c: Cursor, o: Opened) {
    |o.moment.file| < c.offset || (c.identity.Some? && c.identity.value != o.identity)
  }

  function ChunkOf(o: Opened, start: nat): Chunk {
    ReadCompleteLines(o.moment.file, start, o.moment.got)
  }

  /** The read that counts, and where it started; None when it failed. */
  function Answer(c: Cursor, v: Visit): Option<(Opened, nat)> {
    if v.first.None? then None
    else if !Replaced(c, v.first.value) then Some((v.first.value, c.offset))
    else if v.again.Some? then Some((v.again.value, 0)) else None
  }

  function After(c: Cursor, v: Visit): Cursor {
    match Answer(c, v)
    case None => c
    case Some((o, start)) => Cursor(ChunkOf(o, start).next, Some(o.identity))
  }

  /** What one visit adds. */
  function Added(json: Json, c: Cursor, v: Visit): Parsed {
    match Answer(c, v)
    case None => Empty
    case Some((o, start)) => Parse(json, Split(ChunkOf(o, start).text))
  }

  /** The cursor after any number of visits, and all they added. */
  function Visits(json: Json, c: Cursor, visits: seq<Visit>): (Cursor, Parsed)
    decreases |visits|
  {
    if visits == [] then (c, Empty)
    else
      var (last, rest) := Visits(json, After(c, visits[0]), visits[1..]);
      (last, Merge(Added(json, c, visits[0]), rest))
  }

  /** The moments of the first reads that opened the file. */
  function Moments(visits: seq<Visit>): seq<Moment>
    decreases |visits|
  {
    if visits == [] then []
    else (if visits[0].first.Some? then [visits[0].first.value.moment] else []) + Moments(visits[1..])
  }

  /** Every first read either fails or opens this file. */
  ghost predicate Opens(visits: seq<Visit>, id: string) {
    forall i | 0 <= i < |visits| :: visits[i].first.Some? ==> visits[i].first.value.identity == id
  }

  lemma MomentsNext(visits: seq<Visit>)
    requires visits != []
    ensures visits[0].first.None? ==> Moments(visits) == Moments(visits[1..])
    ensures visits[0].first.Some? ==> Moments(visits) == [visits[0].first.value.moment] + Moments(visits[1..])
  {
  }

  /** A visit that finds the file grown goes on from the offset. */
  lemma SteadyVisit(json: Json, c: Cursor, v: Visit, m: Moment)
    requires v.first.Some? && v.first.value.moment == m && !Replaced(c, v.first.value)
    ensures var chunk := ReadCompleteLines(m.file, c.offset, m.got);
            After(c, v) == Cursor(chunk.next, Some(v.first.value.identity))
            && Added(json, c, v) == Parse(json, Split(chunk.text))
  {
  }

  lemma ReadAllNext(json: Json, offset: nat, m: Moment, more: seq<Moment>)
    ensures var chunk := ReadCompleteLines(m.file, offset, m.got);
            var (last, rest) := ReadAll(json, chunk.next, more);
            ReadAll(json, offset, [m] + more) == (last, Merge(Parse(json, Split(chunk.text)), rest))
  {
    assert ([m] + more)[1..] == more;
  }

  /** The cursor stands at a line end of a file that all these visits find, growing, when they find one. */
  ghost predicate Steady(c: Cursor, visits: seq<Visit>, id: string, final: string) {
    && Opens(visits, id) && (c.identity.Some? ==> c.identity.value == id)
    && Begins(Moments(visits), final, c.offset) && c.offset <= |final| && Whole(final[..c.offset])
  }

  lemma SteadyNext(json: Json, c: Cursor, visits: seq<Visit>, id: string, final: string)
    requires Steady(c, visits, id, final) && visits != []
    ensures Steady(After(c, visits[0]), visits[1..], id, final)
    ensures visits[0].first.Some? ==> !Replaced(c, visits[0].first.value)
  {
    var v := visits[0];
    MomentsNext(visits);
    if v.first.Some? {
      BeginsTail(Moments(visits), final, c.offset, c.offset);
      ReadWithin(v.first.value.moment, c.offset, final);
      SteadyVisit(json, c, v, v.first.value.moment);
      BeginsTail(Moments(visits), final, c.offset, After(c, v).offset);
    }
  }

  /** A cursor on one growing file reads as ReadAll does, whatever reads fail between. */
  lemma {:induction false} SteadyVisits(json: Json, c: Cursor, visits: seq<Visit>, id: string, final: string)
    requires Steady(c, visits, id, final)
    ensures var (last, parsed) := Visits(json, c, visits);
            (last.offset, parsed) == ReadAll(json, c.offset, Moments(visits))
    decreases |visits|
  {
    if visits != [] {
      var v, later := visits[0], visits[1..];
      SteadyNext(json, c, visits, id, final);
      SteadyVisits(json, After(c, v), later, id, final);
      MomentsNext(visits);
      if v.first.None? {
        MergeLaws(Visits(json, c, later).1, Empty, Empty);
      } else {
        SteadyVisit(json, c, v, v.first.value.moment);
        ReadAllNext(json, c.offset, v.first.value.moment, Moments(later));
      }
    }
  }

  /**
   What is asked of a whole reading: the lines of the file up to `last`, each once, to its last line end
   if the last read got all.
   */
  ghost predicate ReadOut(json: Json, moments: seq<Moment>, last: nat, parsed: Parsed)
    requires moments != []
  {
    var end := moments[|moments| - 1];
    && last <= |end.file| && Whole(end.file[..last]) && parsed == Parse(json, Split(end.file[..last]))
    && (end.got >= |end.file| ==> last == LastEnd(end.file))
  }

  lemma BeginsLast(moments: seq<Moment>)
    requires Grows(moments) && moments != []
    ensures Begins(moments, moments[|moments| - 1].file, 0)
  {
    forall i | 0 <= i < |moments| ensures moments[i].file <= moments[|moments| - 1].file {
      GrowsTo(moments, i);
    }
  }

  /** A new cursor's visits to one growing file, some of which fail, read each of its lines once. */
  lemma CursorReadsOnce(json: Json, visits: seq<Visit>, id: string)
    requires json("").None? && Opens(visits, id) && Grows(Moments(visits)) && Moments(visits) != []
    ensures var (last, parsed) := Visits(json, Cursor(0, None), visits);
            ReadOut(json, Moments(visits), last.offset, parsed)
  {
    var moments := Moments(visits);
    BeginsLast(moments);
    SteadyVisits(json, Cursor(0, None), visits, id, moments[|moments| - 1].file);
    IncrementalIsOneShot(json, moments);
  }

  /** Wherever the cursor stood, once it finds the file replaced its visits read each line of the new file once. */
  lemma RotationRestarts(json: Json, c: Cursor, visits: seq<Visit>, id: string)
    requires json("").None? && visits != [] && visits[0].first.Some? && Replaced(c, visits[0].first.value)
    requires visits[0].again.Some? && visits[0].again.value.identity == id && Opens(visits[1..], id)
    requires Grows([visits[0].again.value.moment] + Moments(visits[1..]))
    ensures var (last, parsed) := Visits(json, c, visits);
            ReadOut(json, [visits[0].again.value.moment] + Moments(visits[1..]), last.offset, parsed)
  {
    var restart := [Visit(visits[0].again, None)] + visits[1..];
    assert restart[1..] == visits[1..];
    assert Moments(restart) == [visits[0].again.value.moment] + Moments(visits[1..]);
    CursorReadsOnce(json, restart, id);
    SameVisit(json, c, visits[0], restart[0]);
  }

  lemma SameVisit(json: Json, c: Cursor, v: Visit, w: Visit)
    requires v.first.Some? && Replaced(c, v.first.value) && v.again.Some? && w.first == v.again
    ensures After(c, v) == After(Cursor(0, None), w) && Added(json, c, v) == Added(json, Cursor(0, None), w)
  {
  }

  class SessionCursor {
    var offset: nat
    var identity: Option<string>

    function Now(): Cursor
      reads this
    {
      Cursor(offset, identity)
    }

    constructor ()
      ensures Now() == Cursor(0, None)
    {
      offset, identity := 0, None;
    }

    /**
     One visit: a file that shrank or was replaced is read again from its start; a read that fails leaves
     the cursor as it was and nothing is parsed. `rotated` are the lines that go first, of a cursor just made.
     */
    method Read(json: Json, rotated: seq<string>, v: Visit) returns (parsed: Option<Parsed>)
      modifies this
      ensures Now() == After(old(Now()), v)
      ensures parsed == if Answer(old(Now()), v).None? then None
                        else Some(Merge(Parse(json, rotated), Added(json, old(Now()), v)))
    {
      var found, start := v.first, offset;
      if found.Some? && (ChunkOf(found.value, offset).size < offset
                         || (identity.Some? && found.value.identity != identity.value)) {
        found, start := v.again, 0;
      }
      if found.None? { return None; }
      var chunk := ChunkOf(found.value, start);
      identity := Some(found.value.identity);
      offset := chunk.next;
      var all := ParseBatches(json, rotated + Split(chunk.text));
      ParseBoth(json, rotated, Split(chunk.text));
      parsed := Some(all);
    }
  }
}
