/**
 The job pipe of packages/core/noise-session.ts: `jobFrame` writes a message behind a 4-byte length
 and a type byte, and JobFrameReader takes the stream apart again, whatever chunks it comes in.
 */
module JobFrames {
  import opened Options
  import opened NoiseModel

  const MAX_SERVER_MESSAGE_BYTES: nat := 16 * 1024 * 1024
  const MAX_JOB_FRAME_BYTES: nat := MAX_SERVER_MESSAGE_BYTES + 1

  datatype Job = Job(data: Bytes, binary: bool)

  function WriteUInt32BE(n: nat): Bytes
    requires n < 0x1_0000_0000
  {
    [n / 256 / 256 / 256, n / 256 / 256 % 256, n / 256 % 256, n % 256]
  }

  function ReadUInt32BE(b: Bytes): nat
    requires |b| >= 4
  {
    ((b[0] as int * 256 + b[1]) * 256 + b[2]) * 256 + b[3]
  }

  lemma UInt32RoundTrip(n: nat)
    requires n < 0x1_0000_0000
    ensures ReadUInt32BE(WriteUInt32BE(n)) == n
  {
    var high := n / 256;
    assert high == high / 256 * 256 + high % 256 && n == high * 256 + n % 256;
  }

  lemma ByteOut(high: nat, low: Byte)
    ensures (high * 256 + low) / 256 == high && (high * 256 + low) % 256 == low
  {
  }

  lemma UInt32Unique(b: Bytes)
    requires |b| == 4
    ensures ReadUInt32BE(b) < 0x1_0000_0000 && WriteUInt32BE(ReadUInt32BE(b)) == b
  {
    ByteOut((b[0] as int * 256 + b[1]) * 256 + b[2], b[3]);
    ByteOut(b[0] as int * 256 + b[1], b[2]);
    ByteOut(b[0], b[1]);
  }

  /** jobFrame; a length that does not fit four bytes throws. */
  function Frame(m: Job): Option<Bytes> {
    if |m.data| + 1 >= 0x1_0000_0000 then None
    else Some(WriteUInt32BE(|m.data| + 1) + [if m.binary then BINARY else TEXT] + m.data)
  }

  /** What a stream holds: its whole frames, what is left, and whether that begins with a frame the reader refuses. */
  datatype Parsed = Parsed(frames: seq<Job>, rest: Bytes, bad: bool)

  /** What a stream begins with: less than a frame, a frame the reader refuses, or a whole message of `size` bytes. */
  datatype Head = Short | Refused | Whole(m: Job, size: nat)

  function HeadOf(b: Bytes): Head {
    if |b| < 4 then Short
    else
      var length := ReadUInt32BE(b);
      if length < 1 || length > MAX_JOB_FRAME_BYTES then Refused
      else if |b| < 4 + length then Short
      else if b[4] != TEXT && b[4] != BINARY then Refused
      else Whole(Job(b[5..4 + length], b[4] == BINARY), 4 + length)
  }

  function Parse(b: Bytes): Parsed
    decreases |b|
  {
    var head := HeadOf(b);
    if head.Whole? then
      var tail := Parse(b[head.size..]);
      tail.(frames := [head.m] + tail.frames)
    else Parsed([], b, head.Refused?)
  }

  /** A head that is not short stays what it is when more arrives. */
  lemma HeadStays(a: Bytes, b: Bytes)
    requires HeadOf(a) != Short
    ensures HeadOf(a + b) == HeadOf(a)
    ensures HeadOf(a).Whole? ==> HeadOf(a).size <= |a| && (a + b)[HeadOf(a).size..] == a[HeadOf(a).size..] + b
  {
    var length := ReadUInt32BE(a);
    assert ReadUInt32BE(a + b) == length;
    if 1 <= length <= MAX_JOB_FRAME_BYTES {
      assert (a + b)[5..4 + length] == a[5..4 + length];
      assert (a + b)[4 + length..] == a[4 + length..] + b;
    }
  }

  /** A whole head is a frame that jobFrame writes. */
  lemma HeadIsFrame(b: Bytes)
    requires HeadOf(b).Whole?
    ensures var h := HeadOf(b);
            5 <= h.size <= |b| && |h.m.data| <= MAX_SERVER_MESSAGE_BYTES && Frame(h.m) == Some(b[..h.size])
  {
    UInt32Unique(b[..4]);
    var m := HeadOf(b).m;
    assert b[..4] + [b[4]] + m.data == b[..HeadOf(b).size];
  }

  /** The messages one after another, as the pipe carries them. */
  function Pipe(ms: seq<Job>): Bytes
    requires forall m <- ms :: |m.data| <= MAX_SERVER_MESSAGE_BYTES
  {
    if ms == [] then [] else Frame(ms[0]).value + Pipe(ms[1..])
  }

  lemma ParseFrame(m: Job, more: Bytes)
    requires |m.data| <= MAX_SERVER_MESSAGE_BYTES
    ensures var tail := Parse(more);
            Parse(Frame(m).value + more) == tail.(frames := [m] + tail.frames)
  {
    var b := Frame(m).value + more;
    var length := |m.data| + 1;
    assert b[..4] == WriteUInt32BE(length);
    UInt32RoundTrip(length);
    assert ReadUInt32BE(b) == length;
    assert b[5..4 + length] == m.data && b[4 + length..] == more;
    assert HeadOf(b) == Whole(m, 4 + length);
  }

  /** The messages are read back, with their types, and nothing is left: for every list within the server limit. */
  lemma {:induction false} ReadsWhatWasWritten(ms: seq<Job>)
    requires forall m <- ms :: |m.data| <= MAX_SERVER_MESSAGE_BYTES
    ensures Parse(Pipe(ms)) == Parsed(ms, [], false)
    decreases |ms|
  {
    if ms != [] {
      ReadsWhatWasWritten(ms[1..]);
      ParseFrame(ms[0], Pipe(ms[1..]));
      assert [ms[0]] + ms[1..] == ms;
    }
  }

  /** A frame, byte by byte: four of length, the most significant first, one of type, and the message. */
  lemma FrameBytes(m: Job)
    ensures Frame(m).Some? <==> |m.data| + 1 < 0x1_0000_0000
    ensures Frame(m).Some? ==>
              var f := Frame(m).value;
              && |f| == 5 + |m.data| && f[5..] == m.data && f[4] == (if m.binary then 2 else 1)
              && f[0] as int * 16777216 + f[1] as int * 65536 + f[2] as int * 256 + f[3] as int == |m.data| + 1
  {
    if Frame(m).Some? {
      var f := Frame(m).value;
      UInt32RoundTrip(|m.data| + 1);
      assert f[..4] == WriteUInt32BE(|m.data| + 1) && f[5..] == m.data;
      assert ReadUInt32BE(f[..4]) == |m.data| + 1;
    }
  }

  /**
   The rest begins with a frame that is refused exactly if its length is 0 or too large, or it is whole
   and of no type.
   */
  lemma {:induction false} RefusedExactly(b: Bytes)
    ensures var p := Parse(b);
            p.bad <==>
              && |p.rest| >= 4
              && var length := p.rest[0] as int * 16777216 + p.rest[1] as int * 65536 + p.rest[2] as int * 256
                               + p.rest[3] as int;
              length == 0 || length > MAX_SERVER_MESSAGE_BYTES + 1
              || (|p.rest| >= 4 + length && p.rest[4] != 1 && p.rest[4] != 2)
    decreases |b|
  {
    if HeadOf(b).Whole? {
      RefusedExactly(b[HeadOf(b).size..]);
    } else if |b| >= 4 {
      assert ReadUInt32BE(b) == b[0] as int * 16777216 + b[1] as int * 65536 + b[2] as int * 256 + b[3] as int;
    }
  }

  /** A frame is refused exactly when its message is over the server limit. */
  lemma RefusesTheOversized(m: Job)
    requires Frame(m).Some?
    ensures Parse(Frame(m).value) == (if |m.data| <= MAX_SERVER_MESSAGE_BYTES then Parsed([m], [], false)
                                      else Parsed([], Frame(m).value, true))
  {
    if |m.data| <= MAX_SERVER_MESSAGE_BYTES {
      ParseFrame(m, []);
      assert Frame(m).value + [] == Frame(m).value;
    } else {
      UInt32RoundTrip(|m.data| + 1);
    }
  }

  lemma Regroup(b: Bytes, size: nat, piped: Bytes, rest: Bytes)
    requires size <= |b| && b[size..] == piped + rest
    ensures b == (b[..size] + piped) + rest
  {
    assert b == b[..size] + b[size..];
  }

  /** Every stream is the frames read from it, written again, and then the rest: nothing is lost, added or reordered. */
  lemma {:induction false} NothingLost(b: Bytes)
    ensures (forall m <- Parse(b).frames :: |m.data| <= MAX_SERVER_MESSAGE_BYTES)
    ensures b == Pipe(Parse(b).frames) + Parse(b).rest
    decreases |b|
  {
    var head := HeadOf(b);
    if head.Whole? {
      HeadIsFrame(b);
      var tail := Parse(b[head.size..]);
      NothingLost(b[head.size..]);
      assert Parse(b).frames == [head.m] + tail.frames && Parse(b).frames[1..] == tail.frames;
      Regroup(b, head.size, Pipe(tail.frames), tail.rest);
    }
  }

  /** What is kept holds no whole frame: reading it again finds none, and the same refusal. */
  lemma {:induction false} RestHoldsNoFrame(b: Bytes)
    ensures var p := Parse(b); Parse(p.rest) == Parsed([], p.rest, p.bad) && !HeadOf(p.rest).Whole?
    ensures var p := Parse(b); !p.bad ==> |p.rest| < 4 + MAX_JOB_FRAME_BYTES
    decreases |b|
  {
    if HeadOf(b).Whole? {
      RestHoldsNoFrame(b[HeadOf(b).size..]);
    }
  }

  lemma ParseWhole(a: Bytes, b: Bytes)
    requires HeadOf(a).Whole?
    ensures var h := HeadOf(a);
            && h.size <= |a|
            && var p, q := Parse(a[h.size..]), Parse(a[h.size..] + b);
               Parse(a) == p.(frames := [h.m] + p.frames) && Parse(a + b) == q.(frames := [h.m] + q.frames)
  {
    HeadStays(a, b);
  }

  /** `whole` is what `first` found and then what `later` found. */
  ghost predicate Continues(whole: Parsed, first: Parsed, later: Parsed) {
    whole == later.(frames := first.frames + later.frames)
  }

  lemma ContinuesCons(m: Job, whole: Parsed, first: Parsed, later: Parsed)
    requires Continues(whole, first, later)
    ensures Continues(whole.(frames := [m] + whole.frames), first.(frames := [m] + first.frames), later)
  {
    assert ([m] + first.frames) + later.frames == [m] + (first.frames + later.frames);
  }

  /** One more frame is read off the front of what is left. */
  lemma ContinuesNext(whole: Parsed, frames: seq<Job>, b: Bytes)
    requires HeadOf(b).Whole? && Continues(whole, Parsed(frames, [], false), Parse(b))
    ensures Continues(whole, Parsed(frames + [HeadOf(b).m], [], false), Parse(b[HeadOf(b).size..]))
  {
    var m, tail := HeadOf(b).m, Parse(b[HeadOf(b).size..]);
    assert frames + ([m] + tail.frames) == frames + [m] + tail.frames;
  }

  /** Reading a prefix first and the rest later comes to the same as reading at once. */
  lemma {:induction false} ParseInTwo(a: Bytes, b: Bytes)
    ensures Continues(Parse(a + b), Parse(a), Parse(Parse(a).rest + b))
    decreases |a|
  {
    var h := HeadOf(a);
    if h.Whole? {
      ParseWhole(a, b);
      var tail := a[h.size..];
      ParseInTwo(tail, b);
      ContinuesCons(h.m, Parse(tail + b), Parse(tail), Parse(Parse(tail).rest + b));
    }
  }

  // ---------------------------------------------------------------- the reader

  class JobFrameReader {
    var buffered: Bytes

    constructor ()
      ensures buffered == []
    {
      buffered := [];
    }

    /** push: the frames this chunk completes, or the RangeError of the first frame it refuses. */
    method Push(chunk: Bytes) returns (r: Option<seq<Job>>)
      modifies this
      ensures var p := Parse(old(buffered) + chunk);
              buffered == p.rest && r == if p.bad then None else Some(p.frames)
    {
      ghost var whole := old(buffered) + chunk;
      buffered := if buffered != [] then buffered + chunk else chunk;
      assert buffered == whole;
      var frames: seq<Job> := [];
      while |buffered| >= 4
        invariant Continues(Parse(whole), Parsed(frames, [], false), Parse(buffered))
        decreases |buffered|
      {
        var length := ReadUInt32BE(buffered);
        if length < 1 || length > MAX_JOB_FRAME_BYTES { return None; }
        if |buffered| < 4 + length { break; }
        var kind := buffered[4];
        if kind != TEXT && kind != BINARY { return None; }
        var m := Job(buffered[5..4 + length], kind == BINARY);
        assert HeadOf(buffered) == Whole(m, 4 + length);
        ContinuesNext(Parse(whole), frames, buffered);
        frames := frames + [m];
        buffered := buffered[4 + length..];
      }
      assert HeadOf(buffered) == Short && frames + [] == frames;
      return Some(frames);
    }

    /** partial. */
    predicate Partial()
      reads this
    {
      |buffered| > 0
    }
  }

  /** A reader's whole life: the frames returned before the first throw, what it keeps, and whether it threw. */
  function Feed(kept: Bytes, chunks: seq<Bytes>): Parsed
    decreases |chunks|
  {
    if chunks == [] then Parsed([], kept, false)
    else
      var p := Parse(kept + chunks[0]);
      if p.bad then Parsed([], p.rest, true)
      else var more := Feed(p.rest, chunks[1..]); more.(frames := p.frames + more.frames)
  }

  function Concat(chunks: seq<Bytes>): Bytes {
    if chunks == [] then [] else chunks[0] + Concat(chunks[1..])
  }

  lemma {:induction false} FeedIsParse(kept: Bytes, chunks: seq<Bytes>)
    requires Parse(kept) == Parsed([], kept, false)
    ensures var fed, whole := Feed(kept, chunks), Parse(kept + Concat(chunks));
            && fed.bad == whole.bad && fed.frames <= whole.frames
            && (!whole.bad ==> fed == whole)
    decreases |chunks|
  {
    if chunks == [] {
      assert kept + Concat(chunks) == kept;
    } else {
      var a, b := kept + chunks[0], Concat(chunks[1..]);
      assert kept + Concat(chunks) == a + b;
      ParseInTwo(a, b);
      RestHoldsNoFrame(a);
      if Parse(a).bad {
        ThrowsForGood(a, b);
      } else {
        FeedIsParse(Parse(a).rest, chunks[1..]);
      }
    }
  }

  /**
   However a stream is cut into chunks, the reader returns exactly the frames of the stream and keeps
   exactly its rest; and it throws if and only if the stream holds a frame it refuses, having
   returned no frame that is not there.
   */
  lemma ChunkingIsInvisible(chunks: seq<Bytes>)
    ensures var fed, whole := Feed([], chunks), Parse(Concat(chunks));
            && fed.bad == whole.bad && fed.frames <= whole.frames
            && (!whole.bad ==> fed == whole)
  {
    FeedIsParse([], chunks);
    assert [] + Concat(chunks) == Concat(chunks);
  }

  /** The reader inverts jobFrame under every chunking. */
  lemma ReaderInvertsFrames(ms: seq<Job>, chunks: seq<Bytes>)
    requires forall m <- ms :: |m.data| <= MAX_SERVER_MESSAGE_BYTES
    requires Concat(chunks) == Pipe(ms)
    ensures Feed([], chunks) == Parsed(ms, [], false)
  {
    ChunkingIsInvisible(chunks);
    ReadsWhatWasWritten(ms);
  }

  /** Once it has thrown it throws for good: what it keeps begins with the refused frame, whatever is pushed. */
  lemma ThrowsForGood(b: Bytes, chunk: Bytes)
    requires Parse(b).bad
    ensures Parse(Parse(b).rest + chunk) == Parsed([], Parse(b).rest + chunk, true)
  {
    RestHoldsNoFrame(b);
    HeadStays(Parse(b).rest, chunk);
  }
}
