/**
 * Docker's multiplexed log stream: frames of an 8-byte header (stream, three ignored bytes, big-endian
 * size) and a payload, cut back into lines per stream. Lines may straddle frames, and frames straddle
 * the 4096-byte chunks they are read in; a partial line is flushed once it reaches the maximum.
 */
module Demux {

  newtype byte = x: int | 0 <= x < 256

  type Bytes = seq<byte>

  const NEWLINE: byte := 10
  const MAX_LINE := 16384
  const CHUNK := 4096

  /** One call of the line callback. */
  datatype Emitted = Emitted(stream: byte, line: Bytes)

  // ---------- What the reader does, as functions ----------

  function FirstNewline(data: Bytes): (i: nat)
    ensures i <= |data|
    ensures i < |data| ==> data[i] == NEWLINE
    ensures forall j :: 0 <= j < i ==> data[j] != NEWLINE
  {
    if data == [] || data[0] == NEWLINE then 0 else 1 + FirstNewline(data[1..])
  }

  datatype Scanned = Scanned(pieces: seq<Bytes>, rest: Bytes)

  /** One chunk, with `buf` left over from before. */
  function Scan(buf: Bytes, data: Bytes): Scanned
    decreases |data|
  {
    if data == [] then Scanned([], buf)
    else
      var i := FirstNewline(data);
      if i == |data| then
        if |buf + data| >= MAX_LINE then Scanned([buf + data], []) else Scanned([], buf + data)
      else
        var r := Scan([], data[i + 1..]);
        Scanned([buf + data[..i]] + r.pieces, r.rest)
  }

  /** A payload, in chunks. */
  function ScanPayload(buf: Bytes, payload: Bytes): Scanned
    decreases |payload|
  {
    if payload == [] then Scanned([], buf)
    else
      var n := if |payload| < CHUNK then |payload| else CHUNK;
      var a := Scan(buf, payload[..n]);
      var b := ScanPayload(a.rest, payload[n..]);
      Scanned(a.pieces + b.pieces, b.rest)
  }

  function Tag(s: byte, pieces: seq<Bytes>): seq<Emitted> {
    if pieces == [] then [] else [Emitted(s, pieces[0])] + Tag(s, pieces[1..])
  }

  /** What was emitted so far, and the partial line of each stream. */
  datatype Reader = Reader(out: seq<Emitted>, partial: map<byte, Bytes>)

  const START := Reader([], map[1 := [], 2 := []])

  predicate IsOpen(r: Reader) { r.partial.Keys == {1, 2} }

  function Feed(r: Reader, s: byte, payload: Bytes): (t: Reader)
    requires IsOpen(r) && (s == 1 || s == 2)
    ensures IsOpen(t)
  {
    var x := ScanPayload(r.partial[s], payload);
    Reader(r.out + Tag(s, x.pieces), r.partial[s := x.rest])
  }

  function FlushOne(r: Reader, s: byte): (t: Reader)
    requires IsOpen(r) && (s == 1 || s == 2)
    ensures IsOpen(t)
  {
    if |r.partial[s]| > 0 then Reader(r.out + [Emitted(s, r.partial[s])], r.partial[s := []]) else r
  }

  function Finish(r: Reader): seq<Emitted>
    requires IsOpen(r)
  {
    FlushOne(FlushOne(r, 1), 2).out
  }

  function BigEndian(b: Bytes): (n: nat)
    requires |b| == 4
  {
    ((b[0] as int * 256 + b[1] as int) * 256 + b[2] as int) * 256 + b[3] as int
  }

  /** How much of an incomplete payload is read: only whole chunks. */
  function InWholeChunks(n: nat): (m: nat)
    ensures m <= n
  {
    n - n % CHUNK
  }

  /** Everything emitted for an input, complete or cut short anywhere. */
  function Run(r: Reader, input: Bytes): seq<Emitted>
    requires IsOpen(r)
    decreases |input|
  {
    if |input| < 8 then Finish(r)
    else
      var s, size, body := input[0], BigEndian(input[4..8]), input[8..];
      if s != 1 && s != 2 then
        if |body| < size then r.out else Run(r, body[size..]) // cut short while skipping: nothing is flushed
      else if |body| < size then Finish(Feed(r, s, body[..InWholeChunks(|body|)]))
      else Run(Feed(r, s, body[..size]), body[size..])
  }

  /** Whether the input ends where a header is read, the only place where a read error is passed on. */
  predicate EndsInHeader(input: Bytes)
    decreases |input|
  {
    if |input| < 8 then true
    else
      var size, body := BigEndian(input[4..8]), input[8..];
      |body| >= size && EndsInHeader(body[size..])
  }

  // ---------- The reader ----------

  /** A payload may be cut at any whole number of chunks. */
  lemma {:induction false} ScanPayloadSplit(buf: Bytes, payload: Bytes, n: nat)
    requires n <= |payload| && n % CHUNK == 0
    ensures var a := ScanPayload(buf, payload[..n]);
            var b := ScanPayload(a.rest, payload[n..]);
            ScanPayload(buf, payload) == Scanned(a.pieces + b.pieces, b.rest)
    decreases n
  {
    hide Scan;
    if n == 0 {
      assert payload[0..] == payload;
    } else {
      var first, tail := payload[..CHUNK], payload[CHUNK..];
      var x := Scan(buf, first);
      assert payload[..n][..CHUNK] == first && payload[..n][CHUNK..] == tail[..n - CHUNK] && tail[n - CHUNK..] == payload[n..];
      var y := ScanPayload(x.rest, tail[..n - CHUNK]);
      ScanPayloadSplit(x.rest, tail, n - CHUNK);
      assert ScanPayload(buf, payload[..n]) == Scanned(x.pieces + y.pieces, y.rest);
      var z := ScanPayload(y.rest, payload[n..]);
      assert x.pieces + (y.pieces + z.pieces) == x.pieces + y.pieces + z.pieces;
    }
  }

  lemma {:induction false} TagConcat(s: byte, a: seq<Bytes>, b: seq<Bytes>)
    ensures Tag(s, a + b) == Tag(s, a) + Tag(s, b)
  {
    if a == [] {
      assert a + b == b;
    } else {
      assert (a + b)[1..] == a[1..] + b;
      TagConcat(s, a[1..], b);
    }
  }

  /** Appends one chunk to a partial line, calling back for every line it completes. */
  method ScanChunk(s: byte, buf: Bytes, chunk: Bytes) returns (out: seq<Emitted>, rest: Bytes)
    ensures out == Tag(s, Scan(buf, chunk).pieces) && rest == Scan(buf, chunk).rest
  {
    out, rest := [], buf;
    var data := chunk;
    while |data| > 0
      invariant Tag(s, Scan(buf, chunk).pieces) == out + Tag(s, Scan(rest, data).pieces)
      invariant Scan(buf, chunk).rest == Scan(rest, data).rest
      decreases |data|
    {
      var i := FirstNewline(data);
      if i == |data| {
        ghost var before := rest;
        rest := rest + data;
        if |rest| >= MAX_LINE {
          out := out + [Emitted(s, rest)];
          rest := [];
        }
        data := [];
        break;
      }
      rest := rest + data[..i];
      out := out + [Emitted(s, rest)];
      rest := [];
      data := data[i + 1..];
    }
  }

  /** Reads the payload of one frame in chunks; stops with what it has if the input ends inside it. */
  method ReadPayload(s: byte, body: Bytes, size: nat, before: Reader) returns (r: Reader, complete: bool)
    requires IsOpen(before) && (s == 1 || s == 2)
    ensures complete <==> |body| >= size
    ensures r == Feed(before, s, if complete then body[..size] else body[..InWholeChunks(|body|)])
  {
    FeedNothing(before, s);
    hide Scan, ScanPayload, Tag, Feed, InWholeChunks;
    var out, partial := before.out, before.partial;
    assert body[..0] == [];
    var left, pos := size, 0;
    NoChunk();
    while left > 0
      invariant 0 <= left <= size && pos == size - left <= |body|
      invariant left == 0 || InWholeChunks(pos) == pos
      invariant partial.Keys == {1, 2} && Reader(out, partial) == Feed(before, s, body[..pos])
    {
      var n := if left < CHUNK then left else CHUNK;
      NextChunk(pos);
      if |body| - pos < n {
        LastChunk(pos, |body|);
        return Reader(out, partial), false;
      }
      var more, tail := ScanChunk(s, partial[s], body[pos..pos + n]);
      ReadChunk(before, s, body, pos, n, Reader(out, partial));
      out, partial := out + more, partial[s := tail];
      left, pos := left - n, pos + n;
    }
    r, complete := Reader(out, partial), true;
  }

  lemma NoChunk()
    ensures InWholeChunks(0) == 0
  {
  }

  lemma NextChunk(pos: nat)
    requires InWholeChunks(pos) == pos
    ensures InWholeChunks(pos + CHUNK) == pos + CHUNK
  {
  }

  lemma LastChunk(pos: nat, n: nat)
    requires InWholeChunks(pos) == pos <= n < pos + CHUNK
    ensures InWholeChunks(n) == pos
  {
  }

  lemma ReadChunk(before: Reader, s: byte, body: Bytes, pos: nat, n: nat, r: Reader)
    requires IsOpen(before) && (s == 1 || s == 2) && pos + n <= |body| && n <= CHUNK && InWholeChunks(pos) == pos
    requires r == Feed(before, s, body[..pos])
    ensures var x := Scan(r.partial[s], body[pos..pos + n]);
            Feed(before, s, body[..pos + n]) == Reader(r.out + Tag(s, x.pieces), r.partial[s := x.rest])
  {
    hide Scan, Tag, Feed, InWholeChunks;
    FeedChunk(before, s, body[..pos], body[pos..pos + n]);
    assert body[..pos] + body[pos..pos + n] == body[..pos + n];
  }

  lemma FeedNothing(r: Reader, s: byte)
    requires IsOpen(r) && (s == 1 || s == 2)
    ensures Feed(r, s, []) == r
  {
  }

  /** One more chunk after whole chunks. */
  lemma FeedChunk(r: Reader, s: byte, payload: Bytes, chunk: Bytes)
    requires IsOpen(r) && (s == 1 || s == 2)
    requires InWholeChunks(|payload|) == |payload| && |chunk| <= CHUNK
    ensures var t := Feed(r, s, payload);
            var x := Scan(t.partial[s], chunk);
            Feed(r, s, payload + chunk) == Reader(t.out + Tag(s, x.pieces), t.partial[s := x.rest])
  {
    hide Scan, ScanPayload, Tag;
    var whole := payload + chunk;
    var n := |payload|;
    assert whole[..n] == payload && whole[n..] == chunk;
    ScanPayloadSplit(r.partial[s], whole, n);
    var a := ScanPayload(r.partial[s], payload);
    OneChunk(a.rest, chunk);
    TagConcat(s, a.pieces, Scan(a.rest, chunk).pieces);
    assert r.out + (Tag(s, a.pieces) + Tag(s, Scan(a.rest, chunk).pieces)) == r.out + Tag(s, a.pieces) + Tag(s, Scan(a.rest, chunk).pieces);
  }

  /**
   * Reads frames until the input ends, calling back once per line. `readFails` says that the reader
   * ends in an error rather than at the end of the stream.
   */
  method DemuxLines(input: Bytes, readFails: bool) returns (out: seq<Emitted>, err: bool)
    ensures out == Run(START, input)
    ensures err <==> readFails && EndsInHeader(input)
  {
    hide Scan, ScanPayload, Tag, Feed, Finish, BigEndian;
    var r := START;
    var pos := 0;
    assert input[0..] == input;
    while true
      invariant pos <= |input| && IsOpen(r)
      invariant Run(START, input) == Run(r, input[pos..])
      invariant EndsInHeader(input) == EndsInHeader(input[pos..])
      decreases |input| - pos
    {
      ghost var rest := input[pos..];
      if |input| - pos < 8 {
        out := FlushBoth(r.out, r.partial);
        return out, readFails;
      }
      var s, size := input[pos], BigEndian(input[pos + 4..pos + 8]);
      assert rest[0] == s && rest[4..8] == input[pos + 4..pos + 8];
      pos := pos + 8;
      var body := input[pos..];
      assert rest[8..] == body;
      if s != 1 && s != 2 {
        if |body| < size { return r.out, false; }
      } else {
        var complete;
        r, complete := ReadPayload(s, body, size, r);
        if !complete {
          out := FlushBoth(r.out, r.partial);
          return out, false;
        }
      }
      pos := pos + size;
      assert body[size..] == input[pos..];
    }
  }

  lemma OneChunk(buf: Bytes, chunk: Bytes)
    requires |chunk| <= CHUNK
    ensures ScanPayload(buf, chunk) == Scan(buf, chunk)
  {
    if chunk != [] {
      assert chunk[..|chunk|] == chunk && chunk[|chunk|..] == [];
    }
  }

  method FlushBoth(out: seq<Emitted>, partial: map<byte, Bytes>) returns (all: seq<Emitted>)
    requires partial.Keys == {1, 2}
    ensures all == Finish(Reader(out, partial))
  {
    all := out;
    if |partial[1]| > 0 { all := all + [Emitted(1, partial[1])]; }
    if |partial[2]| > 0 { all := all + [Emitted(2, partial[2])]; }
  }

  // ---------- What comes out ----------

  /** A frame as the engine writes it. */
  datatype Frame = Frame(stream: byte, pad: Bytes, payload: Bytes)

  predicate ValidFrame(f: Frame) { |f.pad| == 3 && |f.payload| < 0x1_0000_0000 }

  function BigEndianBytes(n: nat): (b: Bytes)
    requires n < 0x1_0000_0000
    ensures |b| == 4
  {
    [(n / 0x100_0000) as byte, (n / 0x1_0000 % 256) as byte, (n / 0x100 % 256) as byte, (n % 256) as byte]
  }

  function Encode(fs: seq<Frame>): Bytes
    requires forall k :: 0 <= k < |fs| ==> ValidFrame(fs[k])
  {
    if fs == [] then []
    else
      assert ValidFrame(fs[0]);
      [fs[0].stream] + fs[0].pad + BigEndianBytes(|fs[0].payload|) + fs[0].payload + Encode(fs[1..])
  }

  predicate Known(s: byte) { s == 1 || s == 2 }

  /** What a stream was sent in all. */
  function PayloadOf(fs: seq<Frame>, s: byte): Bytes {
    if fs == [] then [] else (if fs[0].stream == s then fs[0].payload else []) + PayloadOf(fs[1..], s)
  }

  /** The lines handed over for a stream, in order. */
  function Select(out: seq<Emitted>, s: byte): seq<Bytes> {
    if out == [] then []
    else (if out[0].stream == s then [out[0].line] else []) + Select(out[1..], s)
  }

  /** The complete lines of a text, without their newlines, and what follows the last newline. */
  function Lines(text: Bytes): seq<Bytes>
    decreases |text|
  {
    var i := FirstNewline(text);
    if i == |text| then [] else [text[..i]] + Lines(text[i + 1..])
  }

  function Tail(text: Bytes): (t: Bytes)
    ensures |t| <= |text|
    decreases |text|
  {
    var i := FirstNewline(text);
    if i == |text| then text else Tail(text[i + 1..])
  }

  /** A text split at newlines, with a last partial line if there is one. */
  function SplitLines(text: Bytes): seq<Bytes> {
    Lines(text) + if Tail(text) == [] then [] else [Tail(text)]
  }

  predicate AllShort(lines: seq<Bytes>) { forall k :: 0 <= k < |lines| ==> |lines[k]| < MAX_LINE }

  /** Every line, and the last partial one, is shorter than the maximum. */
  predicate ShortLines(text: Bytes) { AllShort(Lines(text)) && |Tail(text)| < MAX_LINE }

  function StripNewlines(text: Bytes): Bytes {
    if text == [] then [] else (if text[0] == NEWLINE then [] else [text[0]]) + StripNewlines(text[1..])
  }

  function Concat(pieces: seq<Bytes>): Bytes {
    if pieces == [] then [] else pieces[0] + Concat(pieces[1..])
  }

  lemma BigEndianRoundTrip(n: nat)
    requires n < 0x1_0000_0000
    ensures BigEndian(BigEndianBytes(n)) == n
  {
    var a, b, c := n / 0x100_0000, n / 0x1_0000, n / 0x100;
    assert b / 256 == a && c / 256 == b && a < 256;
    assert n == c * 256 + n % 256 && c == b * 256 + c % 256 && b == a * 256 + b % 256;
  }

  /** The frames of an input, one after another. */
  function FeedAll(r: Reader, fs: seq<Frame>): (t: Reader)
    requires IsOpen(r)
    ensures IsOpen(t)
    decreases |fs|
  {
    if fs == [] then r
    else FeedAll(if Known(fs[0].stream) then Feed(r, fs[0].stream, fs[0].payload) else r, fs[1..])
  }

  /** Complete frames are taken apart again exactly as they were put together. */
  lemma {:induction false} RunFrames(r: Reader, fs: seq<Frame>)
    requires IsOpen(r) && forall k :: 0 <= k < |fs| ==> ValidFrame(fs[k])
    ensures Run(r, Encode(fs)) == Finish(FeedAll(r, fs))
    decreases |fs|
  {
    if fs != [] {
      hide Feed, Finish;
      var f, input := fs[0], Encode(fs);
      var size := |f.payload|;
      assert input[4..8] == BigEndianBytes(size);
      BigEndianRoundTrip(size);
      assert input[8..][..size] == f.payload && input[8..][size..] == Encode(fs[1..]);
      RunFrames(if Known(f.stream) then Feed(r, f.stream, f.payload) else r, fs[1..]);
    }
  }

  // One stream on its own.

  lemma {:induction false} SelectConcat(a: seq<Emitted>, b: seq<Emitted>, s: byte)
    ensures Select(a + b, s) == Select(a, s) + Select(b, s)
  {
    if a == [] {
      assert a + b == b;
    } else {
      assert (a + b)[1..] == a[1..] + b;
      SelectConcat(a[1..], b, s);
    }
  }

  lemma {:induction false} SelectTag(s: byte, pieces: seq<Bytes>, t: byte)
    ensures Select(Tag(s, pieces), t) == if s == t then pieces else []
  {
    if pieces != [] { SelectTag(s, pieces[1..], t); }
  }

  lemma FeedSelect(r: Reader, s: byte, payload: Bytes, t: byte)
    requires IsOpen(r) && Known(s) && Known(t)
    ensures var u, x := Feed(r, s, payload), ScanPayload(r.partial[t], payload);
            && Select(u.out, t) == Select(r.out, t) + (if s == t then x.pieces else [])
            && u.partial[t] == (if s == t then x.rest else r.partial[t])
  {
    hide ScanPayload;
    var x := ScanPayload(r.partial[s], payload);
    SelectConcat(r.out, Tag(s, x.pieces), t);
    SelectTag(s, x.pieces, t);
  }

  lemma FinishSelect(r: Reader, s: byte)
    requires IsOpen(r) && Known(s)
    ensures Select(Finish(r), s) == Select(r.out, s) + (if r.partial[s] == [] then [] else [r.partial[s]])
  {
    var one := FlushOne(r, 1);
    var p1, p2 := [Emitted(1, r.partial[1])], [Emitted(2, r.partial[2])];
    SelectConcat(r.out, p1, s);
    SelectConcat(one.out, p2, s);
  }

  // Nothing lost, whatever the length of the lines.

  lemma {:induction false} StripConcat(a: Bytes, b: Bytes)
    ensures StripNewlines(a + b) == StripNewlines(a) + StripNewlines(b)
  {
    if a == [] {
      assert a + b == b;
    } else {
      assert (a + b)[1..] == a[1..] + b;
      StripConcat(a[1..], b);
    }
  }

  lemma {:induction false} StripNone(a: Bytes)
    requires forall i :: 0 <= i < |a| ==> a[i] != NEWLINE
    ensures StripNewlines(a) == a
  {
    if a != [] { StripNone(a[1..]); }
  }

  lemma {:induction false} ConcatConcat(a: seq<Bytes>, b: seq<Bytes>)
    ensures Concat(a + b) == Concat(a) + Concat(b)
  {
    if a == [] {
      assert a + b == b;
    } else {
      assert (a + b)[1..] == a[1..] + b;
      ConcatConcat(a[1..], b);
    }
  }

  predicate Bounded(pieces: seq<Bytes>) { forall k :: 0 <= k < |pieces| ==> |pieces[k]| <= MAX_LINE - 1 + CHUNK }

  lemma StripLine(data: Bytes, i: nat)
    requires i < |data| && data[i] == NEWLINE && forall j :: 0 <= j < i ==> data[j] != NEWLINE
    ensures StripNewlines(data) == data[..i] + StripNewlines(data[i + 1..])
  {
    var nl := [NEWLINE];
    assert StripNewlines(nl) == [];
    StripNone(data[..i]);
    StripConcat(nl, data[i + 1..]);
    StripConcat(data[..i], nl + data[i + 1..]);
    assert data == data[..i] + (nl + data[i + 1..]);
  }

  lemma PrependPiece(buf: Bytes, line: Bytes, r: Scanned, q: Bytes)
    requires |buf| < MAX_LINE && |line| <= CHUNK
    requires Concat(r.pieces) + r.rest == q && Bounded(r.pieces)
    ensures Concat([buf + line] + r.pieces) + r.rest == buf + (line + q) && Bounded([buf + line] + r.pieces)
  {
    assert ([buf + line] + r.pieces)[1..] == r.pieces;
    hide Concat;
    assert buf + line + Concat(r.pieces) + r.rest == buf + (line + (Concat(r.pieces) + r.rest));
  }

  lemma {:induction false} ScanKeeps(buf: Bytes, data: Bytes)
    requires |buf| < MAX_LINE && |data| <= CHUNK
    ensures var x := Scan(buf, data);
            Concat(x.pieces) + x.rest == buf + StripNewlines(data) && Bounded(x.pieces) && |x.rest| < MAX_LINE
    decreases |data|
  {
    if data != [] {
      var i := FirstNewline(data);
      if i == |data| {
        StripNone(data);
        hide StripNewlines;
        assert Concat([buf + data]) == buf + data;
      } else {
        StripLine(data, i);
        hide StripNewlines, FirstNewline, Concat, Bounded;
        ScanKeeps([], data[i + 1..]);
        PrependPiece(buf, data[..i], Scan([], data[i + 1..]), StripNewlines(data[i + 1..]));
      }
    }
  }

  lemma JoinScans(buf: Bytes, a: Scanned, b: Scanned, p: Bytes, q: Bytes)
    requires Concat(a.pieces) + a.rest == buf + p && Concat(b.pieces) + b.rest == a.rest + q
    ensures Concat(a.pieces + b.pieces) + b.rest == buf + (p + q)
  {
    ConcatConcat(a.pieces, b.pieces);
    hide Concat;
    assert Concat(a.pieces) + Concat(b.pieces) + b.rest == Concat(a.pieces) + (Concat(b.pieces) + b.rest);
    assert Concat(a.pieces) + (a.rest + q) == Concat(a.pieces) + a.rest + q;
    assert buf + p + q == buf + (p + q);
  }

  lemma {:induction false} ScanPayloadKeeps(buf: Bytes, payload: Bytes)
    requires |buf| < MAX_LINE
    ensures var x := ScanPayload(buf, payload);
            Concat(x.pieces) + x.rest == buf + StripNewlines(payload) && Bounded(x.pieces) && |x.rest| < MAX_LINE
    decreases |payload|
  {
    if payload != [] {
      hide Scan, StripNewlines, Concat;
      var n := if |payload| < CHUNK then |payload| else CHUNK;
      var a := Scan(buf, payload[..n]);
      ScanKeeps(buf, payload[..n]);
      ScanPayloadKeeps(a.rest, payload[n..]);
      assert payload == payload[..n] + payload[n..];
      StripConcat(payload[..n], payload[n..]);
      JoinScans(buf, a, ScanPayload(a.rest, payload[n..]), StripNewlines(payload[..n]), StripNewlines(payload[n..]));
    }
  }

  // Exactly the lines, when they are short enough.

  lemma FirstNewlineIs(data: Bytes, i: nat)
    requires i <= |data| && (i < |data| ==> data[i] == NEWLINE)
    requires forall j :: 0 <= j < i ==> data[j] != NEWLINE
    ensures FirstNewline(data) == i
  {
  }

  lemma FirstNewlineSkip(a: Bytes, b: Bytes)
    requires FirstNewline(a) == |a|
    ensures FirstNewline(a + b) == |a| + FirstNewline(b)
  {
    FirstNewlineIs(a + b, |a| + FirstNewline(b));
  }

  lemma FirstNewlineKeep(a: Bytes, b: Bytes)
    requires FirstNewline(a) < |a|
    ensures FirstNewline(a + b) == FirstNewline(a)
  {
    FirstNewlineIs(a + b, FirstNewline(a));
  }

  /** Text may be split into lines piece by piece, carrying the partial line along. */
  lemma {:induction false} LinesConcat(a: Bytes, b: Bytes)
    ensures Lines(a + b) == Lines(a) + Lines(Tail(a) + b) && Tail(a + b) == Tail(Tail(a) + b)
    ensures FirstNewline(Tail(a)) == |Tail(a)|
    decreases |a|
  {
    hide FirstNewline;
    var i := FirstNewline(a);
    if i < |a| {
      var rest := a[i + 1..];
      FirstNewlineKeep(a, b);
      assert (a + b)[..i] == a[..i] && (a + b)[i + 1..] == rest + b;
      LinesConcat(rest, b);
      LinesStep(a, i);
      LinesStep(a + b, i);
      hide Lines, Tail;
      assert [a[..i]] + (Lines(rest) + Lines(Tail(rest) + b)) == [a[..i]] + Lines(rest) + Lines(Tail(rest) + b);
    } else {
      LinesEnd(a);
    }
  }

  lemma LinesStep(text: Bytes, i: nat)
    requires i < |text| && FirstNewline(text) == i
    ensures Lines(text) == [text[..i]] + Lines(text[i + 1..]) && Tail(text) == Tail(text[i + 1..])
  {
    hide FirstNewline;
  }

  lemma LinesEnd(text: Bytes)
    requires FirstNewline(text) == |text|
    ensures Lines(text) == [] && Tail(text) == text
  {
    hide FirstNewline;
  }

  /** What is short in all is short so far. */
  lemma ShortParts(xs: seq<Bytes>, ys: seq<Bytes>)
    ensures AllShort(xs + ys) <==> AllShort(xs) && AllShort(ys)
  {
    var all := xs + ys;
    if AllShort(all) {
      forall k | 0 <= k < |xs| ensures |xs[k]| < MAX_LINE { assert all[k] == xs[k]; }
      forall k | 0 <= k < |ys| ensures |ys[k]| < MAX_LINE { assert all[|xs| + k] == ys[k]; }
    }
  }

  lemma ShortPrefix(a: Bytes, b: Bytes)
    requires ShortLines(a + b)
    ensures ShortLines(a) && ShortLines(Tail(a) + b)
  {
    hide FirstNewline, Lines, Tail;
    LinesConcat(a, b);
    var t := Tail(a);
    ShortParts(Lines(a), Lines(t + b));
    FirstNewlineSkip(t, b);
    if FirstNewline(b) < |b| {
      LinesStep(t + b, FirstNewline(t + b));
      assert Lines(t + b)[0] == (t + b)[..|t| + FirstNewline(b)];
    } else {
      LinesEnd(t + b);
    }
  }

  lemma {:induction false} ScanExact(buf: Bytes, data: Bytes)
    requires FirstNewline(buf) == |buf| && ShortLines(buf + data)
    ensures Scan(buf, data) == Scanned(Lines(buf + data), Tail(buf + data))
    decreases |data|
  {
    hide FirstNewline, Lines, Tail;
    var text := buf + data;
    FirstNewlineSkip(buf, data);
    if data == [] {
      assert text == buf;
      LinesEnd(buf);
    } else {
      var i := FirstNewline(data);
      if i == |data| {
        LinesEnd(text);
      } else {
        var rest := data[i + 1..];
        LinesStep(text, |buf| + i);
        assert text[..|buf| + i] == buf + data[..i] && text[|buf| + i + 1..] == rest && [] + rest == rest;
        ShortParts([buf + data[..i]], Lines(rest));
        FirstNewlineIs([], 0);
        ScanExact([], rest);
      }
    }
  }

  lemma {:induction false} ScanPayloadExact(before: Bytes, payload: Bytes)
    requires ShortLines(before + payload)
    ensures var x := ScanPayload(Tail(before), payload);
            Lines(before) + x.pieces == Lines(before + payload) && x.rest == Tail(before + payload)
    decreases |payload|
  {
    hide Scan, ShortLines, Lines, Tail, FirstNewline;
    if payload == [] {
      assert before + payload == before;
    } else {
      var n := if |payload| < CHUNK then |payload| else CHUNK;
      var first, rest := payload[..n], payload[n..];
      assert before + payload == before + first + rest;
      ShortPrefix(before + first, rest);
      ShortPrefix(before, first);
      LinesConcat(before, first);
      ScanExact(Tail(before), first);
      ScanPayloadExact(before + first, rest);
      var a, b := Scan(Tail(before), first), ScanPayload(Tail(before + first), rest);
      assert Lines(before) + (a.pieces + b.pieces) == Lines(before) + a.pieces + b.pieces;
    }
  }

  /** Where a reader stands that was sent `sent` on a stream, all its lines being short. */
  predicate Exact(r: Reader, s: byte, sent: Bytes)
    requires IsOpen(r) && Known(s)
  {
    Select(r.out, s) == Lines(sent) && r.partial[s] == Tail(sent)
  }

  lemma FeedExact(r: Reader, f: Frame, s: byte, sent: Bytes)
    requires IsOpen(r) && Known(f.stream) && Known(s) && Exact(r, s, sent)
    requires ShortLines(sent + if f.stream == s then f.payload else [])
    ensures Exact(Feed(r, f.stream, f.payload), s, sent + if f.stream == s then f.payload else [])
  {
    hide Feed, ScanPayload, ShortLines;
    FeedSelect(r, f.stream, f.payload, s);
    if f.stream == s {
      ScanPayloadExact(sent, f.payload);
    } else {
      assert sent + [] == sent;
    }
  }

  lemma {:induction false} FeedAllExact(r: Reader, fs: seq<Frame>, s: byte, sent: Bytes)
    requires IsOpen(r) && Known(s) && Exact(r, s, sent)
    requires ShortLines(sent + PayloadOf(fs, s))
    ensures Exact(FeedAll(r, fs), s, sent + PayloadOf(fs, s))
    decreases |fs|
  {
    hide Feed, Exact, ShortLines;
    if fs == [] {
      assert sent + PayloadOf(fs, s) == sent;
    } else {
      var f := fs[0];
      var own := if f.stream == s then f.payload else [];
      assert sent + PayloadOf(fs, s) == sent + own + PayloadOf(fs[1..], s);
      ShortPrefix(sent + own, PayloadOf(fs[1..], s));
      if Known(f.stream) { FeedExact(r, f, s, sent); } else { assert sent + [] == sent; }
      FeedAllExact(if Known(f.stream) then Feed(r, f.stream, f.payload) else r, fs[1..], s, sent + own);
    }
  }

  /**
   * However a stream was cut into frames, interleaved with the other one, and read in chunks: if all its
   * lines are short, the lines handed over for it are exactly its text split at newlines.
   */
  lemma {:induction false} FramingDoesNotMatter(fs: seq<Frame>, s: byte)
    requires (forall k :: 0 <= k < |fs| ==> ValidFrame(fs[k])) && Known(s)
    requires ShortLines(PayloadOf(fs, s))
    ensures Select(Run(START, Encode(fs)), s) == SplitLines(PayloadOf(fs, s))
  {
    var text := PayloadOf(fs, s);
    assert [] + text == text;
    assert Exact(START, s, []);
    RunFrames(START, fs);
    hide ShortLines, Run;
    FeedAllExact(START, fs, s, []);
    FinishSelect(FeedAll(START, fs), s);
  }

  /** Where a reader stands that was sent `sent` on a stream. */
  predicate Kept(r: Reader, s: byte, sent: Bytes)
    requires IsOpen(r) && Known(s)
  {
    && Concat(Select(r.out, s)) + r.partial[s] == StripNewlines(sent)
    && Bounded(Select(r.out, s)) && |r.partial[s]| < MAX_LINE
  }

  /** More pieces after what was handed over already. */
  lemma JoinKept(pieces: seq<Bytes>, rest: Bytes, x: Scanned, p: Bytes, q: Bytes)
    requires Concat(pieces) + rest == p && Concat(x.pieces) + x.rest == rest + q
    requires Bounded(pieces) && Bounded(x.pieces)
    ensures Concat(pieces + x.pieces) + x.rest == p + q && Bounded(pieces + x.pieces)
  {
    assert [] + p == p && [] + (p + q) == p + q;
    JoinScans([], Scanned(pieces, rest), x, p, q);
  }

  lemma FeedKept(r: Reader, f: Frame, s: byte, sent: Bytes)
    requires IsOpen(r) && Known(f.stream) && Known(s) && Kept(r, s, sent)
    ensures Kept(Feed(r, f.stream, f.payload), s, sent + if f.stream == s then f.payload else [])
  {
    FeedSelect(r, f.stream, f.payload, s);
    hide Feed, ScanPayload, StripNewlines, Concat, Select, Bounded;
    if f.stream == s {
      ScanPayloadKeeps(r.partial[s], f.payload);
      StripConcat(sent, f.payload);
      JoinKept(Select(r.out, s), r.partial[s], ScanPayload(r.partial[s], f.payload), StripNewlines(sent), StripNewlines(f.payload));
    } else {
      assert sent + [] == sent && Select(r.out, s) + [] == Select(r.out, s);
    }
  }

  lemma {:induction false} FeedAllKept(r: Reader, fs: seq<Frame>, s: byte, sent: Bytes)
    requires IsOpen(r) && Known(s) && Kept(r, s, sent)
    ensures Kept(FeedAll(r, fs), s, sent + PayloadOf(fs, s))
    decreases |fs|
  {
    hide Feed, Kept;
    if fs == [] {
      assert sent + PayloadOf(fs, s) == sent;
    } else {
      var f := fs[0];
      var own := if f.stream == s then f.payload else [];
      assert sent + PayloadOf(fs, s) == sent + own + PayloadOf(fs[1..], s);
      if Known(f.stream) { FeedKept(r, f, s, sent); } else { assert sent + [] == sent; }
      FeedAllKept(if Known(f.stream) then Feed(r, f.stream, f.payload) else r, fs[1..], s, sent + own);
    }
  }

  /**
   * Whatever the length of its lines: the pieces handed over for a stream make up its text without the
   * newlines, nothing crosses from one stream to the other, and no piece is longer than the maximum
   * less one plus a chunk.
   */
  lemma {:induction false} NothingLost(fs: seq<Frame>, s: byte)
    requires (forall k :: 0 <= k < |fs| ==> ValidFrame(fs[k])) && Known(s)
    ensures var pieces := Select(Run(START, Encode(fs)), s);
            Concat(pieces) == StripNewlines(PayloadOf(fs, s)) && Bounded(pieces)
  {
    StartKept(s);
    RunFrames(START, fs);
    hide Run, Kept, StripNewlines, FeedAll, Finish, Encode, Select, Concat, Bounded;
    FeedAllKept(START, fs, s, []);
    assert [] + PayloadOf(fs, s) == PayloadOf(fs, s);
    FinishKept(FeedAll(START, fs), s, PayloadOf(fs, s));
  }

  lemma StartKept(s: byte)
    requires Known(s)
    ensures Kept(START, s, [])
  {
  }

  /** The flush at the end hands over what is left. */
  lemma FinishKept(r: Reader, s: byte, sent: Bytes)
    requires IsOpen(r) && Known(s) && Kept(r, s, sent)
    ensures Concat(Select(Finish(r), s)) == StripNewlines(sent) && Bounded(Select(Finish(r), s))
  {
    hide Finish, StripNewlines, Select;
    FinishSelect(r, s);
    var pieces, rest := Select(r.out, s), r.partial[s];
    ConcatConcat(pieces, [rest]);
    assert Concat([rest]) == rest && pieces + [] == pieces && (rest == [] ==> Concat(pieces) + rest == Concat(pieces));
  }

  // ---------- Inputs cut short anywhere ----------

  /** Whether the input ends inside a frame of no known stream. */
  predicate EndsSkipping(input: Bytes)
    decreases |input|
  {
    |input| >= 8 &&
    var size, body := BigEndian(input[4..8]), input[8..];
    if |body| < size then !Known(input[0]) else EndsSkipping(body[size..])
  }

  /** What is read of a stream before the input ends: a frame cut short counts by its whole chunks. */
  function Received(input: Bytes, s: byte): Bytes
    decreases |input|
  {
    if |input| < 8 then []
    else
      var size, body := BigEndian(input[4..8]), input[8..];
      var own := input[0] == s;
      if |body| < size then (if own then body[..InWholeChunks(|body|)] else [])
      else (if own then body[..size] else []) + Received(body[size..], s)
  }

  function FeedKnown(r: Reader, s: byte, payload: Bytes): (t: Reader)
    requires IsOpen(r)
    ensures IsOpen(t)
  {
    if Known(s) then Feed(r, s, payload) else r
  }

  /** The reader when the input ends, before anything is flushed. */
  function At(r: Reader, input: Bytes): (t: Reader)
    requires IsOpen(r)
    ensures IsOpen(t)
    decreases |input|
  {
    if |input| < 8 then r
    else
      var size, body := BigEndian(input[4..8]), input[8..];
      if |body| < size then FeedKnown(r, input[0], body[..InWholeChunks(|body|)])
      else At(FeedKnown(r, input[0], body[..size]), body[size..])
  }

  lemma {:induction false} RunEnds(r: Reader, input: Bytes)
    requires IsOpen(r)
    ensures Run(r, input) == if EndsSkipping(input) then At(r, input).out else Finish(At(r, input))
    decreases |input|
  {
    hide Feed, Finish, BigEndian, InWholeChunks;
    if |input| >= 8 {
      var size, body := BigEndian(input[4..8]), input[8..];
      if |body| >= size { RunEnds(FeedKnown(r, input[0], body[..size]), body[size..]); }
    }
  }

  lemma FeedKnownKept(r: Reader, s: byte, payload: Bytes, t: byte, sent: Bytes)
    requires IsOpen(r) && Known(t) && Kept(r, t, sent)
    ensures Kept(FeedKnown(r, s, payload), t, sent + if s == t then payload else [])
  {
    hide Feed, Kept;
    if Known(s) { FeedKept(r, Frame(s, [], payload), t, sent); } else { assert sent + [] == sent; }
  }

  lemma {:induction false} AtKept(r: Reader, input: Bytes, s: byte, sent: Bytes)
    requires IsOpen(r) && Known(s) && Kept(r, s, sent)
    ensures Kept(At(r, input), s, sent + Received(input, s))
    decreases |input|
  {
    hide FeedKnown, Kept, BigEndian, InWholeChunks;
    if |input| < 8 {
      assert sent + [] == sent;
    } else {
      var size, body := BigEndian(input[4..8]), input[8..];
      if |body| < size {
        FeedKnownKept(r, input[0], body[..InWholeChunks(|body|)], s, sent);
      } else {
        var own := if input[0] == s then body[..size] else [];
        FeedKnownKept(r, input[0], body[..size], s, sent);
        AtKept(FeedKnown(r, input[0], body[..size]), body[size..], s, sent + own);
        assert sent + own + Received(body[size..], s) == sent + (own + Received(body[size..], s));
      }
    }
  }

  /**
   * For every input, wherever it is cut: the pieces handed over for a stream make up all that was read of it
   * but for its newlines, exactly unless the input ends inside a frame of no known stream while a partial
   * line of that stream is held; and what is missing then is that partial line.
   */
  lemma NothingLostUnlessSkipping(input: Bytes, s: byte)
    requires Known(s)
    ensures var pieces, rest := Select(Run(START, input), s), At(START, input).partial[s];
            && (Concat(pieces) == StripNewlines(Received(input, s)) <==> !(EndsSkipping(input) && rest != []))
            && Concat(pieces) + (if EndsSkipping(input) then rest else []) == StripNewlines(Received(input, s))
            && Bounded(pieces)
  {
    StartKept(s);
    RunEnds(START, input);
    hide Run, At, Kept, StripNewlines, Finish, Select, Concat, Bounded, Received, EndsSkipping;
    AtKept(START, input, s, []);
    assert [] + Received(input, s) == Received(input, s);
    var r := At(START, input);
    FinishKept(r, s, Received(input, s));
    KeptMeans(r, s, Received(input, s));
    var held := Concat(Select(r.out, s));
    assert held + [] == held;
    assert r.partial[s] != [] ==> |held| < |held + r.partial[s]|;
    var all := Concat(Select(Finish(r), s));
    assert all + [] == all;
  }

  lemma KeptMeans(r: Reader, s: byte, sent: Bytes)
    requires IsOpen(r) && Known(s) && Kept(r, s, sent)
    ensures Concat(Select(r.out, s)) + r.partial[s] == StripNewlines(sent) && Bounded(Select(r.out, s))
  {
  }

  lemma {:induction false} AtExact(r: Reader, input: Bytes, s: byte, sent: Bytes)
    requires IsOpen(r) && Known(s) && Exact(r, s, sent) && ShortLines(sent + Received(input, s))
    ensures Exact(At(r, input), s, sent + Received(input, s))
    decreases |input|
  {
    hide FeedKnown, Exact, ShortLines, BigEndian, InWholeChunks;
    if |input| < 8 {
      assert sent + [] == sent;
    } else {
      var size, body := BigEndian(input[4..8]), input[8..];
      if |body| < size {
        FeedKnownExact(r, input[0], body[..InWholeChunks(|body|)], s, sent);
      } else {
        var own := if input[0] == s then body[..size] else [];
        assert sent + own + Received(body[size..], s) == sent + (own + Received(body[size..], s));
        ShortPrefix(sent + own, Received(body[size..], s));
        FeedKnownExact(r, input[0], body[..size], s, sent);
        AtExact(FeedKnown(r, input[0], body[..size]), body[size..], s, sent + own);
      }
    }
  }

  lemma FeedKnownExact(r: Reader, s: byte, payload: Bytes, t: byte, sent: Bytes)
    requires IsOpen(r) && Known(t) && Exact(r, t, sent) && ShortLines(sent + if s == t then payload else [])
    ensures Exact(FeedKnown(r, s, payload), t, sent + if s == t then payload else [])
  {
    hide Feed, Exact, ShortLines;
    if Known(s) { FeedExact(r, Frame(s, [], payload), t, sent); } else { assert sent + [] == sent; }
  }

  /**
   * With short lines, exactly which: the complete lines of what was read, and a last partial line exactly if
   * there is one and the input does not end inside a frame of no known stream.
   */
  lemma LinesOfCutInput(input: Bytes, s: byte)
    requires Known(s) && ShortLines(Received(input, s))
    ensures Select(Run(START, input), s) ==
            if EndsSkipping(input) then Lines(Received(input, s)) else SplitLines(Received(input, s))
  {
    var text := Received(input, s);
    assert [] + text == text;
    assert Exact(START, s, []);
    RunEnds(START, input);
    hide ShortLines, Run, At, Received, EndsSkipping;
    AtExact(START, input, s, []);
    FinishSelect(At(START, input), s);
  }

  /** A stream cut short while a frame of no known stream is skipped loses the partial lines it held. */
  lemma CutWhileSkippingDropsPartialLines()
    ensures Run(START, [1, 0, 0, 0, 0, 0, 0, 1, 65] + [7, 0, 0, 0, 0, 0, 0, 1]) == []
  {
    var a: Bytes := [1, 0, 0, 0, 0, 0, 0, 1, 65];
    var b: Bytes := [7, 0, 0, 0, 0, 0, 0, 1];
    var input := a + b;
    assert input[4..8] == [0, 0, 0, 1] && input[8..][..1] == [65] && input[8..][1..] == b;
    assert b[4..8] == [0, 0, 0, 1];
    var x: Bytes := [65];
    assert x[..1] == x && x[1..] == [];
    assert FirstNewline(x) == 1;
    assert [] + x == x;
    assert Scan([], x) == Scanned([], x);
    assert ScanPayload([], x) == Scanned([], x);
    assert Feed(START, 1, x) == Reader([], START.partial[1 := x]);
  }
}
