/**
 The kernel log of a node: records are cut into lines, long lines are cut short, and
 only the newest lines that fit two bounds are kept.
 */
module KernelLog {
  newtype byte = x: int | 0 <= x < 256

  type Line = seq<byte>

  const NEWLINE: byte := 10
  const RETURN: byte := 13

  /** The bytes of " [line truncated]". */
  const TRUNCATED: Line := [32, 91, 108, 105, 110, 101, 32, 116, 114, 117, 110, 99, 97, 116, 101, 100, 93]

  const INITIAL_LINES := 500
  const INITIAL_BYTES := 2 * 1024 * 1024
  const MAX_LINE_BYTES := 64 * 1024

  /** How lossy decoding rewrites the bytes of a line. */
  type Decode = seq<byte> -> Line

  // ---------------------------------------------------------------------------
  // The lines of a record
  // ---------------------------------------------------------------------------

  /** The stretches between newlines, empty ones included. */
  function Segments(bytes: seq<byte>): (r: seq<seq<byte>>)
    ensures r != []
  {
    if bytes == [] then [[]]
    else
      var init, last := Segments(bytes[..|bytes| - 1]), bytes[|bytes| - 1];
      if last == NEWLINE then init + [[]] else init[..|init| - 1] + [init[|init| - 1] + [last]]
  }

  function Joined(segments: seq<seq<byte>>): seq<byte>
    requires segments != []
  {
    if |segments| == 1 then segments[0]
    else Joined(segments[..|segments| - 1]) + [NEWLINE] + segments[|segments| - 1]
  }

  /** The segments are the record again once newlines are put between them, and hold none themselves. */
  lemma {:induction false} SegmentsRejoin(bytes: seq<byte>)
    ensures Joined(Segments(bytes)) == bytes
    ensures forall s <- Segments(bytes) :: NEWLINE !in s
  {
    if bytes != [] {
      var init, last := bytes[..|bytes| - 1], bytes[|bytes| - 1];
      var segments, all := Segments(init), Segments(bytes);
      SegmentsRejoin(init);
      assert bytes == init + [last];
      if last == NEWLINE {
        assert all[..|all| - 1] == segments;
        assert Joined(all) == Joined(segments) + [NEWLINE] + [];
      } else {
        assert segments[|segments| - 1] in segments;
        assert all[..|all| - 1] == segments[..|segments| - 1];
      }
    }
  }

  function Cut(segment: seq<byte>, max: nat): seq<byte> {
    if |segment| > max then segment[..max] else segment
  }

  function WithoutReturn(s: seq<byte>): seq<byte> {
    if s != [] && s[|s| - 1] == RETURN then s[..|s| - 1] else s
  }

  /** The line of a segment: cut, freed of one trailing carriage return, and marked when it was cut. */
  function LineOf(segment: seq<byte>, max: nat, decode: Decode): Line {
    decode(WithoutReturn(Cut(segment, max))) + if |segment| > max then TRUNCATED else []
  }

  /** Empty segments give no line. */
  function LinesOf(segments: seq<seq<byte>>, max: nat, decode: Decode): seq<Line> {
    if segments == [] then []
    else
      var last := segments[|segments| - 1];
      LinesOf(segments[..|segments| - 1], max, decode) + if last == [] then [] else [LineOf(last, max, decode)]
  }

  function LinesOfRecord(bytes: seq<byte>, max: nat, decode: Decode): seq<Line> {
    LinesOf(Segments(bytes), max, decode)
  }

  function LinesOfRecords(records: seq<seq<byte>>, max: nat, decode: Decode): seq<Line> {
    if records == [] then []
    else
      LinesOfRecords(records[..|records| - 1], max, decode)
      + LinesOfRecord(records[|records| - 1], max, decode)
  }

  /** Records are read one by one: nothing of one runs into the next. */
  lemma RecordsAreReadApart(records: seq<seq<byte>>, record: seq<byte>, max: nat, decode: Decode)
    ensures LinesOfRecords(records + [record], max, decode)
         == LinesOfRecords(records, max, decode) + LinesOfRecord(record, max, decode)
  {
    assert (records + [record])[..|records|] == records;
  }

  lemma SegmentsGrow(bytes: seq<byte>, i: nat, done: seq<seq<byte>>, segment: seq<byte>)
    requires i < |bytes| && Segments(bytes[..i]) == done + [segment]
    ensures Segments(bytes[..i + 1])
         == if bytes[i] == NEWLINE then done + [segment] + [[]] else done + [segment + [bytes[i]]]
  {
    assert bytes[..i + 1][..i] == bytes[..i];
    assert (done + [segment])[..|done|] == done;
  }

  /** A short segment is decoded as it is, but for one carriage return at its end. */
  lemma ShortSegmentReads(segment: seq<byte>, max: nat, decode: Decode)
    ensures |segment| + 1 <= max ==> LineOf(segment + [13], max, decode) == decode(segment)
    ensures |segment| <= max && (segment == [] || segment[|segment| - 1] != 13) ==>
      LineOf(segment, max, decode) == decode(segment)
  {
    assert (segment + [13])[..|segment|] == segment;
  }

  /** A long one is cut at the bound and says so. */
  lemma LongSegmentReads(start: seq<byte>, rest: seq<byte>, decode: Decode)
    requires rest != [] && (start == [] || start[|start| - 1] != 13)
    ensures LineOf(start + rest, |start|, decode) == decode(start) + TRUNCATED
    ensures LineOf(start + [13] + rest, |start| + 1, decode) == decode(start) + TRUNCATED
  {
    assert (start + rest)[..|start|] == start;
    assert (start + [13] + rest)[..|start| + 1] == start + [13];
    assert (start + [13])[..|start|] == start;
  }

  /** The mark, in letters. */
  lemma TruncatedReads()
    ensures |TRUNCATED| == |" [line truncated]"|
    ensures forall i | 0 <= i < |TRUNCATED| :: TRUNCATED[i] as int == " [line truncated]"[i] as int
  {
  }

  lemma LinesGrow(done: seq<seq<byte>>, segment: seq<byte>, max: nat, decode: Decode)
    ensures LinesOf(done + [segment], max, decode)
         == if segment == [] then LinesOf(done, max, decode)
            else LinesOf(done, max, decode) + [LineOf(segment, max, decode)]
  {
    assert (done + [segment])[..|done|] == done;
  }

  /** A byte 10 ends a segment, and nothing else does. */
  lemma NewlineIsTen(bytes: seq<byte>, c: byte)
    ensures |Segments(bytes + [c])| == |Segments(bytes)| + if c == 10 then 1 else 0
  {
    assert (bytes + [c])[..|bytes|] == bytes;
  }

  // ---------------------------------------------------------------------------
  // The newest lines that fit
  // ---------------------------------------------------------------------------

  function Bytes(lines: seq<Line>): nat {
    if lines == [] then 0 else |lines[0]| + Bytes(lines[1..])
  }

  predicate Fits(lines: seq<Line>, maxLines: nat, maxBytes: nat) {
    |lines| <= maxLines && Bytes(lines) <= maxBytes
  }

  function Newest(lines: seq<Line>, maxLines: nat, maxBytes: nat): seq<Line> {
    if Fits(lines, maxLines, maxBytes) then lines
    else if lines == [] then []
    else Newest(lines[1..], maxLines, maxBytes)
  }

  lemma {:induction false} BytesAdd(a: seq<Line>, b: seq<Line>)
    ensures Bytes(a + b) == Bytes(a) + Bytes(b)
  {
    if a == [] {
      assert a + b == b;
    } else {
      BytesAdd(a[1..], b);
      assert (a + b)[1..] == a[1..] + b;
    }
  }

  lemma BytesOfOne(line: Line)
    ensures Bytes([line]) == |line|
  {
    assert [line][1..] == [];
  }

  /** What is kept fits, is an end of the whole, and is the longest end that fits. */
  lemma {:induction false} NewestIsLongestFit(lines: seq<Line>, maxLines: nat, maxBytes: nat, n: nat)
    requires n <= |lines|
    ensures var kept := Newest(lines, maxLines, maxBytes);
      && |kept| <= maxLines && Bytes(kept) <= maxBytes
      && |kept| <= |lines| && kept == lines[|lines| - |kept|..]
      && (n <= maxLines && Bytes(lines[|lines| - n..]) <= maxBytes ==> n <= |kept|)
  {
    if !Fits(lines, maxLines, maxBytes) && lines != [] {
      if n == |lines| {
        assert lines[0..] == lines;
        NewestIsLongestFit(lines[1..], maxLines, maxBytes, 0);
      } else {
        NewestIsLongestFit(lines[1..], maxLines, maxBytes, n);
        assert lines[1..][|lines| - 1 - n..] == lines[|lines| - n..];
      }
    }
  }

  /** Dropping early what does not fit changes nothing: more lines never make room. */
  lemma {:induction false} NewestAbsorbs(lines: seq<Line>, line: Line, maxLines: nat, maxBytes: nat)
    ensures Newest(Newest(lines, maxLines, maxBytes) + [line], maxLines, maxBytes)
         == Newest(lines + [line], maxLines, maxBytes)
  {
    if !Fits(lines, maxLines, maxBytes) && lines != [] {
      NewestAbsorbs(lines[1..], line, maxLines, maxBytes);
      BytesAdd(lines, [line]);
      assert (lines + [line])[1..] == lines[1..] + [line];
    }
  }

  // ---------------------------------------------------------------------------
  // The buffer
  // ---------------------------------------------------------------------------

  function SaturatingSub(a: nat, b: nat): nat {
    if a >= b then a - b else 0
  }

  class DmesgLines {
    const decode: Decode
    const maxLines: nat
    const maxBytes: nat
    const maxLineBytes: nat
    var lines: seq<Line>
    var retainedBytes: nat
    var pending: seq<byte>
    var pendingTruncated: bool
    /** Every line made since the last take, and the segment being read. */
    ghost var produced: seq<Line>
    ghost var segment: seq<byte>

    ghost predicate Valid()
      reads this
    {
      && lines == Newest(produced, maxLines, maxBytes) && retainedBytes == Bytes(lines)
      && pending == Cut(segment, maxLineBytes) && (pendingTruncated <==> |segment| > maxLineBytes)
    }

    constructor (decode: Decode, maxLines: nat, maxBytes: nat, maxLineBytes: nat)
      ensures Valid() && produced == [] && segment == []
      ensures this.decode == decode && this.maxLines == maxLines && this.maxBytes == maxBytes
      ensures this.maxLineBytes == maxLineBytes
    {
      this.decode, this.maxLines, this.maxBytes, this.maxLineBytes := decode, maxLines, maxBytes, maxLineBytes;
      lines, retainedBytes, pending, pendingTruncated := [], 0, [], false;
      produced, segment := [], [];
    }

    method FinishPending()
      requires Valid()
      modifies this
      ensures Valid() && segment == []
      ensures produced
           == if old(segment) == [] then old(produced)
              else old(produced) + [LineOf(old(segment), maxLineBytes, decode)]
    {
      if pending == [] && !pendingTruncated {
        return;
      }
      if pending != [] && pending[|pending| - 1] == RETURN {
        pending := pending[..|pending| - 1];
      }
      var line := decode(pending);
      pending := [];
      if pendingTruncated {
        line := line + TRUNCATED;
      }
      pendingTruncated := false;
      assert line == LineOf(segment, maxLineBytes, decode);
      NewestAbsorbs(produced, line, maxLines, maxBytes);
      produced, segment := produced + [line], [];
      Keep(line);
    }

    /** Append a line, then drop from the front until both bounds hold. */
    method Keep(line: Line)
      requires retainedBytes == Bytes(lines)
      modifies this`lines, this`retainedBytes
      ensures lines == Newest(old(lines) + [line], maxLines, maxBytes) && retainedBytes == Bytes(lines)
    {
      BytesAdd(lines, [line]);
      retainedBytes := retainedBytes + |line|;
      lines := lines + [line];
      ghost var all := lines;
      while |lines| > maxLines || retainedBytes > maxBytes
        invariant Newest(lines, maxLines, maxBytes) == Newest(all, maxLines, maxBytes)
        invariant retainedBytes == Bytes(lines)
        decreases |lines|
      {
        if lines == [] {
          break;
        }
        var removed := lines[0];
        lines := lines[1..];
        retainedBytes := SaturatingSub(retainedBytes, |removed|);
      }
    }

    method PushByte(byte: byte)
      requires Valid() && byte != NEWLINE
      modifies this`pending, this`pendingTruncated, this`segment
      ensures Valid() && segment == old(segment) + [byte]
    {
      segment := segment + [byte];
      if |pending| < maxLineBytes {
        pending := pending + [byte];
      } else {
        pendingTruncated := true;
      }
    }

    ghost predicate Continues(before: seq<Line>, done: seq<seq<byte>>)
      reads this
    {
      produced == before + LinesOf(done, maxLineBytes, decode)
    }

    lemma ContinuesWith(before: seq<Line>, done: seq<seq<byte>>)
      requires Continues(before, done)
      ensures before + LinesOf(done + [segment], maxLineBytes, decode)
           == if segment == [] then produced else produced + [LineOf(segment, maxLineBytes, decode)]
    {
      LinesGrow(done, segment, maxLineBytes, decode);
    }

    method PushRecord(bytes: seq<byte>)
      requires Valid() && segment == []
      modifies this
      ensures Valid() && segment == []
      ensures produced == old(produced) + LinesOfRecord(bytes, maxLineBytes, decode)
    {
      ghost var before := produced;
      ghost var done: seq<seq<byte>> := [];
      for i := 0 to |bytes|
        invariant Valid()
        invariant Segments(bytes[..i]) == done + [segment]
        invariant Continues(before, done)
      {
        SegmentsGrow(bytes, i, done, segment);
        if bytes[i] == NEWLINE {
          ContinuesWith(before, done);
          done := done + [segment];
          FinishPending();
        } else {
          PushByte(bytes[i]);
        }
      }
      assert bytes[..|bytes|] == bytes;
      ContinuesWith(before, done);
      FinishPending();
    }

    method TakeCompleted() returns (taken: seq<Line>)
      requires Valid()
      modifies this
      ensures Valid() && produced == [] && segment == old(segment)
      ensures taken == Newest(old(produced), maxLines, maxBytes)
    {
      retainedBytes := 0;
      taken := lines;
      lines := [];
      produced := [];
    }
  }

  /** The lines first shown: the newest lines of the whole snapshot that fit. */
  method Snapshot(records: seq<seq<byte>>, decode: Decode) returns (initial: seq<Line>)
    ensures initial == Newest(LinesOfRecords(records, 64 * 1024, decode), 500, 2 * 1024 * 1024)
  {
    var lines := new DmesgLines(decode, INITIAL_LINES, INITIAL_BYTES, MAX_LINE_BYTES);
    for i := 0 to |records|
      invariant lines.Valid() && lines.segment == []
      invariant lines.produced == LinesOfRecords(records[..i], MAX_LINE_BYTES, decode)
    {
      assert records[..i + 1][..i] == records[..i];
      lines.PushRecord(records[i]);
    }
    assert records[..|records|] == records;
    lines.FinishPending();
    initial := lines.TakeCompleted();
  }

  /** What following yields: record by record, the newest lines of each that fit. */
  function Followed(records: seq<seq<byte>>, decode: Decode): seq<Line> {
    if records == [] then []
    else
      Followed(records[..|records| - 1], decode)
      + Newest(LinesOfRecord(records[|records| - 1], 64 * 1024, decode), 500, 2 * 1024 * 1024)
  }

  method Follow(records: seq<seq<byte>>, decode: Decode) returns (yielded: seq<Line>)
    ensures yielded == Followed(records, decode)
  {
    yielded := [];
    var lines := new DmesgLines(decode, INITIAL_LINES, INITIAL_BYTES, MAX_LINE_BYTES);
    for i := 0 to |records|
      invariant lines.Valid() && lines.segment == [] && lines.produced == []
      invariant yielded == Followed(records[..i], decode)
    {
      assert records[..i + 1][..i] == records[..i];
      lines.PushRecord(records[i]);
      assert lines.produced == LinesOfRecord(records[i], MAX_LINE_BYTES, decode);
      var taken := lines.TakeCompleted();
      yielded := yielded + taken;
    }
    assert records[..|records|] == records;
    lines.FinishPending();
    var taken := lines.TakeCompleted();
    assert taken == [];
    yielded := yielded + taken;
  }

  /** A followed record loses no line exactly when its lines fit both bounds. */
  lemma FollowLosesNothingIff(records: seq<seq<byte>>, record: seq<byte>, decode: Decode)
    ensures var lines := LinesOfRecord(record, 64 * 1024, decode);
      Followed(records + [record], decode) == Followed(records, decode) + lines
      <==> |lines| <= 500 && Bytes(lines) <= 2 * 1024 * 1024
  {
    var lines := LinesOfRecord(record, MAX_LINE_BYTES, decode);
    assert (records + [record])[..|records|] == records;
    NewestIsLongestFit(lines, INITIAL_LINES, INITIAL_BYTES, 0);
    var kept := Newest(lines, INITIAL_LINES, INITIAL_BYTES);
    if Followed(records, decode) + kept == Followed(records, decode) + lines {
      assert |kept| == |lines|;
    }
  }
}
