/**
 A live log: the newest lines are kept, and the view of those that pass the filters is
 maintained line by line instead of being computed anew.
 */
module LogStream {
  import opened Wrappers
  import opened Text

  const MAX_LINES := 1000

  datatype Line = Line(id: nat, text: string)

  datatype Filters = Filters(text: string, level: string)

  /** How a message's level is read, and how text is put in lower case. */
  datatype Reader = Reader(level: string -> string, lower: string -> string)

  const BAR := " │ "

  /** The text before and after the first bar. */
  function SplitOnce(s: string): (r: Option<(string, string)>)
    ensures r.None? <==> !Contains(s, BAR)
    ensures r.Some? ==> s == r.value.0 + BAR + r.value.1
  {
    assert s != [] ==> forall i | 0 < i <= |s| :: s[i..] == s[1..][i - 1..];
    if StartsWith(s, BAR) then
      assert s[0..] == s;
      Some(("", s[|BAR|..]))
    else if s == [] then None
    else
      var r := SplitOnce(s[1..]);
      if r.None? then None else Some(([s[0]] + r.value.0, r.value.1))
  }

  predicate Matches(line: string, f: Filters, reader: Reader) {
    var split := SplitOnce(line);
    var message := if split.Some? then split.value.1 else line;
    && (f.level != "" ==> reader.level(message) == f.level)
    && (f.text == ""
        || (split.Some? && Contains(reader.lower(split.value.0), f.text))
        || Contains(reader.lower(message), f.text))
  }

  /** What names the pod ends at the first bar of the line. */
  predicate NoEarlierBar(pod: string, message: string) {
    forall i | 0 <= i < |pod| :: !StartsWith((pod + (BAR + message))[i..], BAR)
  }

  lemma {:induction false} FirstBarParts(pod: string, message: string)
    requires NoEarlierBar(pod, message)
    ensures SplitOnce(pod + (BAR + message)) == Some((pod, message))
  {
    var line := pod + (BAR + message);
    assert line[0..] == line;
    if pod == [] {
      assert line == BAR + message && line[|BAR|..] == message;
    } else {
      assert line[1..] == pod[1..] + (BAR + message);
      forall i | 0 <= i < |pod[1..]| ensures !StartsWith(line[1..][i..], BAR) {
        assert line[1..][i..] == line[i + 1..];
      }
      FirstBarParts(pod[1..], message);
      assert !StartsWith(line[0..], BAR);
      assert [line[0]] + pod[1..] == pod;
    }
  }

  /** Level and text filters both apply; the level is the message's, the text may also be the pod's. */
  lemma PodLineMatchesIff(pod: string, message: string, f: Filters, reader: Reader)
    requires NoEarlierBar(pod, message)
    ensures Matches(pod + (" │ " + message), f, reader) <==>
      && (f.level == "" || reader.level(message) == f.level)
      && (f.text == "" || Contains(reader.lower(pod), f.text) || Contains(reader.lower(message), f.text))
  {
    FirstBarParts(pod, message);
  }

  lemma PlainLineMatchesIff(line: string, f: Filters, reader: Reader)
    requires !Contains(line, " │ ")
    ensures Matches(line, f, reader) <==>
      (f.level == "" || reader.level(line) == f.level) && (f.text == "" || Contains(reader.lower(line), f.text))
  {
    assert SplitOnce(line).None?;
  }

  function Passing(lines: seq<Line>, f: Filters, reader: Reader): seq<Line> {
    if lines == [] then []
    else if Matches(lines[0].text, f, reader) then [lines[0]] + Passing(lines[1..], f, reader)
    else Passing(lines[1..], f, reader)
  }

  function Newest(lines: seq<Line>): seq<Line> {
    if |lines| > MAX_LINES then lines[|lines| - MAX_LINES..] else lines
  }

  lemma NewestAreAThousand(lines: seq<Line>)
    ensures |Newest(lines)| == if |lines| < 1000 then |lines| else 1000
    ensures Newest(lines) == lines[|lines| - |Newest(lines)|..]
  {
  }

  predicate IdsRise(lines: seq<Line>) {
    forall i, j | 0 <= i < j < |lines| :: lines[i].id < lines[j].id
  }

  lemma {:induction false} PassingAppend(lines: seq<Line>, line: Line, f: Filters, reader: Reader)
    ensures Passing(lines + [line], f, reader)
         == Passing(lines, f, reader) + if Matches(line.text, f, reader) then [line] else []
  {
    if lines == [] {
      assert Passing([line], f, reader) == if Matches(line.text, f, reader) then [line] + Passing([], f, reader) else [];
    } else {
      PassingAppend(lines[1..], line, f, reader);
      assert (lines + [line])[1..] == lines[1..] + [line];
    }
  }

  lemma {:induction false} PassingIsSelection(lines: seq<Line>, f: Filters, reader: Reader, line: Line)
    ensures line in Passing(lines, f, reader) <==> line in lines && Matches(line.text, f, reader)
  {
    if lines != [] {
      PassingIsSelection(lines[1..], f, reader, line);
      assert line in lines <==> line == lines[0] || line in lines[1..];
    }
  }

  /** With rising ids, the first id of the view tells whether the evicted line is in it. */
  lemma EvictionIsLocal(lines: seq<Line>, f: Filters, reader: Reader)
    requires lines != [] && IdsRise(lines)
    ensures var view := Passing(lines, f, reader);
      Passing(lines[1..], f, reader)
      == if view != [] && view[0].id == lines[0].id then view[1..] else view
  {
    var view := Passing(lines, f, reader);
    if !Matches(lines[0].text, f, reader) && view != [] {
      PassingIsSelection(lines[1..], f, reader, view[0]);
    }
  }

  lemma NewestAbsorbs(received: seq<Line>, line: Line)
    ensures Newest(Newest(received) + [line]) == Newest(received + [line])
  {
  }

  /** The ids are handed out in order, none above the counter. */
  predicate Numbered(received: seq<Line>, counter: nat) {
    IdsRise(received) && forall i | 0 <= i < |received| :: received[i].id <= counter
  }

  lemma NextNumber(received: seq<Line>, counter: nat, line: Line)
    requires Numbered(received, counter) && line.id == counter + 1
    ensures Numbered(received + [line], counter + 1) && IdsRise(Newest(received))
  {
  }

  /** The view after one more line: drop its first line if that was evicted, add the new one if it passes. */
  lemma PushStep(lines: seq<Line>, line: Line, f: Filters, reader: Reader)
    requires |lines| <= MAX_LINES && IdsRise(lines)
    ensures var view := Passing(lines, f, reader);
      var gone := |lines| == MAX_LINES && view != [] && view[0].id == lines[0].id;
      Passing(Newest(lines + [line]), f, reader)
      == (if gone then view[1..] else view) + if Matches(line.text, f, reader) then [line] else []
  {
    if |lines| == MAX_LINES {
      assert Newest(lines + [line]) == lines[1..] + [line];
      EvictionIsLocal(lines, f, reader);
      PassingAppend(lines[1..], line, f, reader);
    } else {
      PassingAppend(lines, line, f, reader);
    }
  }

  class LogView {
    const reader: Reader
    var lines: seq<Line>
    var filteredLines: seq<Line>
    var counter: nat
    var filters: Filters
    /** Every line received since the stream was last opened. */
    ghost var received: seq<Line>

    ghost predicate Valid()
      reads this
    {
      && lines == Newest(received) && Numbered(received, counter)
      && filteredLines == Passing(lines, filters, reader)
    }

    constructor (reader: Reader)
      ensures Valid() && received == [] && this.reader == reader
    {
      this.reader := reader;
      lines, filteredLines, counter, filters, received := [], [], 0, Filters("", ""), [];
    }

    /** A new stream starts from nothing; ids go on. */
    method Open()
      requires Valid()
      modifies this
      ensures Valid() && received == [] && lines == [] && filteredLines == []
      ensures filters == old(filters) && counter == old(counter)
    {
      lines, filteredLines, received := [], [], [];
    }

    method PushBounded(line: Line) returns (evicted: Option<nat>)
      requires |lines| <= MAX_LINES
      modifies this`lines
      ensures lines == Newest(old(lines) + [line])
      ensures evicted == if |old(lines)| == MAX_LINES then Some(old(lines)[0].id) else None
    {
      lines := lines + [line];
      evicted := None;
      if |lines| > MAX_LINES {
        evicted := Some(lines[0].id);
        lines := lines[1..];
      }
    }

    method Receive(text: string)
      requires Valid()
      modifies this
      ensures Valid() && received == old(received) + [Line(counter, text)]
      ensures counter == old(counter) + 1 && filters == old(filters)
    {
      counter := counter + 1;
      var line := Line(counter, text);
      var matches := Matches(text, filters, reader);
      NextNumber(received, old(counter), line);
      PushStep(lines, line, filters, reader);
      NewestAbsorbs(received, line);
      var evicted := PushBounded(line);
      received := received + [line];
      assert Numbered(received, counter) && lines == Newest(received);
      if evicted.Some? && filteredLines != [] && filteredLines[0].id == evicted.value {
        filteredLines := filteredLines[1..];
      }
      if matches {
        filteredLines := filteredLines + [line];
      }
    }

    method SetFilters(f: Filters)
      requires Valid()
      modifies this
      ensures Valid() && filters == f
      ensures received == old(received) && lines == old(lines) && counter == old(counter)
    {
      filters := f;
      filteredLines := Passing(lines, f, reader);
    }
  }
}
