/**
 Building PromQL: names become a regex alternation inside a string literal. The text
 is read back by an independent lexer and regex parser, and means those names again.
 */
module PromQl {
  import opened Wrappers
  import opened NaturalSort
  import opened Text

  // ---------------------------------------------------------------------------
  // What the server reads
  // ---------------------------------------------------------------------------

  /** The character a single-letter escape stands for in a double-quoted literal. */
  function Unescape(c: char): Option<char> {
    match c
    case '\\' => Some('\\')
    case '"' => Some('"')
    case '\'' => Some('\'')
    case 'n' => Some('\n')
    case 'r' => Some('\r')
    case 't' => Some('\t')
    case _ => None
  }

  /** Read a literal after its opening quote: its value and the text after its closing quote. */
  function ScanLiteral(s: string): Option<(string, string)> {
    if s == [] || s[0] == '\n' then None
    else if s[0] == '"' then Some(("", s[1..]))
    else
      var c := if s[0] != '\\' then Some(s[0]) else if |s| > 1 then Unescape(s[1]) else None;
      if c.None? then None
      else
        var more := ScanLiteral(if s[0] != '\\' then s[1..] else s[2..]);
        if more.None? then None else Some(([c.value] + more.value.0, more.value.1))
  }

  /** What RE2 reads as syntax outside a character class. */
  predicate IsSyntax(c: char) {
    match c
    case '\\' => true
    case '.' => true
    case '+' => true
    case '*' => true
    case '?' => true
    case '(' => true
    case ')' => true
    case '|' => true
    case '[' => true
    case ']' => true
    case '{' => true
    case '}' => true
    case '^' => true
    case '$' => true
    case _ => false
  }

  /** What RE2 takes literally behind a backslash: ASCII that is neither letter, digit, blank nor control. */
  predicate IsPunctuation(c: char) {
    ('!' <= c <= '/') || (':' <= c <= '@') || ('[' <= c <= '`') || ('{' <= c <= '~')
  }

  datatype Atom = Lit(c: char) | AnyChar

  datatype Repeat = Once | Optional | Star | Plus

  datatype Piece = Piece(atom: Atom, times: Repeat)

  type Branch = seq<Piece>

  predicate AtomMatches(a: Atom, c: char) {
    match a
    case Lit(x) => x == c
    case AnyChar => c != '\n'
  }

  predicate BranchMatches(b: Branch, s: string)
    decreases |b| + |s|
  {
    if b == [] then s == []
    else
      var here := s != [] && AtomMatches(b[0].atom, s[0]);
      match b[0].times
      case Once => here && BranchMatches(b[1..], s[1..])
      case Optional => BranchMatches(b[1..], s) || (here && BranchMatches(b[1..], s[1..]))
      case Star => BranchMatches(b[1..], s) || (here && BranchMatches(b, s[1..]))
      case Plus => here && (BranchMatches(b[1..], s[1..]) || BranchMatches(b, s[1..]))
  }

  /** A label matcher is anchored at both ends: some branch matches the whole value. */
  predicate Matches(branches: seq<Branch>, s: string) {
    exists b <- branches :: BranchMatches(b, s)
  }

  /** One atom and the text after it. A backslash makes punctuation literal; groups, classes and anchors are refused. */
  function ParseAtom(s: string): Option<(Atom, string)>
    requires s != []
  {
    if s[0] == '\\' then
      if |s| > 1 && IsPunctuation(s[1]) then Some((Lit(s[1]), s[2..])) else None
    else if s[0] == '.' then Some((AnyChar, s[1..]))
    else if IsSyntax(s[0]) then None
    else Some((Lit(s[0]), s[1..]))
  }

  function ParseRepeat(s: string): (Repeat, string) {
    if s == [] then (Once, s)
    else match s[0]
      case '?' => (Optional, s[1..])
      case '*' => (Star, s[1..])
      case '+' => (Plus, s[1..])
      case _ => (Once, s)
  }

  /** The branches of a regular expression without groups, classes or anchors. */
  function ParseRegex(s: string): (r: Option<seq<Branch>>)
    ensures r.Some? ==> r.value != []
    decreases |s|
  {
    if s == [] then Some([[]])
    else if s[0] == '|' then
      var more := ParseRegex(s[1..]);
      if more.None? then None else Some([[]] + more.value)
    else
      var a := ParseAtom(s);
      if a.None? then None
      else
        var (times, rest) := ParseRepeat(a.value.1);
        var more := ParseRegex(rest);
        if more.None? then None
        else Some([[Piece(a.value.0, times)] + more.value[0]] + more.value[1..])
  }

  // ---------------------------------------------------------------------------
  // What the client writes
  // ---------------------------------------------------------------------------

  function LabelChar(c: char): string {
    match c
    case '\\' => "\\\\"
    case '"' => "\\\""
    case '\n' => "\\n"
    case _ => [c]
  }

  function LabelEscaped(value: string): string {
    if value == [] then [] else LabelChar(value[0]) + LabelEscaped(value[1..])
  }

  const META := ['\\', '.', '+', '*', '?', '(', ')', '|', '[', ']', '{', '}', '^', '$']

  function RegexChar(c: char): string {
    if c in META then ['\\', c] else [c]
  }

  function RegexEscaped(value: string): string {
    if value == [] then [] else RegexChar(value[0]) + RegexEscaped(value[1..])
  }

  lemma {:induction false} LabelEscapedAppend(v: string, c: char)
    ensures LabelEscaped(v + [c]) == LabelEscaped(v) + LabelChar(c)
  {
    if v == [] {
      assert LabelEscaped([c]) == LabelChar(c) + LabelEscaped([]);
    } else {
      LabelEscapedAppend(v[1..], c);
      assert (v + [c])[1..] == v[1..] + [c];
    }
  }

  lemma {:induction false} RegexEscapedAppend(v: string, c: char)
    ensures RegexEscaped(v + [c]) == RegexEscaped(v) + RegexChar(c)
  {
    if v == [] {
      assert RegexEscaped([c]) == RegexChar(c) + RegexEscaped([]);
    } else {
      RegexEscapedAppend(v[1..], c);
      assert (v + [c])[1..] == v[1..] + [c];
      Regroup(RegexChar(v[0]), RegexEscaped(v[1..]), RegexChar(c));
    }
  }

  method EscapeLabelValue(value: string) returns (out: string)
    ensures out == LabelEscaped(value)
  {
    out := "";
    for i := 0 to |value|
      invariant out == LabelEscaped(value[..i])
    {
      LabelEscapedAppend(value[..i], value[i]);
      assert value[..i + 1] == value[..i] + [value[i]];
      match value[i] {
        case '\\' => out := out + "\\\\";
        case '"' => out := out + "\\\"";
        case '\n' => out := out + "\\n";
        case c => out := out + [c];
      }
    }
    assert value[..|value|] == value;
  }

  method EscapeRegex(value: string) returns (out: string)
    ensures out == RegexEscaped(value)
  {
    out := "";
    for i := 0 to |value|
      invariant out == RegexEscaped(value[..i])
    {
      RegexEscapedAppend(value[..i], value[i]);
      assert value[..i + 1] == value[..i] + [value[i]];
      if value[i] in META {
        out := out + ['\\'];
      }
      out := out + [value[i]];
    }
    assert value[..|value|] == value;
  }

  /** The names as regex literals, joined with bars. */
  function Alternation(names: seq<string>): string {
    if names == [] then ""
    else if |names| == 1 then RegexEscaped(names[0])
    else RegexEscaped(names[0]) + "|" + Alternation(names[1..])
  }

  function PodSelector(names: seq<string>): string {
    LabelEscaped(Alternation(names))
  }

  // ---------------------------------------------------------------------------
  // Round trips
  // ---------------------------------------------------------------------------

  lemma ScanOneChar(c: char, tail: string)
    requires ScanLiteral(tail).Some?
    ensures ScanLiteral(LabelChar(c) + tail) == Some(([c] + ScanLiteral(tail).value.0, ScanLiteral(tail).value.1))
  {
    var s := LabelChar(c) + tail;
    assert s[|LabelChar(c)|..] == tail;
  }

  /** An escaped value is read back whole and alone, whatever query text follows its closing quote. */
  lemma {:induction false} LabelValueRoundTrip(value: string, rest: string)
    ensures ScanLiteral(LabelEscaped(value) + "\"" + rest) == Some((value, rest))
  {
    var s := LabelEscaped(value) + "\"" + rest;
    if value == [] {
      assert s[1..] == rest;
    } else {
      LabelValueRoundTrip(value[1..], rest);
      var tail := LabelEscaped(value[1..]) + "\"" + rest;
      ScanOneChar(value[0], tail);
      assert s == LabelChar(value[0]) + tail;
      assert value == [value[0]] + value[1..];
    }
  }

  function Literally(name: string): Branch {
    seq(|name|, i requires 0 <= i < |name| => Piece(Lit(name[i]), Once))
  }

  predicate EndsName(tail: string) {
    tail == [] || tail[0] == '|'
  }

  /** Putting one literal character in front of a text puts one piece in front of its first branch. */
  lemma OneMoreLiteral(c: char, next: string)
    requires ParseRepeat(next) == (Once, next) && ParseRegex(next).Some?
    ensures var more := ParseRegex(next).value;
      ParseRegex(RegexChar(c) + next) == Some([[Piece(Lit(c), Once)] + more[0]] + more[1..])
  {
    AtomOfEscapedChar(c, next);
  }

  lemma LiterallyGrows(name: string)
    requires name != []
    ensures Literally(name) == [Piece(Lit(name[0]), Once)] + Literally(name[1..])
  {
  }

  lemma EscapedNameSplits(name: string, tail: string)
    requires name != []
    ensures RegexEscaped(name) + tail == RegexChar(name[0]) + (RegexEscaped(name[1..]) + tail)
  {
    Regroup(RegexChar(name[0]), RegexEscaped(name[1..]), tail);
  }

  lemma Regroup(a: string, b: string, c: string)
    ensures a + b + c == a + (b + c)
  {
  }

  lemma {:induction false} EscapedNameParses(name: string, tail: string)
    requires EndsName(tail) && ParseRegex(tail).Some? && ParseRegex(tail).value[0] == []
    ensures ParseRegex(RegexEscaped(name) + tail)
         == Some([Literally(name)] + ParseRegex(tail).value[1..])
  {
    if name == [] {
      var more := ParseRegex(tail).value;
      assert RegexEscaped(name) + tail == tail && more == [[]] + more[1..] && Literally(name) == [];
    } else {
      var next := RegexEscaped(name[1..]) + tail;
      EscapedNameParses(name[1..], tail);
      NoRepeatAfterName(name[1..], tail);
      OneMoreLiteral(name[0], next);
      EscapedNameSplits(name, tail);
      LiterallyGrows(name);
      var others := ParseRegex(tail).value[1..];
      assert ParseRegex(next).value == [Literally(name[1..])] + others;
      assert ([Literally(name[1..])] + others)[1..] == others;
    }
  }

  lemma AtomOfEscapedChar(c: char, next: string)
    ensures var s := RegexChar(c) + next;
      s[0] != '|' && ParseAtom(s) == Some((Lit(c), next))
  {
    var s := RegexChar(c) + next;
    assert s[|RegexChar(c)|..] == next;
  }

  lemma NoRepeatAfterName(name: string, tail: string)
    requires EndsName(tail)
    ensures var s := RegexEscaped(name) + tail; ParseRepeat(s) == (Once, s)
  {
    if name != [] {
      assert (RegexEscaped(name) + tail)[0] == RegexChar(name[0])[0];
    }
  }

  function Branches(names: seq<string>): seq<Branch> {
    seq(|names|, i requires 0 <= i < |names| => Literally(names[i]))
  }

  lemma LastNameParses(name: string)
    ensures ParseRegex(RegexEscaped(name)) == Some([Literally(name)])
  {
    assert ParseRegex("") == Some([[]]);
    EscapedNameParses(name, "");
    assert RegexEscaped(name) + "" == RegexEscaped(name);
    assert [Literally(name)] + [] == [Literally(name)];
  }

  lemma NextNameParses(name: string, rest: string)
    requires ParseRegex(rest).Some?
    ensures ParseRegex(RegexEscaped(name) + "|" + rest) == Some([Literally(name)] + ParseRegex(rest).value)
  {
    var tail := "|" + rest;
    assert tail[1..] == rest;
    assert ParseRegex(tail) == Some([[]] + ParseRegex(rest).value);
    EscapedNameParses(name, tail);
    assert RegexEscaped(name) + "|" + rest == RegexEscaped(name) + tail;
    assert ParseRegex(tail).value[1..] == ParseRegex(rest).value;
  }

  lemma {:induction false} AlternationParses(names: seq<string>)
    requires names != []
    ensures ParseRegex(Alternation(names)) == Some(Branches(names))
  {
    if |names| == 1 {
      LastNameParses(names[0]);
      assert Branches(names) == [Literally(names[0])];
    } else {
      AlternationParses(names[1..]);
      NextNameParses(names[0], Alternation(names[1..]));
      assert Branches(names) == [Literally(names[0])] + Branches(names[1..]);
    }
  }

  lemma {:induction false} LiteralMatchesItself(name: string, s: string)
    ensures BranchMatches(Literally(name), s) <==> s == name
  {
    if name == [] {
      assert Literally(name) == [];
    } else {
      assert Literally(name)[1..] == Literally(name[1..]);
      if s != [] {
        LiteralMatchesItself(name[1..], s[1..]);
        assert s == [s[0]] + s[1..] && name == [name[0]] + name[1..];
      }
    }
  }

  /** The regular expression a selector text holds once its literal is read. */
  function ReadSelector(text: string): Option<seq<Branch>> {
    var value := ScanLiteral(text);
    if value.None? then None else ParseRegex(value.value.0)
  }

  /** The selector of a list of names is read back as those names, in order, each a plain literal. */
  lemma SelectorRoundTrip(names: seq<string>, rest: string)
    requires names != []
    ensures ReadSelector(PodSelector(names) + "\"" + rest) == Some(Branches(names))
  {
    LabelValueRoundTrip(Alternation(names), rest);
    AlternationParses(names);
  }

  /**
   A selector matches exactly the names it was built from, unless the list is empty:
   then it matches the empty name.
   */
  lemma SelectorMatchesItsNames(names: seq<string>, rest: string, pod: string)
    ensures var re := ReadSelector(PodSelector(names) + "\"" + rest);
      re.Some? && (Matches(re.value, pod) <==> if names == [] then pod == "" else pod in names)
  {
    if names == [] {
      LabelValueRoundTrip("", rest);
      assert ParseRegex("") == Some([[]]);
      var none: Branch := [];
      assert BranchMatches(none, pod) <==> pod == "";
      assert none in [none];
    } else {
      SelectorRoundTrip(names, rest);
      var re := Branches(names);
      if pod in names {
        var i :| 0 <= i < |names| && names[i] == pod;
        LiteralMatchesItself(pod, pod);
        assert re[i] == Literally(pod) && re[i] in re;
      }
      if Matches(re, pod) {
        var b :| b in re && BranchMatches(b, pod);
        var i :| 0 <= i < |re| && re[i] == b;
        LiteralMatchesItself(names[i], pod);
      }
    }
  }

  /** "The selector stands for the names" holds exactly for non-empty lists. */
  lemma SelectorIsExactIff(names: seq<string>, rest: string)
    ensures var re := ReadSelector(PodSelector(names) + "\"" + rest);
      re.Some? && ((forall pod :: Matches(re.value, pod) <==> pod in names) <==> names != [])
  {
    SelectorMatchesItsNames(names, rest, "");
    forall pod: string ensures var re := ReadSelector(PodSelector(names) + "\"" + rest);
      re.Some? && (names != [] ==> (Matches(re.value, pod) <==> pod in names))
    {
      SelectorMatchesItsNames(names, rest, pod);
    }
  }

  // ---------------------------------------------------------------------------
  // Durations
  // ---------------------------------------------------------------------------

  function Duration(secs: nat): string {
    if secs == 0 then "0s"
    else if secs % 3600 == 0 then Show(secs / 3600) + "h"
    else if secs % 60 == 0 then Show(secs / 60) + "m"
    else Show(secs) + "s"
  }

  /** A PromQL duration of one unit, in seconds. */
  function ReadDuration(s: string): Option<nat> {
    var n := DigitRun(s);
    if n == 0 || n + 1 != |s| then None
    else match s[n]
      case 'h' => Some(Decimal(s[..n]) * 3600)
      case 'm' => Some(Decimal(s[..n]) * 60)
      case 's' => Some(Decimal(s[..n]))
      case _ => None
  }

  lemma ReadUnit(n: nat, unit: char)
    requires unit in {'h', 'm', 's'}
    ensures ReadDuration(Show(n) + [unit]) == Some(n * if unit == 'h' then 3600 else if unit == 'm' then 60 else 1)
  {
    ShowRoundTrip(n);
    RunOfDigits(Show(n), [unit]);
    var s := Show(n) + [unit];
    assert s[..|Show(n)|] == Show(n);
  }

  /** A duration is read back to the second, and never written as a fraction. */
  lemma DurationRoundTrip(secs: nat)
    ensures ReadDuration(Duration(secs)) == Some(secs)
  {
    if secs == 0 {
      ReadUnit(0, 's');
      assert Show(0) + "s" == "0s";
    } else if secs % 3600 == 0 {
      ReadUnit(secs / 3600, 'h');
      assert Duration(secs) == Show(secs / 3600) + ['h'];
    } else if secs % 60 == 0 {
      ReadUnit(secs / 60, 'm');
      assert Duration(secs) == Show(secs / 60) + ['m'];
    } else {
      ReadUnit(secs, 's');
      assert Duration(secs) == Show(secs) + ['s'];
    }
  }
}
