/**
 The natural comparison of names: digit runs by value, everything else by character.
 */
module NaturalSort {
  import opened Ordering
  import opened Text

  const U64_LIMIT: nat := 0x1_0000_0000_0000_0000

  datatype Token = Num(value: nat) | Chr(c: char)

  /** How many digits the text starts with. */
  function DigitRun(s: string): (n: nat)
    ensures n <= |s|
    ensures forall i | 0 <= i < n :: IsDigit(s[i])
    ensures n < |s| ==> !IsDigit(s[n])
  {
    if s == [] || !IsDigit(s[0]) then 0 else 1 + DigitRun(s[1..])
  }

  /** A digit run read as a 64-bit number; one that does not fit reads as zero. */
  function ParseOrZero(digits: string): nat
    requires forall c <- digits :: IsDigit(c)
  {
    if Decimal(digits) < U64_LIMIT then Decimal(digits) else 0
  }

  /** The first token of a text, and what follows it. */
  function FirstToken(s: string): (Token, string)
    requires s != []
  {
    var n := DigitRun(s);
    if n > 0 then (Num(ParseOrZero(s[..n])), s[n..]) else (Chr(s[0]), s[1..])
  }

  function Tokens(s: string): seq<Token> {
    if s == [] then [] else [FirstToken(s).0] + Tokens(FirstToken(s).1)
  }

  /** Numbers by value, characters by code point, and a number where its digits stand among the characters. */
  function CompareTokens(a: Token, b: Token): Order {
    match (a, b)
    case (Num(x), Num(y)) => CompareNats(x, y)
    case (Chr(x), Chr(y)) => CompareChars(x, y)
    case (Num(_), Chr(y)) => if y > '9' then Less else Greater
    case (Chr(x), Num(_)) => if x > '9' then Greater else Less
  }

  /** What the natural comparison means: compare the token lists. */
  function NaturalOrder(a: string, b: string): Order {
    Lex(Tokens(a), Tokens(b), CompareTokens)
  }

  method NatCmp(a0: string, b0: string) returns (r: Order)
    ensures r == NaturalOrder(a0, b0)
  {
    var a, b := a0, b0;
    while true
      invariant NaturalOrder(a, b) == NaturalOrder(a0, b0)
      decreases |a|
    {
      if a == [] && b == [] {
        return Equal;
      } else if a == [] {
        return Less;
      } else if b == [] {
        return Greater;
      }
      TokensSplit(a);
      TokensSplit(b);
      if IsDigit(a[0]) && IsDigit(b[0]) {
        var an, bn := DigitRun(a), DigitRun(b);
        var av, bv := ParseOrZero(a[..an]), ParseOrZero(b[..bn]);
        var ord := CompareNats(av, bv);
        if ord != Equal {
          return ord;
        }
        a, b := a[an..], b[bn..];
      } else {
        var ord := CompareChars(a[0], b[0]);
        if ord != Equal {
          return ord;
        }
        a, b := a[1..], b[1..];
      }
    }
  }

  lemma TokensSplit(s: string)
    requires s != []
    ensures var n := DigitRun(s);
      && (n > 0 <==> IsDigit(s[0]))
      && Tokens(s) != []
      && Tokens(s)[0] == (if n > 0 then Num(ParseOrZero(s[..n])) else Chr(s[0]))
      && Tokens(s)[1..] == Tokens(s[if n > 0 then n else 1..])
  {
  }

  lemma CompareTokensReverses(a: Token, b: Token)
    ensures CompareTokens(b, a) == CompareTokens(a, b).Reverse()
    ensures CompareTokens(a, b) == Equal <==> a == b
  {
  }

  lemma CompareTokensChains(a: Token, b: Token, c: Token)
    ensures Chains(CompareTokens(a, b), CompareTokens(b, c), CompareTokens(a, c))
  {
  }

  lemma TokensAreOrdered()
    ensures TotalOrder(CompareTokens)
  {
    forall a: Token, b: Token
      ensures CompareTokens(b, a) == CompareTokens(a, b).Reverse()
      ensures CompareTokens(a, b) == Equal <==> a == b
    {
      CompareTokensReverses(a, b);
    }
    forall a: Token, b: Token, c: Token
      ensures Chains(CompareTokens(a, b), CompareTokens(b, c), CompareTokens(a, c))
    {
      CompareTokensChains(a, b, c);
    }
  }

  /**
   The natural comparison is a total preorder that ties exactly the names with the
   same tokens ("a01" and "a1", say).
   */
  lemma NaturalOrderIsPreorder()
    ensures Preorder(NaturalOrder)
    ensures forall a, b :: NaturalOrder(a, b) == Equal <==> Tokens(a) == Tokens(b)
  {
    TokensAreOrdered();
    forall a: string, b: string
      ensures NaturalOrder(b, a) == NaturalOrder(a, b).Reverse()
      ensures NaturalOrder(a, b) == Equal <==> Tokens(a) == Tokens(b)
    {
      LexReverses(Tokens(a), Tokens(b), CompareTokens);
      LexTies(Tokens(a), Tokens(b), CompareTokens);
    }
    forall a: string, b: string, c: string
      ensures Chains(NaturalOrder(a, b), NaturalOrder(b, c), NaturalOrder(a, c))
    {
      LexChains(Tokens(a), Tokens(b), Tokens(c), CompareTokens);
    }
  }

  lemma {:induction false} RunOfDigits(s: string, t: string)
    requires AllDigits(s) && (t == [] || !IsDigit(t[0]))
    ensures DigitRun(s + t) == |s|
    decreases |s|
  {
    assert s[0] in s && (s + t)[1..] == s[1..] + t;
    if |s| > 1 {
      RunOfDigits(s[1..], t);
    } else {
      assert s[1..] + t == t;
    }
  }

  lemma {:induction false} RunStopsInside(p: string, s: string)
    requires p != [] && !IsDigit(p[|p| - 1])
    ensures DigitRun(p + s) == DigitRun(p) < |p|
    decreases |p|
  {
    if IsDigit(p[0]) {
      assert (p + s)[1..] == p[1..] + s;
      RunStopsInside(p[1..], s);
    }
  }

  lemma FirstTokenOfPrefix(p: string, s: string)
    requires p != [] && !IsDigit(p[|p| - 1])
    ensures FirstToken(p + s) == (FirstToken(p).0, FirstToken(p).1 + s)
    ensures FirstToken(p).1 == [] || !IsDigit(FirstToken(p).1[|FirstToken(p).1| - 1])
  {
    var n := DigitRun(p);
    RunStopsInside(p, s);
    assert (p + s)[..n] == p[..n] && (p + s)[n..] == p[n..] + s && (p + s)[1..] == p[1..] + s;
  }

  lemma TokensOfFirst(p: string, s: string, head: Token, rest: string)
    requires p != [] && FirstToken(p) == (head, rest) && FirstToken(p + s) == (head, rest + s)
    requires Tokens(rest + s) == Tokens(rest) + Tokens(s)
    ensures Tokens(p + s) == Tokens(p) + Tokens(s)
  {
  }

  /** Text that does not end in a digit keeps its tokens, whatever follows. */
  lemma {:induction false} TokensOfPrefix(p: string, s: string)
    requires p == [] || !IsDigit(p[|p| - 1])
    ensures Tokens(p + s) == Tokens(p) + Tokens(s)
    decreases |p|
  {
    if p == [] {
      assert p + s == s;
    } else {
      FirstTokenOfPrefix(p, s);
      TokensOfPrefix(FirstToken(p).1, s);
      TokensOfFirst(p, s, FirstToken(p).0, FirstToken(p).1);
    }
  }

  lemma TokensOfNumber(p: string, digits: string, t: string)
    requires (p == [] || !IsDigit(p[|p| - 1])) && AllDigits(digits) && (t == [] || !IsDigit(t[0]))
    ensures Tokens(p + digits + t) == Tokens(p) + ([Num(ParseOrZero(digits))] + Tokens(t))
  {
    RunOfDigits(digits, t);
    assert p + digits + t == p + (digits + t);
    TokensOfPrefix(p, digits + t);
    assert (digits + t)[..|digits|] == digits && (digits + t)[|digits|..] == t;
  }

  /**
   After a common start, two characters that are not both digits decide by code point, whatever
   follows them: a number stands where its first digit does.
   */
  lemma FirstDifferenceDecides(p: string, a: string, b: string)
    requires (p == [] || !IsDigit(p[|p| - 1])) && a != [] && b != [] && a[0] != b[0]
    requires !(IsDigit(a[0]) && IsDigit(b[0]))
    ensures NaturalOrder(p + a, p + b) == if a[0] as int < b[0] as int then Less else Greater
  {
    TokensAreOrdered();
    TokensOfPrefix(p, a);
    TokensOfPrefix(p, b);
    LexSkipsCommonPrefix(Tokens(p), Tokens(a), Tokens(b), CompareTokens);
  }

  /** The start of a name comes before the name. */
  lemma StartComesFirst(p: string, b: string)
    requires (p == [] || !IsDigit(p[|p| - 1])) && b != []
    ensures NaturalOrder(p, p + b) == Less
  {
    TokensAreOrdered();
    TokensOfPrefix(p, b);
    assert p + [] == p && Tokens(p) + [] == Tokens(p);
    LexSkipsCommonPrefix(Tokens(p), [], Tokens(b), CompareTokens);
  }

  /** After a common start, numbers decide as they are read, then what follows them. */
  lemma NumbersCompareAsRead(p: string, x: string, y: string, t: string, u: string)
    requires (p == [] || !IsDigit(p[|p| - 1])) && AllDigits(x) && AllDigits(y)
    requires (t == [] || !IsDigit(t[0])) && (u == [] || !IsDigit(u[0]))
    ensures NaturalOrder(p + x + t, p + y + u)
         == CompareNats(ParseOrZero(x), ParseOrZero(y)).Then(NaturalOrder(t, u))
  {
    var a, b := Num(ParseOrZero(x)), Num(ParseOrZero(y));
    TokensAreOrdered();
    TokensOfNumber(p, x, t);
    TokensOfNumber(p, y, u);
    LexSkipsCommonPrefix(Tokens(p), [a] + Tokens(t), [b] + Tokens(u), CompareTokens);
    LexOfHeads(a, Tokens(t), b, Tokens(u), CompareTokens);
  }

  /**
   After a common start, numbers below 2^64 decide by value whatever follows them:
   "osd-2" comes before "osd-10".
   */
  lemma NumbersCompareByValue(p: string, x: string, y: string, t: string, u: string)
    requires (p == [] || !IsDigit(p[|p| - 1])) && AllDigits(x) && AllDigits(y)
    requires (t == [] || !IsDigit(t[0])) && (u == [] || !IsDigit(u[0]))
    requires Decimal(x) < 0x1_0000_0000_0000_0000 && Decimal(y) < 0x1_0000_0000_0000_0000
    ensures NaturalOrder(p + x + t, p + y + u)
         == if Decimal(x) < Decimal(y) then Less else if Decimal(x) > Decimal(y) then Greater else NaturalOrder(t, u)
  {
    NumbersCompareAsRead(p, x, y, t, u);
  }

  lemma TrailingNumbersCompareAsRead(p: string, x: string, y: string)
    requires (p == [] || !IsDigit(p[|p| - 1])) && AllDigits(x) && AllDigits(y)
    ensures NaturalOrder(p + x, p + y) == CompareNats(ParseOrZero(x), ParseOrZero(y))
  {
    NumbersCompareAsRead(p, x, y, [], []);
    assert p + x + [] == p + x && p + y + [] == p + y;
  }

  /**
   Names that end in a number compare by that number exactly when both numbers fit
   64 bits, or are the same.
   */
  lemma TrailingNumbersCompareByValueIff(p: string, x: string, y: string)
    requires (p == [] || !IsDigit(p[|p| - 1])) && AllDigits(x) && AllDigits(y)
    ensures NaturalOrder(p + x, p + y) == CompareNats(Decimal(x), Decimal(y))
       <==> (Decimal(x) < 0x1_0000_0000_0000_0000 && Decimal(y) < 0x1_0000_0000_0000_0000) || Decimal(x) == Decimal(y)
  {
    TrailingNumbersCompareAsRead(p, x, y);
  }

  function Pow10(n: nat): nat {
    if n == 0 then 1 else 10 * Pow10(n - 1)
  }

  lemma {:induction false} DecimalIsLarge(digits: string)
    requires AllDigits(digits) && digits[0] != '0'
    ensures Decimal(digits) >= Pow10(|digits| - 1)
    decreases |digits|
  {
    var init := digits[..|digits| - 1];
    assert digits[0] in digits;
    if |digits| > 1 {
      DecimalIsLarge(init);
    } else {
      assert Decimal(digits) == 10 * Decimal([]) + Digit(digits[0]);
    }
  }

  lemma {:induction false} Pow10Grows(n: nat)
    requires n >= 20
    ensures Pow10(n) >= U64_LIMIT
  {
    if n == 20 {
      assert Pow10(7) == 10_000_000;
      assert Pow10(14) == 100_000_000_000_000;
    } else {
      Pow10Grows(n - 1);
    }
  }

  lemma LongNumberReadsAsZero(digits: string)
    requires AllDigits(digits) && digits[0] != '0' && |digits| > 20
    ensures ParseOrZero(digits) == 0 && Decimal(digits) >= U64_LIMIT
  {
    DecimalIsLarge(digits);
    Pow10Grows(|digits| - 1);
  }

  lemma OneReadsAsOne()
    ensures AllDigits("1") && Decimal("1") == 1 && ParseOrZero("1") == 1
  {
    assert "1"[..0] == [];
  }

  /** A number of more than twenty digits reads as zero, and so comes before "1". */
  lemma HugeNumbersComeFirst(p: string, digits: string)
    requires (p == [] || !IsDigit(p[|p| - 1])) && AllDigits(digits) && digits[0] != '0' && |digits| > 20
    ensures NaturalOrder(p + digits, p + "1") == Less && Decimal(digits) >= U64_LIMIT
  {
    LongNumberReadsAsZero(digits);
    OneReadsAsOne();
    TrailingNumbersCompareAsRead(p, digits, "1");
  }
}
