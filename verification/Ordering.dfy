/**
 Three-way comparisons, as Rust's `Ordering`: what it takes for one to be a total
 preorder or a total order, and the lexicographic comparison built from one.
 */
module Ordering {
  datatype Order = Less | Equal | Greater {
    function Reverse(): Order {
      match this
      case Less => Greater
      case Equal => Equal
      case Greater => Less
    }

    /** This comparison, or the next one on a tie. */
    function Then(next: Order): Order {
      if this == Equal then next else this
    }
  }

  /** How comparing the ends follows from comparing with the middle. */
  predicate Chains(ab: Order, bc: Order, ac: Order) {
    && (ab == Equal ==> ac == bc)
    && (bc == Equal ==> ac == ab)
    && (ab == bc ==> ac == ab)
  }

  ghost predicate Preorder<T(!new)>(cmp: (T, T) -> Order) {
    && (forall a, b :: cmp(b, a) == cmp(a, b).Reverse())
    && (forall a, b, c :: Chains(cmp(a, b), cmp(b, c), cmp(a, c)))
  }

  /** A preorder that ties equal values only. */
  ghost predicate TotalOrder<T(!new)>(cmp: (T, T) -> Order) {
    Preorder(cmp) && forall a, b :: cmp(a, b) == Equal <==> a == b
  }

  function CompareNats(a: nat, b: nat): Order {
    if a < b then Less else if a == b then Equal else Greater
  }

  function CompareChars(a: char, b: char): Order {
    if a < b then Less else if a == b then Equal else Greater
  }

  function Lex<T>(a: seq<T>, b: seq<T>, cmp: (T, T) -> Order): Order {
    if a == [] && b == [] then Equal
    else if a == [] then Less
    else if b == [] then Greater
    else cmp(a[0], b[0]).Then(Lex(a[1..], b[1..], cmp))
  }

  lemma {:induction false} LexReverses<T(!new)>(a: seq<T>, b: seq<T>, cmp: (T, T) -> Order)
    requires Preorder(cmp)
    ensures Lex(b, a, cmp) == Lex(a, b, cmp).Reverse()
  {
    if a != [] && b != [] {
      LexReverses(a[1..], b[1..], cmp);
      assert cmp(b[0], a[0]) == cmp(a[0], b[0]).Reverse();
    }
  }

  lemma {:induction false} LexChains<T(!new)>(a: seq<T>, b: seq<T>, c: seq<T>, cmp: (T, T) -> Order)
    requires Preorder(cmp)
    ensures Chains(Lex(a, b, cmp), Lex(b, c, cmp), Lex(a, c, cmp))
  {
    if a != [] && b != [] && c != [] {
      LexChains(a[1..], b[1..], c[1..], cmp);
      assert Chains(cmp(a[0], b[0]), cmp(b[0], c[0]), cmp(a[0], c[0]));
    }
  }

  lemma {:induction false} LexTies<T(!new)>(a: seq<T>, b: seq<T>, cmp: (T, T) -> Order)
    requires TotalOrder(cmp)
    ensures Lex(a, b, cmp) == Equal <==> a == b
  {
    if a != [] && b != [] {
      LexTies(a[1..], b[1..], cmp);
      assert a == [a[0]] + a[1..] && b == [b[0]] + b[1..];
    }
  }

  lemma LexOfHeads<T(!new)>(x: T, a: seq<T>, y: T, b: seq<T>, cmp: (T, T) -> Order)
    ensures Lex([x] + a, [y] + b, cmp) == cmp(x, y).Then(Lex(a, b, cmp))
  {
  }

  /** A common start decides nothing. */
  lemma {:induction false} LexSkipsCommonPrefix<T(!new)>(p: seq<T>, a: seq<T>, b: seq<T>, cmp: (T, T) -> Order)
    requires TotalOrder(cmp)
    ensures Lex(p + a, p + b, cmp) == Lex(a, b, cmp)
  {
    if p == [] {
      assert p + a == a && p + b == b;
    } else {
      LexSkipsCommonPrefix(p[1..], a, b, cmp);
      assert (p + a)[1..] == p[1..] + a && (p + b)[1..] == p[1..] + b;
    }
  }

  /** Ties broken by a second preorder: still a preorder. */
  lemma ThenChains(ab: Order, bc: Order, ac: Order, ab': Order, bc': Order, ac': Order)
    requires Chains(ab, bc, ac) && Chains(ab', bc', ac')
    requires ab == Equal && bc == Equal ==> ac == Equal
    ensures Chains(ab.Then(ab'), bc.Then(bc'), ac.Then(ac'))
  {
  }

  // ---------------------------------------------------------------------------
  // Sorting by a comparison
  // ---------------------------------------------------------------------------

  /** How many items at the front are not above this one: where it goes, after its equals. */
  function Place<T>(sorted: seq<T>, item: T, cmp: (T, T) -> Order): (n: nat)
    ensures n <= |sorted|
  {
    if sorted == [] || cmp(sorted[0], item) == Greater then 0 else 1 + Place(sorted[1..], item, cmp)
  }

  function Inserted<T>(sorted: seq<T>, item: T, cmp: (T, T) -> Order): seq<T> {
    var n := Place(sorted, item, cmp);
    sorted[..n] + [item] + sorted[n..]
  }

  /** The stable sort. */
  function SortedBy<T>(items: seq<T>, cmp: (T, T) -> Order): seq<T> {
    if items == [] then [] else Inserted(SortedBy(items[..|items| - 1], cmp), items[|items| - 1], cmp)
  }

  predicate IsSorted<T>(items: seq<T>, cmp: (T, T) -> Order) {
    forall i, j | 0 <= i < j < |items| :: cmp(items[i], items[j]) != Greater
  }

  lemma {:induction false} PlaceSplits<T(!new)>(sorted: seq<T>, item: T, cmp: (T, T) -> Order)
    requires Preorder(cmp) && IsSorted(sorted, cmp)
    ensures var n := Place(sorted, item, cmp);
      && (forall i | 0 <= i < n :: cmp(sorted[i], item) != Greater)
      && (forall i | n <= i < |sorted| :: cmp(item, sorted[i]) != Greater)
  {
    if sorted != [] {
      if cmp(sorted[0], item) == Greater {
        forall i | 0 <= i < |sorted| ensures cmp(item, sorted[i]) != Greater {
          assert cmp(item, sorted[0]) == cmp(sorted[0], item).Reverse();
          assert i > 0 ==> cmp(sorted[0], sorted[i]) != Greater;
          assert Chains(cmp(item, sorted[0]), cmp(sorted[0], sorted[i]), cmp(item, sorted[i]));
        }
      } else {
        PlaceSplits(sorted[1..], item, cmp);
        assert forall i | 0 < i < |sorted| :: sorted[i] == sorted[1..][i - 1];
      }
    }
  }

  lemma JoinedStaysSorted<T>(left: seq<T>, item: T, right: seq<T>, cmp: (T, T) -> Order)
    requires IsSorted(left + right, cmp)
    requires (forall x <- left :: cmp(x, item) != Greater) && (forall x <- right :: cmp(item, x) != Greater)
    ensures IsSorted(left + [item] + right, cmp)
  {
    var s, t, n := left + right, left + [item] + right, |left|;
    forall i, j | 0 <= i < j < |t| ensures cmp(t[i], t[j]) != Greater {
      if i < n && j != n {
        assert t[i] == s[i] && t[j] == if j < n then s[j] else s[j - 1];
      } else if i > n {
        assert t[i] == s[i - 1] && t[j] == s[j - 1];
      } else if i == n {
        assert t[j] == right[j - n - 1];
      }
    }
  }

  lemma InsertedStaysSorted<T(!new)>(sorted: seq<T>, item: T, cmp: (T, T) -> Order)
    requires Preorder(cmp) && IsSorted(sorted, cmp)
    ensures IsSorted(Inserted(sorted, item, cmp), cmp)
    ensures multiset(Inserted(sorted, item, cmp)) == multiset(sorted) + multiset{item}
  {
    PlaceSplits(sorted, item, cmp);
    var n := Place(sorted, item, cmp);
    assert sorted == sorted[..n] + sorted[n..];
    JoinedStaysSorted(sorted[..n], item, sorted[n..], cmp);
  }

  lemma {:induction false} SortedByIsSorted<T(!new)>(items: seq<T>, cmp: (T, T) -> Order)
    requires Preorder(cmp)
    ensures IsSorted(SortedBy(items, cmp), cmp) && multiset(SortedBy(items, cmp)) == multiset(items)
  {
    if items != [] {
      var init := items[..|items| - 1];
      SortedByIsSorted(init, cmp);
      InsertedStaysSorted(SortedBy(init, cmp), items[|items| - 1], cmp);
      assert items == init + [items[|items| - 1]];
    }
  }

  /** The comparison ties no two different items of the collection. */
  ghost predicate Decides<T(!new)>(cmp: (T, T) -> Order, items: multiset<T>) {
    forall a, b | a in items && b in items && cmp(a, b) == Equal :: a == b
  }

  lemma {:induction false} SameFirst<T(!new)>(v: seq<T>, w: seq<T>, cmp: (T, T) -> Order)
    requires Preorder(cmp) && IsSorted(v, cmp) && IsSorted(w, cmp)
    requires v != [] && w != [] && multiset(v) == multiset(w) && Decides(cmp, multiset(v))
    ensures v[0] == w[0]
  {
    assert v[0] in multiset(w) && w[0] in multiset(v);
    var i :| 0 <= i < |w| && w[i] == v[0];
    var j :| 0 <= j < |v| && v[j] == w[0];
    assert cmp(w[0], v[0]) == cmp(v[0], w[0]).Reverse();
  }

  lemma SameRest<T(!new)>(v: seq<T>, w: seq<T>, cmp: (T, T) -> Order)
    requires v != [] && w != [] && v[0] == w[0] && multiset(v) == multiset(w) && Decides(cmp, multiset(v))
    ensures multiset(v[1..]) == multiset(w[1..]) && Decides(cmp, multiset(v[1..]))
  {
    assert v == [v[0]] + v[1..] && w == [w[0]] + w[1..];
    assert multiset(v[1..]) == multiset(v) - multiset{v[0]} == multiset(w[1..]);
  }

  lemma RestIsSorted<T>(v: seq<T>, cmp: (T, T) -> Order)
    requires v != [] && IsSorted(v, cmp)
    ensures IsSorted(v[1..], cmp)
  {
    forall i, j | 0 <= i < j < |v[1..]| ensures cmp(v[1..][i], v[1..][j]) != Greater {
      assert cmp(v[i + 1], v[j + 1]) != Greater;
    }
  }

  /** There is only one way to sort a collection by a comparison that decides it. */
  lemma {:induction false} OneSortedOrder<T(!new)>(v: seq<T>, w: seq<T>, cmp: (T, T) -> Order)
    requires Preorder(cmp) && IsSorted(v, cmp) && IsSorted(w, cmp)
    requires multiset(v) == multiset(w) && Decides(cmp, multiset(v))
    ensures v == w
  {
    assert |multiset(v)| == |v| && |multiset(w)| == |w|;
    if v != [] {
      SameFirst(v, w, cmp);
      SameRest(v, w, cmp);
      RestIsSorted(v, cmp);
      RestIsSorted(w, cmp);
      OneSortedOrder(v[1..], w[1..], cmp);
    }
  }

  function Reversed<T>(items: seq<T>): seq<T> {
    seq(|items|, i requires 0 <= i < |items| => items[|items| - 1 - i])
  }

  lemma ReversedIsSorted<T(!new)>(items: seq<T>, cmp: (T, T) -> Order, reverse: (T, T) -> Order)
    requires IsSorted(items, cmp) && forall a, b :: reverse(b, a) == cmp(a, b)
    ensures IsSorted(Reversed(items), reverse)
  {
  }

  lemma {:induction false} ReversedKeepsItems<T>(items: seq<T>)
    ensures multiset(Reversed(items)) == multiset(items)
  {
    if items != [] {
      var init := items[..|items| - 1];
      ReversedKeepsItems(init);
      assert Reversed(items) == [items[|items| - 1]] + Reversed(init);
      assert items == init + [items[|items| - 1]];
    } else {
      assert Reversed(items) == [];
    }
  }
}
