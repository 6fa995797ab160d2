/**
 The rows a list shows, in order: filtered, then sorted by the chosen column, the
 name and the uid. The order of the map they come from must not show.
 */
module ShownRows {
  import opened Wrappers
  import opened Ordering
  import opened NaturalSort
  import opened Rows
  import opened Text

  /** Sorting by a cell's text is not modelled. */
  datatype SortKey = ByNamespace | ByName | ByAge

  /** A row with the key it has in its map: the uid, or the kind and the uid. */
  datatype Item = Item(key: string, row: Row)

  datatype Query = Query(
    sortKey: SortKey, asc: bool, onlyProblems: bool, status: Option<RowStatus>, text: string, lower: string -> string)

  function StringOrder(a: string, b: string): Order {
    Lex(a, b, CompareChars)
  }

  /** No timestamp comes first. */
  function CreatedOrder(a: Option<string>, b: Option<string>): Order {
    match (a, b)
    case (None, None) => Equal
    case (None, Some(_)) => Less
    case (Some(_), None) => Greater
    case (Some(x), Some(y)) => StringOrder(x, y)
  }

  function OrEmpty(s: Option<string>): string {
    if s.Some? then s.value else ""
  }

  /** The chosen column alone. */
  function ColumnOrder(a: Row, b: Row, key: SortKey): Order {
    match key
    case ByNamespace => NaturalOrder(OrEmpty(a.namespace), OrEmpty(b.namespace))
    case ByName => Equal
    case ByAge => CreatedOrder(a.created, b.created)
  }

  function RowOrder(a: Row, b: Row, key: SortKey): Order {
    ColumnOrder(a, b, key).Then(NaturalOrder(a.name, b.name)).Then(StringOrder(a.uid, b.uid))
  }

  function ItemOrder(a: Item, b: Item, q: Query): Order {
    var ord := RowOrder(a.row, b.row, q.sortKey).Then(StringOrder(a.key, b.key));
    if q.asc then ord else ord.Reverse()
  }

  predicate Passes(item: Item, q: Query) {
    && (q.onlyProblems ==> item.row.status in {Error, Warn})
    && (q.status.Some? ==> item.row.status == q.status.value)
    && (q.text != "" ==> Contains(q.lower(item.row.name), q.text))
  }

  function Filtered(items: seq<Item>, q: Query): seq<Item> {
    if items == [] then []
    else
      var last := items[|items| - 1];
      Filtered(items[..|items| - 1], q) + if Passes(last, q) then [last] else []
  }

  function OrderFor(q: Query): (Item, Item) -> Order {
    (a: Item, b: Item) => ItemOrder(a, b, q)
  }

  function Shown(items: seq<Item>, q: Query): seq<Item> {
    SortedBy(Filtered(items, q), OrderFor(q))
  }

  function Keys(items: seq<Item>): seq<string> {
    seq(|items|, i requires 0 <= i < |items| => items[i].key)
  }

  method ShownRowKeys(items: seq<Item>, q: Query) returns (keys: seq<string>)
    ensures keys == Keys(Shown(items, q))
  {
    var rows: seq<Item> := [];
    for i := 0 to |items|
      invariant rows == Filtered(items[..i], q)
    {
      assert items[..i + 1][..i] == items[..i];
      if Passes(items[i], q) {
        rows := rows + [items[i]];
      }
    }
    assert items[..|items|] == items;
    rows := SortedBy(rows, OrderFor(q));
    keys := Keys(rows);
  }

  // ---------------------------------------------------------------------------
  // The comparison is a total order on distinct keys
  // ---------------------------------------------------------------------------

  lemma CharsAreOrdered()
    ensures TotalOrder(CompareChars)
  {
  }

  lemma StringOrderLaws(a: string, b: string, c: string)
    ensures StringOrder(b, a) == StringOrder(a, b).Reverse()
    ensures StringOrder(a, b) == Equal <==> a == b
    ensures Chains(StringOrder(a, b), StringOrder(b, c), StringOrder(a, c))
  {
    CharsAreOrdered();
    LexReverses(a, b, CompareChars);
    LexTies(a, b, CompareChars);
    LexChains(a, b, c, CompareChars);
  }

  lemma NaturalOrderLaws(a: string, b: string, c: string)
    ensures NaturalOrder(b, a) == NaturalOrder(a, b).Reverse()
    ensures Chains(NaturalOrder(a, b), NaturalOrder(b, c), NaturalOrder(a, c))
  {
    NaturalOrderIsPreorder();
  }

  lemma ColumnOrderLaws(a: Row, b: Row, c: Row, key: SortKey)
    ensures ColumnOrder(b, a, key) == ColumnOrder(a, b, key).Reverse()
    ensures Chains(ColumnOrder(a, b, key), ColumnOrder(b, c, key), ColumnOrder(a, c, key))
  {
    NaturalOrderLaws(OrEmpty(a.namespace), OrEmpty(b.namespace), OrEmpty(c.namespace));
    StringOrderLaws(OrEmpty(a.created), OrEmpty(b.created), OrEmpty(c.created));
  }

  lemma RowOrderLaws(a: Row, b: Row, c: Row, key: SortKey)
    ensures RowOrder(b, a, key) == RowOrder(a, b, key).Reverse()
    ensures Chains(RowOrder(a, b, key), RowOrder(b, c, key), RowOrder(a, c, key))
    ensures RowOrder(a, b, key) == Equal ==> a.uid == b.uid
  {
    ColumnOrderLaws(a, b, c, key);
    NaturalOrderLaws(a.name, b.name, c.name);
    StringOrderLaws(a.uid, b.uid, c.uid);
    ThenChains(ColumnOrder(a, b, key), ColumnOrder(b, c, key), ColumnOrder(a, c, key),
               NaturalOrder(a.name, b.name), NaturalOrder(b.name, c.name), NaturalOrder(a.name, c.name));
    ThenChains(ColumnOrder(a, b, key).Then(NaturalOrder(a.name, b.name)),
               ColumnOrder(b, c, key).Then(NaturalOrder(b.name, c.name)),
               ColumnOrder(a, c, key).Then(NaturalOrder(a.name, c.name)),
               StringOrder(a.uid, b.uid), StringOrder(b.uid, c.uid), StringOrder(a.uid, c.uid));
  }

  /** For every column and direction: a total preorder that ties only equal keys. */
  lemma ItemOrderLaws(a: Item, b: Item, c: Item, q: Query)
    ensures ItemOrder(b, a, q) == ItemOrder(a, b, q).Reverse()
    ensures Chains(ItemOrder(a, b, q), ItemOrder(b, c, q), ItemOrder(a, c, q))
    ensures ItemOrder(a, b, q) == Equal ==> a.key == b.key
  {
    RowOrderLaws(a.row, b.row, c.row, q.sortKey);
    StringOrderLaws(a.key, b.key, c.key);
    var k := q.sortKey;
    ThenChains(RowOrder(a.row, b.row, k), RowOrder(b.row, c.row, k), RowOrder(a.row, c.row, k),
               StringOrder(a.key, b.key), StringOrder(b.key, c.key), StringOrder(a.key, c.key));
  }

  lemma OrderForIsPreorder(q: Query)
    ensures Preorder(OrderFor(q))
  {
    var cmp := OrderFor(q);
    forall a, b ensures cmp(b, a) == cmp(a, b).Reverse() {
      ItemOrderLaws(a, b, b, q);
    }
    forall a, b, c ensures Chains(cmp(a, b), cmp(b, c), cmp(a, c)) {
      ItemOrderLaws(a, b, c, q);
    }
  }

  // ---------------------------------------------------------------------------
  // What is shown
  // ---------------------------------------------------------------------------

  lemma {:induction false} FilteredCounts(items: seq<Item>, q: Query, x: Item)
    ensures multiset(Filtered(items, q))[x] == if Passes(x, q) then multiset(items)[x] else 0
  {
    if items != [] {
      FilteredCounts(items[..|items| - 1], q, x);
      assert items == items[..|items| - 1] + [items[|items| - 1]];
    }
  }

  /** What is shown is sorted, and holds every item that passes as often as it was given. */
  lemma ShownIsSortedSelection(items: seq<Item>, q: Query)
    ensures IsSorted(Shown(items, q), OrderFor(q))
    ensures forall x :: multiset(Shown(items, q))[x] == if Passes(x, q) then multiset(items)[x] else 0
  {
    OrderForIsPreorder(q);
    SortedByIsSorted(Filtered(items, q), OrderFor(q));
    forall x: Item ensures multiset(Shown(items, q))[x] == if Passes(x, q) then multiset(items)[x] else 0 {
      FilteredCounts(items, q, x);
    }
  }

  /** An item is shown if and only if it was given and each filter that is set lets it pass. */
  lemma ShownIff(items: seq<Item>, q: Query, x: Item)
    ensures x in Shown(items, q) <==>
      && x in items
      && (!q.onlyProblems || x.row.status == Error || x.row.status == Warn)
      && (q.status == None || q.status == Some(x.row.status))
      && (q.text == "" || Contains(q.lower(x.row.name), q.text))
  {
    ShownIsSortedSelection(items, q);
    assert x in Shown(items, q) <==> multiset(Shown(items, q))[x] > 0;
    assert x in items <==> multiset(items)[x] > 0;
  }

  /** No two items share a key. */
  ghost predicate KeyedOnce(items: multiset<Item>) {
    forall a, b | a in items && b in items && a.key == b.key :: a == b
  }

  lemma KeysDecide(items: multiset<Item>, q: Query)
    requires KeyedOnce(items)
    ensures Decides(OrderFor(q), items)
  {
    forall a: Item, b: Item | OrderFor(q)(a, b) == Equal ensures a.key == b.key {
      ItemOrderLaws(a, b, b, q);
    }
  }

  lemma SameSelection(v: seq<Item>, w: seq<Item>, items: seq<Item>, q: Query)
    requires forall x :: multiset(v)[x] == if Passes(x, q) then multiset(items)[x] else 0
    requires forall x :: multiset(w)[x] == if Passes(x, q) then multiset(items)[x] else 0
    requires KeyedOnce(multiset(items))
    ensures multiset(v) == multiset(w) && KeyedOnce(multiset(v))
  {
    forall x: Item ensures multiset(v)[x] == multiset(w)[x] && (x in multiset(v) ==> x in multiset(items)) {
      assert x in multiset(v) ==> multiset(v)[x] > 0;
    }
  }

  /** A sorted list of the same selection is the list that is shown. */
  lemma OnlyOneToShow(items: seq<Item>, q: Query, v: seq<Item>)
    requires KeyedOnce(multiset(items)) && IsSorted(v, OrderFor(q))
    requires forall x :: multiset(v)[x] == if Passes(x, q) then multiset(items)[x] else 0
    ensures v == Shown(items, q)
  {
    var w := Shown(items, q);
    ShownIsSortedSelection(items, q);
    SameSelection(v, w, items, q);
    OrderForIsPreorder(q);
    KeysDecide(multiset(v), q);
    OneSortedOrder(v, w, OrderFor(q));
  }

  /** The order in which the map yields its rows never shows. */
  lemma ShownIgnoresInputOrder(items: seq<Item>, others: seq<Item>, q: Query)
    requires multiset(items) == multiset(others) && KeyedOnce(multiset(items))
    ensures Shown(items, q) == Shown(others, q)
  {
    ShownIsSortedSelection(others, q);
    OnlyOneToShow(items, q, Shown(others, q));
  }

  /** Turning the direction round turns the list round. */
  lemma DescendingIsReversed(items: seq<Item>, q: Query)
    requires q.asc && KeyedOnce(multiset(items))
    ensures Shown(items, q.(asc := false)) == Reversed(Shown(items, q))
  {
    var d := q.(asc := false);
    var v := Shown(items, q);
    ShownIsSortedSelection(items, q);
    ReversedKeepsItems(v);
    assert forall x :: Passes(x, d) == Passes(x, q);
    forall a: Item, b: Item ensures OrderFor(d)(b, a) == OrderFor(q)(a, b) {
      ItemOrderLaws(a, b, b, q);
    }
    ReversedIsSorted(v, OrderFor(q), OrderFor(d));
    OnlyOneToShow(items, d, Reversed(v));
  }

  /** No item is shown above one it belongs below: by column, then by name, then by uid, then by key. */
  lemma ShownReadsInOrder(items: seq<Item>, q: Query, i: nat, j: nat)
    requires q.asc && i < j < |Shown(items, q)|
    ensures var a, b := Shown(items, q)[i], Shown(items, q)[j];
      var column, name := ColumnOrder(a.row, b.row, q.sortKey), NaturalOrder(a.row.name, b.row.name);
      && column != Greater
      && (column == Equal ==> name != Greater)
      && (column == Equal && name == Equal ==> StringOrder(a.row.uid, b.row.uid) != Greater)
      && (column == Equal && name == Equal && a.row.uid == b.row.uid ==> StringOrder(a.key, b.key) != Greater)
  {
    ShownIsSortedSelection(items, q);
    var a, b := Shown(items, q)[i], Shown(items, q)[j];
    assert OrderFor(q)(a, b) != Greater;
    StringOrderLaws(a.row.uid, b.row.uid, b.row.uid);
  }

  /** One text comes before another: it is its start, or the first difference is a smaller code point. */
  ghost predicate ComesBefore(a: string, b: string) {
    exists n: nat | n <= |a| && n < |b| && a[..n] == b[..n] :: n == |a| || a[n] as int < b[n] as int
  }

  lemma {:induction false} StringsByCodePoint(a: string, b: string)
    ensures StringOrder(a, b) == Less <==> ComesBefore(a, b)
  {
    if a == [] || b == [] {
      if b != [] { assert a[..0] == b[..0]; }
    } else {
      StringsByCodePoint(a[1..], b[1..]);
      if ComesBefore(a[1..], b[1..]) && a[0] == b[0] {
        var n: nat :| n <= |a[1..]| && n < |b[1..]| && a[1..][..n] == b[1..][..n]
          && (n == |a[1..]| || a[1..][n] as int < b[1..][n] as int);
        assert a[..n + 1] == [a[0]] + a[1..][..n] && b[..n + 1] == [b[0]] + b[1..][..n];
      }
      if ComesBefore(a, b) {
        var n: nat :| n <= |a| && n < |b| && a[..n] == b[..n] && (n == |a| || a[n] as int < b[n] as int);
        if n > 0 {
          assert a[0] == a[..n][0] == b[..n][0] == b[0];
          assert a[1..][..n - 1] == a[..n][1..] && b[1..][..n - 1] == b[..n][1..];
        }
      }
      if StringOrder(a, b) == Less && a[0] != b[0] { assert a[..0] == b[..0]; }
    }
  }

  /** What the columns mean down an ascending list: namespaces in natural order, older rows first, those of no age before. */
  lemma ColumnReadsInOrder(items: seq<Item>, q: Query, i: nat, j: nat)
    requires q.asc && i < j < |Shown(items, q)|
    ensures var a, b := Shown(items, q)[i].row, Shown(items, q)[j].row;
      match q.sortKey
      case ByNamespace =>
        NaturalOrder(if a.namespace.Some? then a.namespace.value else "",
                     if b.namespace.Some? then b.namespace.value else "") != Greater
      case ByName => NaturalOrder(a.name, b.name) != Greater
      case ByAge => a.created.None? || (b.created.Some? && !ComesBefore(b.created.value, a.created.value))
  {
    ShownReadsInOrder(items, q, i, j);
    var a, b := Shown(items, q)[i].row, Shown(items, q)[j].row;
    if a.created.Some? && b.created.Some? {
      StringsByCodePoint(b.created.value, a.created.value);
      StringOrderLaws(a.created.value, b.created.value, b.created.value);
    }
  }

  /** Rows keyed by their uid: the key adds nothing to the comparison of the rows. */
  lemma UidKeysAddNothing(a: Row, b: Row, q: Query)
    ensures ItemOrder(Item(a.uid, a), Item(b.uid, b), q)
         == (if q.asc then RowOrder(a, b, q.sortKey) else RowOrder(a, b, q.sortKey).Reverse())
  {
    RowOrderLaws(a, b, b, q.sortKey);
    StringOrderLaws(a.uid, b.uid, b.uid);
  }
}
