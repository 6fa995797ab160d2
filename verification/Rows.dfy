/**
 Projected table rows, the watch events that keep a copy of them live, and what
 a stream of events means for a plain map of rows.
 */
module Rows {
  import opened Wrappers

  datatype RowStatus = Ok | Pending | Warn | Error | Done | Unknown

  datatype Row = Row(
    uid: string,
    namespace: Option<string>,
    name: string,
    created: Option<string>,
    cells: seq<string>,
    status: RowStatus)

  datatype WatchEvent =
    | Snapshot(columns: seq<string>, rows: seq<Row>)
    | Applied(row: Row)
    | Deleted(uid: string)
    | Forbidden(message: string)
    | Failed(message: string)

  type View = map<string, Row>

  /** Collect rows by uid; a later row with the same uid wins. */
  function RowsOf(rows: seq<Row>): View {
    if rows == [] then map[]
    else RowsOf(rows[..|rows| - 1])[rows[|rows| - 1].uid := rows[|rows| - 1]]
  }

  function FoldEvent(view: View, e: WatchEvent): View {
    match e
    case Snapshot(_, rows) => RowsOf(rows)
    case Applied(row) => view[row.uid := row]
    case Deleted(uid) => view - {uid}
    case Forbidden(_) => view
    case Failed(_) => view
  }

  /** The plain reading of an event stream: what a client without animations would hold. */
  function Fold(view: View, es: seq<WatchEvent>): View {
    if es == [] then view else FoldEvent(Fold(view, es[..|es| - 1]), es[|es| - 1])
  }

  lemma FoldAppend(view: View, es: seq<WatchEvent>, e: WatchEvent)
    ensures Fold(view, es + [e]) == FoldEvent(Fold(view, es), e)
  {
    assert (es + [e])[..|es|] == es;
  }

  lemma {:induction false} FoldConcat(view: View, a: seq<WatchEvent>, b: seq<WatchEvent>)
    ensures Fold(view, a + b) == Fold(Fold(view, a), b)
  {
    if b == [] {
      assert a + b == a;
    } else {
      var init := b[..|b| - 1];
      FoldConcat(view, a, init);
      assert (a + b)[..|a + b| - 1] == a + init;
    }
  }

  lemma FoldFirst(view: View, es: seq<WatchEvent>)
    requires es != []
    ensures Fold(view, es) == Fold(FoldEvent(view, es[0]), es[1..])
  {
    assert es == [es[0]] + es[1..];
    FoldConcat(view, [es[0]], es[1..]);
    assert [es[0]][..0] == [];
  }

  function Lookup(view: View, uid: string): Option<Row> {
    if uid in view then Some(view[uid]) else None
  }

  /** What one event decides about one uid, if anything. */
  function Says(e: WatchEvent, uid: string): Option<Option<Row>> {
    match e
    case Snapshot(_, rows) => Some(Lookup(RowsOf(rows), uid))
    case Applied(row) => if row.uid == uid then Some(Some(row)) else None
    case Deleted(gone) => if gone == uid then Some(None) else None
    case Forbidden(_) => None
    case Failed(_) => None
  }

  /** The last event in the stream that decides the uid has the final word. */
  function FinalWord(es: seq<WatchEvent>, uid: string): Option<Option<Row>> {
    if es == [] then None
    else match Says(es[|es| - 1], uid)
      case Some(word) => Some(word)
      case None => FinalWord(es[..|es| - 1], uid)
  }

  lemma {:induction false} FoldIsFinalWord(view: View, es: seq<WatchEvent>, uid: string)
    ensures Lookup(Fold(view, es), uid)
         == match FinalWord(es, uid) case Some(word) => word case None => Lookup(view, uid)
  {
    if es != [] {
      FoldIsFinalWord(view, es[..|es| - 1], uid);
    }
  }

  lemma SameLookups(a: View, b: View)
    requires forall uid :: Lookup(a, uid) == Lookup(b, uid)
    ensures a == b
  {
    assert forall uid :: uid in a <==> Lookup(a, uid).Some?;
    assert forall uid :: uid in b <==> Lookup(b, uid).Some?;
    assert a.Keys == b.Keys;
    assert forall uid <- a :: Lookup(a, uid) == Some(a[uid]);
    assert forall uid <- b :: Lookup(b, uid) == Some(b[uid]);
  }

  /**
   Absorption: replaying events that are already part of a copy changes nothing.
   This is what lets a subscriber take its receiver before its snapshot.
   */
  lemma ReplayIsAbsorbed(view: View, es: seq<WatchEvent>)
    ensures Fold(Fold(view, es), es) == Fold(view, es)
  {
    var once := Fold(view, es);
    var twice := Fold(once, es);
    forall uid ensures Lookup(twice, uid) == Lookup(once, uid) {
      FoldIsFinalWord(view, es, uid);
      FoldIsFinalWord(once, es, uid);
    }
    SameLookups(twice, once);
  }
}
