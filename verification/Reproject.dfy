/**
 The second writer of the row cache: every cached object is projected again, with fresh
 metrics say, and the rows that come out different are written and broadcast.
 */
module Reproject {
  import opened Wrappers
  import opened Rows

  type Project<!O> = (O, Row) -> Row

  /** All rows after projecting the objects of the given uids again. */
  function NewRows<O>(rows: View, objects: map<string, O>, project: Project<O>, uids: set<string>): View {
    map u | u in rows :: if u in uids && u in objects then project(objects[u], rows[u]) else rows[u]
  }

  /** The uids whose row is another one now. */
  predicate Differs(rows: View, newRows: View, uid: string) {
    uid in rows && uid in newRows && newRows[uid] != rows[uid]
  }

  function Announced(newRows: View, uids: seq<string>): seq<WatchEvent>
    requires forall u <- uids :: u in newRows
  {
    if uids == [] then []
    else
      assert uids[|uids| - 1] in uids;
      Announced(newRows, uids[..|uids| - 1]) + [Applied(newRows[uids[|uids| - 1]])]
  }

  predicate Distinct(uids: seq<string>) {
    forall i, j | 0 <= i < j < |uids| :: uids[i] != uids[j]
  }

  function Overwritten(rows: View, newRows: View, uids: seq<string>): View
    requires forall u <- uids :: u in newRows
  {
    map u | u in rows :: if u in uids then newRows[u] else rows[u]
  }

  /** Whoever had the old rows and folds the announcements has overwritten exactly the announced ones. */
  lemma {:induction false} AnnouncementsAddUp(rows: View, newRows: View, uids: seq<string>)
    requires forall u <- uids :: u in rows && u in newRows && newRows[u].uid == u
    ensures Fold(rows, Announced(newRows, uids)) == Overwritten(rows, newRows, uids)
  {
    if uids == [] {
      assert Overwritten(rows, newRows, uids) == rows;
    } else {
      var init, last := uids[..|uids| - 1], uids[|uids| - 1];
      assert last in uids && uids == init + [last];
      AnnouncementsAddUp(rows, newRows, init);
      FoldAppend(rows, Announced(newRows, init), Applied(newRows[last]));
      assert Overwritten(rows, newRows, init)[last := newRows[last]] == Overwritten(rows, newRows, uids);
    }
  }

  lemma OneMoreRow<O>(rows: View, objects: map<string, O>, project: Project<O>, seen: set<string>, uid: string)
    requires uid in objects && uid !in seen
    ensures var m := NewRows(rows, objects, project, seen);
      NewRows(rows, objects, project, seen + {uid})
      == if uid in rows then m[uid := project(objects[uid], rows[uid])] else m
  {
  }

  class Entry<O> {
    var rows: View
    var sent: seq<WatchEvent>

    constructor (rows: View)
      ensures this.rows == rows && sent == []
    {
      this.rows, sent := rows, [];
    }

    /**
     No uid comes or goes, the rows are the new projections, and exactly the changed
     ones are broadcast, each once.
     */
    method ReprojectEntry(objects: map<string, O>, project: Project<O>) returns (ghost changed: seq<string>)
      modifies this
      ensures rows == NewRows(old(rows), objects, project, objects.Keys)
      ensures rows.Keys == old(rows).Keys
      ensures Distinct(changed) && forall u :: u in changed <==> Differs(old(rows), rows, u)
      ensures forall u <- changed :: u in rows
      ensures sent == old(sent) + Announced(rows, changed)
    {
      ghost var before, log := rows, sent;
      ghost var after := NewRows(rows, objects, project, objects.Keys);
      changed := [];
      var left := objects.Keys;
      while left != {}
        invariant left <= objects.Keys && rows == NewRows(before, objects, project, objects.Keys - left)
        invariant Distinct(changed)
        invariant forall u :: u in changed <==> u !in left && Differs(before, after, u)
        invariant sent == log + Announced(after, changed)
      {
        var uid :| uid in left;
        OneMoreRow(before, objects, project, objects.Keys - left, uid);
        assert objects.Keys - left + {uid} == objects.Keys - (left - {uid});
        left := left - {uid};
        if uid in rows {
          var newRow := project(objects[uid], rows[uid]);
          assert newRow == after[uid];
          if rows[uid] != newRow {
            rows := rows[uid := newRow];
            sent := sent + [Applied(newRow)];
            assert (changed + [uid])[..|changed|] == changed;
            changed := changed + [uid];
          }
        }
      }
      assert objects.Keys - left == objects.Keys;
    }
  }

  /** The announced rows bring a subscriber's copy up to date, provided a projection keeps the uid. */
  lemma SubscriberStaysInStep(rows: View, newRows: View, changed: seq<string>)
    requires rows.Keys == newRows.Keys && forall u <- newRows :: newRows[u].uid == u
    requires forall u <- changed :: u in newRows
    requires forall u :: u in changed <==> Differs(rows, newRows, u)
    ensures Fold(rows, Announced(newRows, changed)) == newRows
  {
    assert forall u <- changed :: Differs(rows, newRows, u);
    AnnouncementsAddUp(rows, newRows, changed);
    assert forall u :: u in rows.Keys <==> u in newRows.Keys;
    forall u | u in rows ensures Overwritten(rows, newRows, changed)[u] == newRows[u] {
      assert u in newRows && (u in changed <==> Differs(rows, newRows, u));
    }
  }
}
