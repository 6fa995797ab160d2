/**
 The live table of one kind. Removals are animated: a deleted row stays in
 `rows`, marked in `removing`, until a timer (or the end of its transition)
 drops it. The module shows that this refines a plain map of rows.
 */
module RowTable {
  import opened Wrappers
  import opened Rows

  datatype Timer = ClearEntering(uid: string) | Remove(uid: string)

  /** The table's signals, and the timeouts that have been scheduled and not fired. */
  datatype Table = Table(rows: View, entering: set<string>, removing: set<string>, timers: multiset<Timer>)

  const EMPTY := Table(map[], {}, {}, multiset{})

  /** What a reader of the table should see: the rows that are not on their way out. */
  function Visible(t: Table): View {
    t.rows - t.removing
  }

  function OnEvent(t: Table, e: WatchEvent): Table {
    match e
    case Snapshot(_, rows) => t.(rows := RowsOf(rows), entering := {}, removing := {})
    case Applied(row) =>
      var t1 := t.(rows := t.rows[row.uid := row], removing := t.removing - {row.uid});
      if row.uid in t.rows then t1
      else t1.(entering := t.entering + {row.uid}, timers := t.timers + multiset{ClearEntering(row.uid)})
    case Deleted(uid) => t.(removing := t.removing + {uid}, timers := t.timers + multiset{Remove(uid)})
    case Forbidden(_) => t
    case Failed(_) => t
  }

  /** Drop the row only if it is still marked: it may have been created again. */
  function FinishRemoval(t: Table, uid: string): Table {
    if uid in t.removing then t.(rows := t.rows - {uid}, removing := t.removing - {uid}) else t
  }

  /** A scheduled timeout fires and is gone. */
  function Fire(t: Table, timer: Timer): Table
    requires timer in t.timers
  {
    var t1 := t.(timers := t.timers - multiset{timer});
    match timer
    case ClearEntering(uid) => t1.(entering := t.entering - {uid})
    case Remove(uid) => FinishRemoval(t1, uid)
  }

  /** One event means for the visible rows what it means for a plain map. */
  lemma EventRefinesFold(t: Table, e: WatchEvent)
    ensures Visible(OnEvent(t, e)) == FoldEvent(Visible(t), e)
  {
  }

  /** Timers and transition ends never change what is visible, however often they run. */
  lemma RemovalIsInvisible(t: Table, uid: string)
    ensures Visible(FinishRemoval(t, uid)) == Visible(t)
    ensures FinishRemoval(FinishRemoval(t, uid), uid) == FinishRemoval(t, uid)
  {
  }

  /** Everything still marked has a timer coming for it. */
  predicate Scheduled(t: Table) {
    && (forall uid <- t.removing :: Remove(uid) in t.timers)
    && (forall uid <- t.entering :: ClearEntering(uid) in t.timers)
  }

  datatype Op = Event(event: WatchEvent) | Tick(timer: Timer) | TransitionEnd(uid: string)

  ghost predicate Runs(t: Table, ops: seq<Op>)
    decreases |ops|
  {
    ops == [] || ((ops[0].Tick? ==> ops[0].timer in t.timers) && Runs(Do(t, ops[0]), ops[1..]))
  }

  function Do(t: Table, op: Op): Table
    requires op.Tick? ==> op.timer in t.timers
  {
    match op
    case Event(e) => OnEvent(t, e)
    case Tick(timer) => Fire(t, timer)
    case TransitionEnd(uid) => FinishRemoval(t, uid)
  }

  ghost function After(t: Table, ops: seq<Op>): Table
    requires Runs(t, ops)
    decreases |ops|
  {
    if ops == [] then t else After(Do(t, ops[0]), ops[1..])
  }

  function EventsIn(ops: seq<Op>): seq<WatchEvent> {
    if ops == [] then []
    else (if ops[0].Event? then [ops[0].event] else []) + EventsIn(ops[1..])
  }

  lemma EventKeepsScheduled(t: Table, e: WatchEvent)
    requires Scheduled(t)
    ensures Scheduled(OnEvent(t, e))
  {
  }

  lemma FireKeepsScheduled(t: Table, timer: Timer)
    requires Scheduled(t) && timer in t.timers
    ensures Scheduled(Fire(t, timer))
  {
    var left := t.timers - multiset{timer};
    assert forall other | other in t.timers && other != timer :: other in left;
  }

  lemma DoKeepsScheduled(t: Table, op: Op)
    requires Scheduled(t) && (op.Tick? ==> op.timer in t.timers)
    ensures Scheduled(Do(t, op))
  {
    match op
    case Event(e) => EventKeepsScheduled(t, e);
    case Tick(timer) => FireKeepsScheduled(t, timer);
    case TransitionEnd(_) =>
  }

  /**
   Any interleaving of events, timers and transition ends leaves the visible rows
   equal to the plain fold of the events alone.
   */
  lemma {:induction false} TableRefinesFold(t: Table, ops: seq<Op>)
    requires Runs(t, ops) && Scheduled(t)
    ensures Visible(After(t, ops)) == Fold(Visible(t), EventsIn(ops))
    ensures Scheduled(After(t, ops))
    decreases |ops|
  {
    if ops != [] {
      var op := ops[0];
      DoKeepsScheduled(t, op);
      TableRefinesFold(Do(t, op), ops[1..]);
      match op
      case Event(e) =>
        EventRefinesFold(t, e);
        FoldFirst(Visible(t), EventsIn(ops));
        assert EventsIn(ops)[1..] == EventsIn(ops[1..]);
      case Tick(timer) =>
        if timer.Remove? { RemovalIsInvisible(t.(timers := t.timers - multiset{timer}), timer.uid); }
        assert EventsIn(ops) == EventsIn(ops[1..]);
      case TransitionEnd(uid) =>
        RemovalIsInvisible(t, uid);
        assert EventsIn(ops) == EventsIn(ops[1..]);
    }
  }

  /** Once every timer has fired nothing is left half-removed: the buffer is the plain map. */
  lemma SettledTableIsPlainMap(ops: seq<Op>)
    requires Runs(EMPTY, ops) && After(EMPTY, ops).timers == multiset{}
    ensures After(EMPTY, ops).rows == Fold(map[], EventsIn(ops))
    ensures After(EMPTY, ops).entering == {}
  {
    TableRefinesFold(EMPTY, ops);
    var end := After(EMPTY, ops);
    assert Visible(EMPTY) == map[];
    assert forall uid :: Remove(uid) !in end.timers && ClearEntering(uid) !in end.timers;
    assert end.removing == {} && end.entering == {};
    assert Visible(end) == end.rows;
  }

  /** Whatever timers are left, they can all fire, and that takes no event. */
  lemma {:induction false} TimersCanFire(t: Table) returns (ops: seq<Op>)
    ensures Runs(t, ops) && After(t, ops).timers == multiset{} && EventsIn(ops) == []
    decreases |t.timers|
  {
    if t.timers == multiset{} {
      ops := [];
    } else {
      var timer :| timer in t.timers;
      assert t.timers == (t.timers - multiset{timer}) + multiset{timer};
      var rest := TimersCanFire(Do(t, Tick(timer)));
      ops := [Tick(timer)] + rest;
      assert ops[1..] == rest;
    }
  }

  // ---------------------------------------------------------------------------
  // Which rows are shown as new
  // ---------------------------------------------------------------------------

  lemma {:induction false} PrefixRuns(t: Table, ops: seq<Op>, n: nat)
    requires Runs(t, ops) && n < |ops|
    ensures Runs(t, ops[..n]) && Runs(t, ops[..n + 1])
    ensures ops[n].Tick? ==> ops[n].timer in After(t, ops[..n]).timers
    ensures After(t, ops[..n + 1]) == Do(After(t, ops[..n]), ops[n])
    decreases n
  {
    if n == 0 {
      assert ops[..1][1..] == [];
    } else {
      var next, rest := Do(t, ops[0]), ops[1..];
      PrefixRuns(next, rest, n - 1);
      assert ops[..n][1..] == rest[..n - 1] && ops[..n + 1][1..] == rest[..n];
    }
  }

  /** At this operation a row arrives that the table does not have, not even on its way out. */
  ghost predicate ArrivesAt(ops: seq<Op>, i: nat, uid: string)
    requires i < |ops| && Runs(EMPTY, ops)
  {
    PrefixRuns(EMPTY, ops, i);
    ops[i].Event? && ops[i].event.Applied? && ops[i].event.row.uid == uid && uid !in After(EMPTY, ops[..i]).rows
  }

  /** A snapshot shows nothing as new, and the timer of a new row ends its being new. */
  predicate Settles(op: Op, uid: string) {
    (op.Event? && op.event.Snapshot?) || op == Tick(ClearEntering(uid))
  }

  ghost predicate NewSince(ops: seq<Op>, n: nat, uid: string)
    requires n <= |ops| && Runs(EMPTY, ops)
  {
    exists i: nat | i < n :: ArrivesAt(ops, i, uid) && forall k: nat | i < k < n :: !Settles(ops[k], uid)
  }

  lemma NewOneMore(ops: seq<Op>, n: nat, uid: string)
    requires n < |ops| && Runs(EMPTY, ops)
    ensures NewSince(ops, n + 1, uid) <==> ArrivesAt(ops, n, uid) || (NewSince(ops, n, uid) && !Settles(ops[n], uid))
  {
    if NewSince(ops, n, uid) && !Settles(ops[n], uid) {
      var i: nat :| i < n && ArrivesAt(ops, i, uid) && forall k: nat | i < k < n :: !Settles(ops[k], uid);
      assert forall k: nat | i < k < n + 1 :: !Settles(ops[k], uid);
    }
  }

  lemma {:induction false} NewUpTo(ops: seq<Op>, n: nat, uid: string)
    requires n <= |ops| && Runs(EMPTY, ops)
    ensures Runs(EMPTY, ops[..n]) && (uid in After(EMPTY, ops[..n]).entering <==> NewSince(ops, n, uid))
  {
    if n > 0 {
      NewUpTo(ops, n - 1, uid);
      PrefixRuns(EMPTY, ops, n - 1);
      NewOneMore(ops, n - 1, uid);
    }
  }

  /** A row is shown as new if and only if it arrived, and neither its timer nor a snapshot has come since. */
  lemma EnteringIff(ops: seq<Op>, uid: string)
    requires Runs(EMPTY, ops)
    ensures uid in After(EMPTY, ops).entering <==> NewSince(ops, |ops|, uid)
  {
    NewUpTo(ops, |ops|, uid);
    assert ops[..|ops|] == ops;
  }

  /** The signals themselves, updated in place. */
  class LiveTable {
    var rows: View
    var entering: set<string>
    var removing: set<string>
    ghost var timers: multiset<Timer>

    ghost function State(): Table
      reads this
    {
      Table(rows, entering, removing, timers)
    }

    constructor ()
      ensures State() == EMPTY
    {
      rows, entering, removing, timers := map[], {}, {}, multiset{};
    }

    static method Collect(snapshot: seq<Row>) returns (collected: View)
      ensures collected == RowsOf(snapshot)
    {
      collected := map[];
      for i := 0 to |snapshot|
        invariant collected == RowsOf(snapshot[..i])
      {
        assert snapshot[..i + 1][..i] == snapshot[..i];
        collected := collected[snapshot[i].uid := snapshot[i]];
      }
      assert snapshot[..|snapshot|] == snapshot;
    }

    method ApplyEvent(e: WatchEvent) returns (scheduled: seq<Timer>)
      modifies this
      ensures State() == OnEvent(old(State()), e)
      ensures timers == old(timers) + multiset(scheduled)
      ensures Visible(State()) == FoldEvent(old(Visible(State())), e)
    {
      EventRefinesFold(State(), e);
      scheduled := [];
      match e {
        case Snapshot(_, snapshot) =>
          entering := {};
          removing := {};
          rows := Collect(snapshot);
        case Applied(row) =>
          var isNew := row.uid !in rows;
          rows := rows[row.uid := row];
          removing := removing - {row.uid};
          if isNew {
            entering := entering + {row.uid};
            scheduled := [ClearEntering(row.uid)];
          }
        case Deleted(uid) =>
          removing := removing + {uid};
          scheduled := [Remove(uid)];
        case Forbidden(_) =>
        case Failed(_) =>
      }
      timers := timers + multiset(scheduled);
    }

    method RunRemovalTimer(uid: string)
      modifies this
      ensures State() == FinishRemoval(old(State()), uid)
      ensures Visible(State()) == old(Visible(State()))
    {
      RemovalIsInvisible(State(), uid);
      if uid in removing {
        rows := rows - {uid};
        removing := removing - {uid};
      }
    }
  }
}
