/**
 Search results merge many kinds into one table keyed by kind key and uid. The
 module shows that each kind's share of the table is the plain fold of that
 kind's own events, whatever the other kinds and the timers do in between.
 */
module MergedTable {
  import opened Wrappers
  import opened Rows

  datatype MergedRow = MergedRow(kind: string, row: Row)

  datatype Transition = ClearEntering(key: string) | Remove(key: string)

  datatype Merged = Merged(
    rows: map<string, MergedRow>,
    entering: set<string>,
    removing: set<string>)

  const EMPTY := Merged(map[], {}, {})

  function MakeKey(group: string, version: string, kind: string): string {
    group + "/" + version + "/" + kind
  }

  predicate SlashFree(s: string) {
    '/' !in s
  }

  /** The kind keys the program makes: Kubernetes names contain no slash. */
  ghost predicate IsKindKey(key: string) {
    exists group, version, kind ::
      SlashFree(group) && SlashFree(version) && SlashFree(kind) && key == MakeKey(group, version, kind)
  }

  function MergedKey(kind: string, uid: string): string {
    kind + "/" + uid
  }

  lemma FirstPart(x: string, y: string, rest: string, tail: string)
    requires SlashFree(x) && SlashFree(y)
    requires x + "/" + rest <= y + "/" + tail
    ensures x == y && rest <= tail
  {
    var a, b := x + "/" + rest, y + "/" + tail;
    assert a[|x|] == '/' && b[|y|] == '/';
    assert forall i | 0 <= i < |a| :: a[i] == b[i];
    assert forall i | 0 <= i < |y| :: b[i] == y[i] && y[i] != '/';
    assert forall i | 0 <= i < |x| :: a[i] == x[i] && x[i] != '/';
    assert |x| == |y|;
    assert x == a[..|x|] && y == b[..|x|];
    assert rest == a[|x| + 1..] && tail == b[|x| + 1..];
  }

  lemma KeyByParts(group: string, version: string, kind: string, uid: string)
    ensures MergedKey(MakeKey(group, version, kind), uid) == group + "/" + (version + "/" + (kind + "/" + uid))
  {
    var name := kind + "/" + uid;
    assert MergedKey(MakeKey(group, version, kind), uid) == (group + "/" + version + "/") + name;
    assert (group + "/" + version + "/") + name == (group + "/") + ((version + "/") + name);
  }

  /** No kind's key prefix can reach into another kind's rows. */
  lemma PrefixesDoNotOverlap(k1: string, k2: string, uid: string)
    requires IsKindKey(k1) && IsKindKey(k2)
    requires k1 + "/" <= MergedKey(k2, uid)
    ensures k1 == k2
  {
    var g1, v1, n1 :| SlashFree(g1) && SlashFree(v1) && SlashFree(n1) && k1 == MakeKey(g1, v1, n1);
    var g2, v2, n2 :| SlashFree(g2) && SlashFree(v2) && SlashFree(n2) && k2 == MakeKey(g2, v2, n2);
    KeyByParts(g1, v1, n1, "");
    KeyByParts(g2, v2, n2, uid);
    assert MergedKey(k1, "") == k1 + "/";
    var name1, name2 := n1 + "/" + "", n2 + "/" + uid;
    var path1, path2 := v1 + "/" + name1, v2 + "/" + name2;
    FirstPart(g1, g2, path1, path2);
    FirstPart(v1, v2, name1, name2);
    FirstPart(n1, n2, "", uid);
  }

  lemma MergedKeysAreInjective(k1: string, uid1: string, k2: string, uid2: string)
    requires IsKindKey(k1) && IsKindKey(k2)
    requires MergedKey(k1, uid1) == MergedKey(k2, uid2)
    ensures k1 == k2 && uid1 == uid2
  {
    assert k1 + "/" <= MergedKey(k1, uid1);
    PrefixesDoNotOverlap(k1, k2, uid2);
    assert uid1 == MergedKey(k1, uid1)[|k1| + 1..];
    assert uid2 == MergedKey(k2, uid2)[|k2| + 1..];
  }

  // ---------------------------------------------------------------------------
  // The reducer
  // ---------------------------------------------------------------------------

  function Inserted(base: map<string, MergedRow>, kind: string, rows: seq<Row>): map<string, MergedRow> {
    if rows == [] then base
    else
      var last := rows[|rows| - 1];
      Inserted(base, kind, rows[..|rows| - 1])[MergedKey(kind, last.uid) := MergedRow(kind, last)]
  }

  function Others<T>(m: map<string, T>, kind: string): map<string, T> {
    map key | key in m && !(kind + "/" <= key) :: m[key]
  }

  function OtherKeys(s: set<string>, kind: string): set<string> {
    set key | key in s && !(kind + "/" <= key)
  }

  function Reduce(m: Merged, kind: string, e: WatchEvent): (r: (Merged, seq<Transition>)) {
    match e
    case Snapshot(_, rows) =>
      (Merged(Inserted(Others(m.rows, kind), kind, rows),
              OtherKeys(m.entering, kind), OtherKeys(m.removing, kind)), [])
    case Applied(row) =>
      var key := MergedKey(kind, row.uid);
      var m1 := m.(rows := m.rows[key := MergedRow(kind, row)], removing := m.removing - {key});
      if key in m.rows then (m1, [])
      else (m1.(entering := m.entering + {key}), [ClearEntering(key)])
    case Deleted(uid) =>
      var key := MergedKey(kind, uid);
      if key in m.rows then (m.(removing := m.removing + {key}), [Remove(key)]) else (m, [])
    case Forbidden(_) => (m, [])
    case Failed(_) => (m, [])
  }

  function FinishRemoval(m: Merged, key: string): Merged {
    if key in m.removing then m.(rows := m.rows - {key}, removing := m.removing - {key}) else m
  }

  /** What the merged table shows for one uid of one kind. */
  function Shown(m: Merged, kind: string, uid: string): Option<MergedRow> {
    var key := MergedKey(kind, uid);
    if key in m.rows && key !in m.removing then Some(m.rows[key]) else None
  }

  /** The rows of a snapshot land under their own kind and leave every other kind alone. */
  lemma {:induction false} InsertedRows(base: map<string, MergedRow>, kind: string, rows: seq<Row>, k: string, uid: string)
    requires IsKindKey(kind) && IsKindKey(k)
    ensures MergedKey(k, uid) in Inserted(base, kind, rows)
       <==> MergedKey(k, uid) in base || (k == kind && uid in RowsOf(rows))
    ensures MergedKey(k, uid) in Inserted(base, kind, rows)
       ==> Inserted(base, kind, rows)[MergedKey(k, uid)]
           == if k == kind && uid in RowsOf(rows) then MergedRow(kind, RowsOf(rows)[uid]) else base[MergedKey(k, uid)]
  {
    if rows != [] {
      var last := rows[|rows| - 1];
      InsertedRows(base, kind, rows[..|rows| - 1], k, uid);
      if MergedKey(k, uid) == MergedKey(kind, last.uid) {
        MergedKeysAreInjective(k, uid, kind, last.uid);
      }
    }
  }

  function WithKind(kind: string, row: Option<Row>): Option<MergedRow> {
    match row case None => None case Some(r) => Some(MergedRow(kind, r))
  }

  /**
   One event decides, for its own kind, exactly what it decides for a plain map,
   and nothing at all for any other kind.
   */
  lemma EventTouchesOnlyItsKind(m: Merged, kind: string, e: WatchEvent, k: string, uid: string)
    requires IsKindKey(kind) && IsKindKey(k)
    ensures Shown(Reduce(m, kind, e).0, k, uid)
         == if k != kind then Shown(m, k, uid)
            else match Says(e, uid) case Some(word) => WithKind(kind, word) case None => Shown(m, k, uid)
  {
    var key := MergedKey(k, uid);
    match e
    case Snapshot(_, rows) =>
      InsertedRows(Others(m.rows, kind), kind, rows, k, uid);
      if k == kind {
        assert kind + "/" <= key;
      } else if kind + "/" <= key {
        PrefixesDoNotOverlap(kind, k, uid);
      }
    case Applied(row) =>
      if key == MergedKey(kind, row.uid) { MergedKeysAreInjective(k, uid, kind, row.uid); }
    case Deleted(gone) =>
      if key == MergedKey(kind, gone) { MergedKeysAreInjective(k, uid, kind, gone); }
    case Forbidden(_) =>
    case Failed(_) =>
  }

  lemma RemovalIsInvisible(m: Merged, key: string, k: string, uid: string)
    ensures Shown(FinishRemoval(m, key), k, uid) == Shown(m, k, uid)
  {
  }

  // ---------------------------------------------------------------------------
  // Interleaved runs
  // ---------------------------------------------------------------------------

  /** `TransitionEnd` is the exit animation's end, which finishes a removal ahead of its timer. */
  datatype Op = Event(kind: string, event: WatchEvent) | Tick(transition: Transition) | TransitionEnd(key: string)

  function Do(m: Merged, op: Op): Merged {
    match op
    case Event(kind, e) => Reduce(m, kind, e).0
    case Tick(ClearEntering(key)) => m.(entering := m.entering - {key})
    case Tick(Remove(key)) => FinishRemoval(m, key)
    case TransitionEnd(key) => FinishRemoval(m, key)
  }

  function After(m: Merged, ops: seq<Op>): Merged {
    if ops == [] then m else Do(After(m, ops[..|ops| - 1]), ops[|ops| - 1])
  }

  function EventsOf(ops: seq<Op>, kind: string): seq<WatchEvent> {
    if ops == [] then []
    else
      var last := ops[|ops| - 1];
      EventsOf(ops[..|ops| - 1], kind) + (if last.Event? && last.kind == kind then [last.event] else [])
  }

  lemma FoldSays(view: View, e: WatchEvent, uid: string)
    ensures Lookup(FoldEvent(view, e), uid)
         == match Says(e, uid) case Some(word) => word case None => Lookup(view, uid)
  {
  }

  /**
   The merged table restricted to one kind is the plain fold of that kind's events,
   for every interleaving with other kinds and with timers firing at any time.
   */
  lemma {:induction false} KindsDoNotInterfere(ops: seq<Op>, k: string, uid: string)
    requires IsKindKey(k)
    requires forall op <- ops :: op.Event? ==> IsKindKey(op.kind)
    ensures Shown(After(EMPTY, ops), k, uid) == WithKind(k, Lookup(Fold(map[], EventsOf(ops, k)), uid))
  {
    if ops != [] {
      var init, last := ops[..|ops| - 1], ops[|ops| - 1];
      KindsDoNotInterfere(init, k, uid);
      var m := After(EMPTY, init);
      match last
      case Event(kind, e) =>
        EventTouchesOnlyItsKind(m, kind, e, k, uid);
        if kind == k {
          FoldAppend(map[], EventsOf(init, k), e);
          FoldSays(Fold(map[], EventsOf(init, k)), e, uid);
        } else {
          assert EventsOf(ops, k) == EventsOf(init, k);
        }
      case Tick(t) =>
        assert EventsOf(ops, k) == EventsOf(init, k);
        if t.Remove? { RemovalIsInvisible(m, t.key, k, uid); }
      case TransitionEnd(key) =>
        assert EventsOf(ops, k) == EventsOf(init, k);
        RemovalIsInvisible(m, key, k, uid);
    }
  }

  // ---------------------------------------------------------------------------
  // Once the timers have run
  // ---------------------------------------------------------------------------

  /** The timers still to fire after a run. */
  function Pending(ops: seq<Op>): multiset<Transition> {
    if ops == [] then multiset{}
    else
      var init, last := ops[..|ops| - 1], ops[|ops| - 1];
      match last
      case Event(kind, e) => Pending(init) + multiset(Reduce(After(EMPTY, init), kind, e).1)
      case Tick(t) => Pending(init) - multiset{t}
      case TransitionEnd(_) => Pending(init)
  }

  /** Everything still marked has a timer coming for it. */
  predicate Scheduled(m: Merged, pending: multiset<Transition>) {
    && (forall key <- m.entering :: ClearEntering(key) in pending)
    && (forall key <- m.removing :: Remove(key) in pending)
  }

  lemma EventKeepsScheduled(m: Merged, pending: multiset<Transition>, kind: string, e: WatchEvent)
    requires Scheduled(m, pending)
    ensures Scheduled(Reduce(m, kind, e).0, pending + multiset(Reduce(m, kind, e).1))
  {
  }

  lemma TickKeepsScheduled(m: Merged, pending: multiset<Transition>, t: Transition)
    requires Scheduled(m, pending)
    ensures Scheduled(Do(m, Tick(t)), pending - multiset{t})
  {
    assert forall other | other in pending && other != t :: other in pending - multiset{t};
  }

  lemma {:induction false} MarksAreScheduled(ops: seq<Op>)
    ensures Scheduled(After(EMPTY, ops), Pending(ops))
  {
    if ops != [] {
      var init, last := ops[..|ops| - 1], ops[|ops| - 1];
      var m := After(EMPTY, init);
      MarksAreScheduled(init);
      match last
      case Event(kind, e) => EventKeepsScheduled(m, Pending(init), kind, e);
      case Tick(t) => TickKeepsScheduled(m, Pending(init), t);
      case TransitionEnd(_) =>
    }
  }

  lemma OneTimerLess(ops: seq<Op>, t: Transition)
    requires t in Pending(ops)
    ensures Pending(ops + [Tick(t)]) == Pending(ops) - multiset{t}
    ensures |Pending(ops + [Tick(t)])| < |Pending(ops)|
  {
    assert (ops + [Tick(t)])[..|ops|] == ops;
    assert Pending(ops) == (Pending(ops) - multiset{t}) + multiset{t};
  }

  lemma Regroup(a: seq<Op>, b: seq<Op>, c: seq<Op>)
    ensures a + b + c == a + (b + c)
  {
  }

  predicate AllTicks(ops: seq<Op>) {
    forall op <- ops :: op.Tick?
  }

  /** Whatever timers are left, they can all fire. */
  lemma {:induction false} TimersCanFire(ops: seq<Op>) returns (ticks: seq<Op>)
    ensures Pending(ops + ticks) == multiset{} && AllTicks(ticks)
    decreases |Pending(ops)|
  {
    if Pending(ops) == multiset{} {
      ticks := [];
      assert ops + ticks == ops;
    } else {
      var t :| t in Pending(ops);
      OneTimerLess(ops, t);
      var rest := TimersCanFire(ops + [Tick(t)]);
      Regroup(ops, [Tick(t)], rest);
      ticks := [Tick(t)] + rest;
    }
  }

  lemma {:induction false} InsertedKeeps(base: map<string, MergedRow>, kind: string, rows: seq<Row>)
    ensures base.Keys <= Inserted(base, kind, rows).Keys
  {
    if rows != [] { InsertedKeeps(base, kind, rows[..|rows| - 1]); }
  }

  /** Only rows that are there are on their way out. */
  lemma {:induction false} RemovingRowsAreThere(ops: seq<Op>)
    ensures After(EMPTY, ops).removing <= After(EMPTY, ops).rows.Keys
  {
    if ops != [] {
      var init, last := ops[..|ops| - 1], ops[|ops| - 1];
      RemovingRowsAreThere(init);
      if last.Event? && last.event.Snapshot? {
        InsertedKeeps(Others(After(EMPTY, init).rows, last.kind), last.kind, last.event.rows);
      }
    }
  }

  /** Every row lies under its own kind and uid. */
  ghost predicate Filed(rows: map<string, MergedRow>) {
    forall key <- rows :: IsKindKey(rows[key].kind) && key == MergedKey(rows[key].kind, rows[key].row.uid)
  }

  lemma {:induction false} InsertedStaysFiled(base: map<string, MergedRow>, kind: string, rows: seq<Row>)
    requires Filed(base) && IsKindKey(kind)
    ensures Filed(Inserted(base, kind, rows))
  {
    if rows != [] { InsertedStaysFiled(base, kind, rows[..|rows| - 1]); }
  }

  lemma {:induction false} RowsAreFiled(ops: seq<Op>)
    requires forall op <- ops :: op.Event? ==> IsKindKey(op.kind)
    ensures Filed(After(EMPTY, ops).rows)
  {
    if ops != [] {
      var init, last := ops[..|ops| - 1], ops[|ops| - 1];
      RowsAreFiled(init);
      var m := After(EMPTY, init);
      if last.Event? && last.event.Snapshot? {
        InsertedStaysFiled(Others(m.rows, last.kind), last.kind, last.event.rows);
      }
    }
  }

  /**
   Once every timer has fired nothing is entering or removing, and the rows are those of the
   kinds' folds: each row lies under its own kind and uid, and of each kind there are exactly
   the rows of its fold.
   */
  lemma SettledTableIsTheFolds(ops: seq<Op>, k: string, uid: string)
    requires forall op <- ops :: op.Event? ==> IsKindKey(op.kind)
    requires IsKindKey(k) && Pending(ops) == multiset{}
    ensures After(EMPTY, ops).entering == {} && After(EMPTY, ops).removing == {}
    ensures Filed(After(EMPTY, ops).rows)
    ensures var rows, view := After(EMPTY, ops).rows, Fold(map[], EventsOf(ops, k));
      && (MergedKey(k, uid) in rows <==> uid in view)
      && (uid in view ==> rows[MergedKey(k, uid)] == MergedRow(k, view[uid]))
  {
    MarksAreScheduled(ops);
    KindsDoNotInterfere(ops, k, uid);
    RowsAreFiled(ops);
  }

  /** At this operation a row arrives under a key the table does not have, not even on its way out. */
  predicate ArrivesAt(ops: seq<Op>, i: nat, k: string, uid: string)
    requires i < |ops|
  {
    ops[i].Event? && ops[i].kind == k && ops[i].event.Applied? && ops[i].event.row.uid == uid
    && MergedKey(k, uid) !in After(EMPTY, ops[..i]).rows
  }

  /** A snapshot of the kind shows none of its rows as new, and a new row's timer ends its being new. */
  predicate Settles(op: Op, k: string, uid: string) {
    (op.Event? && op.kind == k && op.event.Snapshot?) || op == Tick(ClearEntering(MergedKey(k, uid)))
  }

  ghost predicate NewSince(ops: seq<Op>, n: nat, k: string, uid: string)
    requires n <= |ops|
  {
    exists i: nat | i < n :: ArrivesAt(ops, i, k, uid) && forall j: nat | i < j < n :: !Settles(ops[j], k, uid)
  }

  lemma NewOneMore(ops: seq<Op>, n: nat, k: string, uid: string)
    requires n < |ops|
    ensures NewSince(ops, n + 1, k, uid) <==>
      ArrivesAt(ops, n, k, uid) || (NewSince(ops, n, k, uid) && !Settles(ops[n], k, uid))
  {
    if NewSince(ops, n, k, uid) && !Settles(ops[n], k, uid) {
      var i: nat :| i < n && ArrivesAt(ops, i, k, uid) && forall j: nat | i < j < n :: !Settles(ops[j], k, uid);
      assert forall j: nat | i < j < n + 1 :: !Settles(ops[j], k, uid);
    }
  }

  lemma EnteringStep(m: Merged, op: Op, k: string, uid: string)
    requires IsKindKey(k) && (op.Event? ==> IsKindKey(op.kind))
    ensures var key := MergedKey(k, uid);
      key in Do(m, op).entering <==>
        (op.Event? && op.kind == k && op.event.Applied? && op.event.row.uid == uid && key !in m.rows)
        || (key in m.entering && !Settles(op, k, uid))
  {
    var key := MergedKey(k, uid);
    if op.Event? {
      assert op.kind == k ==> k + "/" <= key;
      if op.kind + "/" <= key { PrefixesDoNotOverlap(op.kind, k, uid); }
      if op.event.Applied? && key == MergedKey(op.kind, op.event.row.uid) {
        MergedKeysAreInjective(k, uid, op.kind, op.event.row.uid);
      }
    }
  }

  lemma {:induction false} NewUpTo(ops: seq<Op>, n: nat, k: string, uid: string)
    requires IsKindKey(k) && (forall op <- ops :: op.Event? ==> IsKindKey(op.kind)) && n <= |ops|
    ensures MergedKey(k, uid) in After(EMPTY, ops[..n]).entering <==> NewSince(ops, n, k, uid)
  {
    if n > 0 {
      NewUpTo(ops, n - 1, k, uid);
      assert ops[..n][..n - 1] == ops[..n - 1] && ops[n - 1] in ops;
      EnteringStep(After(EMPTY, ops[..n - 1]), ops[n - 1], k, uid);
      NewOneMore(ops, n - 1, k, uid);
    }
  }

  /** A row is shown as new if and only if it arrived, and neither its timer nor a snapshot of its kind has come since. */
  lemma EnteringIff(ops: seq<Op>, k: string, uid: string)
    requires IsKindKey(k) && forall op <- ops :: op.Event? ==> IsKindKey(op.kind)
    ensures MergedKey(k, uid) in After(EMPTY, ops).entering <==> NewSince(ops, |ops|, k, uid)
  {
    NewUpTo(ops, |ops|, k, uid);
    assert ops[..|ops|] == ops;
  }

  /**
   Why kind keys must come from slash-free names: an empty snapshot of one kind wipes a row
   of another, which no event of its own removed, if and only if the first kind's prefix
   begins the row's key, as "a/v1/K/" begins the keys of a kind "a/v1/K/b".
   */
  lemma OverlappingKindsInterfere(kind: string, other: string, row: Row)
    requires kind != other
    ensures var ops := [Event(kind, Applied(row)), Event(other, Snapshot([], []))];
      Lookup(Fold(map[], EventsOf(ops, kind)), row.uid) == Some(row)
      && (Shown(After(EMPTY, ops), kind, row.uid) == None <==> other + "/" <= MergedKey(kind, row.uid))
  {
    var first, second := Event(kind, Applied(row)), Event(other, Snapshot([], []));
    var ops := [first, second];
    assert ops[..1] == [first] && [first][..0] == [];
    assert EventsOf([first], kind) == [] + [Applied(row)] == [Applied(row)];
    assert EventsOf(ops, kind) == [Applied(row)];
    FoldAppend(map[], [], Applied(row));
    var m := After(EMPTY, [first]);
    assert After(EMPTY, [first][..0]) == EMPTY && m == Do(EMPTY, first);
    assert m.rows == map[MergedKey(kind, row.uid) := MergedRow(kind, row)] && m.removing == {};
    assert After(EMPTY, ops).rows == Others(m.rows, other);
  }

  /** The shared maps and sets, updated in place. */
  class SearchState {
    var rows: map<string, MergedRow>
    var entering: set<string>
    var removing: set<string>

    ghost function State(): Merged
      reads this
    {
      Merged(rows, entering, removing)
    }

    constructor ()
      ensures State() == EMPTY
    {
      rows, entering, removing := map[], {}, {};
    }

    method ReduceEvent(kind: string, e: WatchEvent) returns (pending: seq<Transition>)
      modifies this
      ensures (State(), pending) == Reduce(old(State()), kind, e)
    {
      pending := [];
      match e {
        case Snapshot(_, snapshot) =>
          rows := Others(rows, kind);
          entering := OtherKeys(entering, kind);
          removing := OtherKeys(removing, kind);
          ghost var base := rows;
          for i := 0 to |snapshot|
            invariant rows == Inserted(base, kind, snapshot[..i])
            invariant entering == OtherKeys(old(entering), kind) && removing == OtherKeys(old(removing), kind)
          {
            assert snapshot[..i + 1][..i] == snapshot[..i];
            rows := rows[MergedKey(kind, snapshot[i].uid) := MergedRow(kind, snapshot[i])];
          }
          assert snapshot[..|snapshot|] == snapshot;
        case Applied(row) =>
          var key := MergedKey(kind, row.uid);
          var isNew := key !in rows;
          rows := rows[key := MergedRow(kind, row)];
          removing := removing - {key};
          if isNew {
            entering := entering + {key};
            pending := [ClearEntering(key)];
          }
        case Deleted(uid) =>
          var key := MergedKey(kind, uid);
          if key in rows {
            removing := removing + {key};
            pending := [Remove(key)];
          }
        case Forbidden(_) =>
        case Failed(_) =>
      }
    }

    /** The key is settled, and nobody looking at any kind sees a difference. */
    method FinishRemovalValues(key: string)
      modifies this
      ensures State() == FinishRemoval(old(State()), key)
      ensures key !in removing && (key in old(removing) ==> key !in rows)
      ensures forall kind, uid :: Shown(State(), kind, uid) == Shown(old(State()), kind, uid)
    {
      if key in removing {
        removing := removing - {key};
        rows := rows - {key};
      }
    }
  }
}
