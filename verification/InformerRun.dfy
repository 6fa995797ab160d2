/**
 The watch task running against the API server. The server's contract is stated
 in `Enabled`: a LIST is cut into pages of one version, a WATCH delivers the
 changes of the collection from the version the task asked for, a bookmark never
 skips a change, and faults can arrive at any await. Where the stream stands is
 the server's own knowledge: `cursor`.
 */
module InformerRun {
  import opened Wrappers
  import opened Rows
  import opened Server
  import opened Informer
  import opened Text

  /** `listing` is the server's answer to the LIST in progress, `taken` how much was sent. */
  datatype Sys = Sys(history: seq<Change>, task: Task, listing: seq<Object>, taken: nat, cursor: nat)

  datatype Step =
    | ServerChanges(change: Change)
    | FirstPage(v: nat, listing: seq<Object>, n: nat, more: bool, layout: Layout, order: seq<Row>, index: Index)
    | NextPage(v: nat, n: nat, more: bool, layout: Layout, order: seq<Row>, index: Index)
    | Opens
    | Deliver(at: nat)
    | Advance(upto: nat)
    | Fault(signal: Signal)

  ghost predicate Enumerates(listing: seq<Object>, objs: Objects) {
    && (forall o <- listing :: UidOf(o) in objs && objs[UidOf(o)] == o)
    && (forall u <- objs :: objs[u] in listing)
  }

  function Present(objs: seq<Object>): Cells {
    seq(|objs|, i requires 0 <= i < |objs| => Some(objs[i]))
  }

  /** Everything the server or the network may do to the task at any time. */
  predicate IsFault(s: Signal) {
    match s
    case ListPage(page, _, _) => !page.isTable || None in page.cells
    case Upsert(_, cells) => cells == [None]
    case Removal(_, _) => false
    case Bookmark(_) => false
    case WatchOpened => false
    case _ => true
  }

  function PageSignal(s: Sys, listing: seq<Object>, from: nat, st: Step): Signal
    requires st.FirstPage? || st.NextPage?
    requires from + st.n <= |listing|
  {
    ListPage(Page(true, st.layout, Present(listing[from..from + st.n]), st.v, st.more), st.order, st.index)
  }

  function EventSignal(h: seq<Change>, v: nat): Signal
    requires 0 < v <= |h| && h[v - 1] != Elsewhere
  {
    match h[v - 1]
    case Put(o) => Upsert(v, [Some(o)])
    case Del(o) => Removal(v, [Some(o)])
  }

  /** On the last page the task picks some order of its hash maps; any order will do. */
  ghost predicate AnyOrder(t: Task, order: seq<Row>, index: Index) {
    t.phase == Connecting ==> RowsOf(order) == t.rows && IndexOk(t.objects, index)
  }

  ghost predicate Enabled(cfg: Config, s: Sys, st: Step) {
    match st
    case ServerChanges(c) => Legal(Contents(s.history, |s.history|), c)
    case FirstPage(v, listing, n, more, _, order, index) =>
      s.task.phase == Listing && s.task.pageVersion.None?
      && v <= |s.history| && Enumerates(listing, Contents(s.history, v))
      && n <= |listing| && (!more ==> n == |listing|)
      && AnyOrder(OnSignal(cfg, s.task, PageSignal(s, listing, 0, st)), order, index)
    case NextPage(v, n, more, _, order, index) =>
      s.task.phase == Listing && s.task.pageVersion.Some?
      && s.taken + n <= |s.listing| && (!more ==> s.taken + n == |s.listing|)
      && AnyOrder(OnSignal(cfg, s.task, PageSignal(s, s.listing, s.taken, st)), order, index)
    case Opens => Accepts(s.task, WatchOpened)
    case Deliver(v) =>
      Accepts(s.task, Bookmark(v)) && s.cursor < v <= |s.history|
      && Quiet(s.history, s.cursor, v - 1) && s.history[v - 1] != Elsewhere
    case Advance(v) => Accepts(s.task, Bookmark(v)) && Quiet(s.history, s.cursor, v)
    case Fault(signal) => Accepts(s.task, signal) && IsFault(signal)
  }

  ghost function Apply(cfg: Config, s: Sys, st: Step): Sys
    requires Enabled(cfg, s, st)
  {
    match st
    case ServerChanges(c) => s.(history := s.history + [c])
    case FirstPage(_, listing, n, _, _, _, _) =>
      s.(task := OnSignal(cfg, s.task, PageSignal(s, listing, 0, st)), listing := listing, taken := n)
    case NextPage(_, n, _, _, _, _) =>
      s.(task := OnSignal(cfg, s.task, PageSignal(s, s.listing, s.taken, st)), taken := s.taken + n)
    case Opens => s.(task := OnSignal(cfg, s.task, WatchOpened), cursor := Asked(s.task))
    case Deliver(v) => s.(task := OnSignal(cfg, s.task, EventSignal(s.history, v)), cursor := v)
    case Advance(v) => s.(task := OnSignal(cfg, s.task, Bookmark(v)), cursor := v)
    case Fault(signal) => s.(task := OnSignal(cfg, s.task, signal))
  }

  // ---------------------------------------------------------------------------
  // Agreement with the server
  // ---------------------------------------------------------------------------

  ghost function ShownRows(cfg: Config, l: Layout, objs: Objects): View {
    map u | u in objs && cfg.project(l, objs[u]).Some? :: cfg.project(l, objs[u]).value
  }

  ghost function CachedObjects(cfg: Config, l: Layout, objs: Objects): Objects {
    if cfg.caching then map u | u in objs && cfg.project(l, objs[u]).Some? :: objs[u] else map[]
  }

  /** The caches are the projection of the server's objects at version `v`. */
  ghost predicate Agrees(cfg: Config, t: Task, h: seq<Change>, v: nat) {
    && v <= |h| && t.layout.Some?
    && t.rows == ShownRows(cfg, t.layout.value, Contents(h, v))
    && t.objects == CachedObjects(cfg, t.layout.value, Contents(h, v))
    && IndexOk(t.objects, t.byName)
  }

  ghost function Built(cfg: Config, l: Layout, objs: seq<Object>): (View, Objects) {
    if objs == [] then (map[], map[]) else AddObject(cfg, l, Built(cfg, l, objs[..|objs| - 1]), objs[|objs| - 1])
  }

  /** Paging makes no difference: pages add up to one pass over the whole listing. */
  lemma {:induction false} BuildExtends(cfg: Config, l: Layout, done: seq<Object>, more: seq<Object>)
    ensures Build(cfg, l, Built(cfg, l, done), Present(more)) == Some(Built(cfg, l, done + more))
  {
    if more == [] {
      assert done + more == done;
    } else {
      var init := more[..|more| - 1];
      BuildExtends(cfg, l, done, init);
      assert Present(more)[..|more| - 1] == Present(init);
      assert (done + more)[..|done + more| - 1] == done + init;
    }
  }

  lemma {:induction false} RowsFromPart(cfg: Config, l: Layout, part: seq<Object>, objs: Objects)
    requires KeepsUid(cfg) && KeyedByUid(objs)
    requires forall o <- part :: UidOf(o) in objs && objs[UidOf(o)] == o
    ensures Built(cfg, l, part).0
         == map u | u in objs && objs[u] in part && cfg.project(l, objs[u]).Some? :: cfg.project(l, objs[u]).value
  {
    if part != [] {
      var init, last := part[..|part| - 1], part[|part| - 1];
      RowsFromPart(cfg, l, init, objs);
      assert forall o :: o in part <==> o in init || o == last;
    }
  }

  lemma {:induction false} ObjectsFromPart(cfg: Config, l: Layout, part: seq<Object>, objs: Objects)
    requires KeepsUid(cfg) && KeyedByUid(objs)
    requires forall o <- part :: UidOf(o) in objs && objs[UidOf(o)] == o
    ensures Built(cfg, l, part).1
         == if cfg.caching then map u | u in objs && objs[u] in part && cfg.project(l, objs[u]).Some? :: objs[u]
            else map[]
  {
    if part != [] {
      var init, last := part[..|part| - 1], part[|part| - 1];
      ObjectsFromPart(cfg, l, init, objs);
      assert forall o :: o in part <==> o in init || o == last;
    }
  }

  lemma BuiltIsProjection(cfg: Config, l: Layout, listing: seq<Object>, objs: Objects)
    requires KeepsUid(cfg) && KeyedByUid(objs) && Enumerates(listing, objs)
    ensures Built(cfg, l, listing) == (ShownRows(cfg, l, objs), CachedObjects(cfg, l, objs))
  {
    RowsFromPart(cfg, l, listing, objs);
    ObjectsFromPart(cfg, l, listing, objs);
    assert Built(cfg, l, listing).0 == ShownRows(cfg, l, objs);
    assert Built(cfg, l, listing).1 == CachedObjects(cfg, l, objs);
  }

  /** No other object bears the name, and the object itself keeps the one it has. */
  ghost predicate NameFree(objs: Objects, o: Object) {
    && (UidOf(o) in objs ==> NameKeyOf(objs[UidOf(o)]) == NameKeyOf(o))
    && (forall u <- objs :: u != UidOf(o) ==> NameKeyOf(objs[u]) != NameKeyOf(o))
  }

  lemma IndexAfterPut(objs: Objects, index: Index, o: Object)
    requires IndexOk(objs, index) && NameFree(objs, o)
    ensures IndexOk(objs[UidOf(o) := o], index[NameKeyOf(o) := UidOf(o)])
  {
  }

  lemma IndexAfterRemoval(objs: Objects, index: Index, o: Object)
    requires IndexOk(objs, index) && NameFree(objs, o)
    ensures IndexOk(objs - {UidOf(o)}, index - {NameKeyOf(o)})
  {
  }

  lemma CacheAfterPut(cfg: Config, l: Layout, objs: Objects, o: Object)
    requires KeepsUid(cfg)
    ensures ShownRows(cfg, l, objs[UidOf(o) := o])
         == match cfg.project(l, o)
            case Some(row) => ShownRows(cfg, l, objs)[UidOf(o) := row]
            case None => ShownRows(cfg, l, objs) - {UidOf(o)}
    ensures CachedObjects(cfg, l, objs[UidOf(o) := o])
         == if !cfg.caching then map[]
            else if cfg.project(l, o).Some? then CachedObjects(cfg, l, objs)[UidOf(o) := o]
            else CachedObjects(cfg, l, objs) - {UidOf(o)}
  {
  }

  lemma CacheAfterRemoval(cfg: Config, l: Layout, objs: Objects, uid: string)
    ensures ShownRows(cfg, l, objs - {uid}) == ShownRows(cfg, l, objs) - {uid}
    ensures CachedObjects(cfg, l, objs - {uid}) == CachedObjects(cfg, l, objs) - {uid}
  {
  }

  /** A delivered put brings the caches from one version's projection to the next. */
  lemma PutAgrees(cfg: Config, l: Layout, t: Task, objs: Objects, o: Object)
    requires KeepsUid(cfg) && KeyedByUid(objs) && Legal(objs, Put(o))
    requires t.rows == ShownRows(cfg, l, objs) && t.objects == CachedObjects(cfg, l, objs)
    requires IndexOk(t.objects, t.byName)
    ensures var t' := PutObject(cfg, l, t, o);
      t'.rows == ShownRows(cfg, l, objs[UidOf(o) := o])
      && t'.objects == CachedObjects(cfg, l, objs[UidOf(o) := o])
      && IndexOk(t'.objects, t'.byName)
  {
    CacheAfterPut(cfg, l, objs, o);
    assert NameFree(t.objects, o);
    if cfg.project(l, o).Some? {
      if cfg.caching { IndexAfterPut(t.objects, t.byName, o); }
    } else {
      IndexAfterRemoval(t.objects, t.byName, o);
      if UidOf(o) !in t.rows {
        assert t.rows - {UidOf(o)} == t.rows && t.objects - {UidOf(o)} == t.objects;
      }
    }
  }

  lemma RemoveAgrees(cfg: Config, l: Layout, t: Task, objs: Objects, o: Object)
    requires KeyedByUid(objs) && NamesUnique(objs) && Legal(objs, Del(o))
    requires t.rows == ShownRows(cfg, l, objs) && t.objects == CachedObjects(cfg, l, objs)
    requires IndexOk(t.objects, t.byName)
    ensures var t' := RemoveObject(cfg, t, o);
      t'.rows == ShownRows(cfg, l, objs - {UidOf(o)})
      && t'.objects == CachedObjects(cfg, l, objs - {UidOf(o)})
      && IndexOk(t'.objects, t'.byName)
  {
    CacheAfterRemoval(cfg, l, objs, UidOf(o));
    assert NameFree(t.objects, o);
    IndexAfterRemoval(t.objects, t.byName, o);
  }

  /** The last committed or consumed version; a stopped task may have died on its successor. */
  ghost predicate Current(cfg: Config, t: Task, h: seq<Change>) {
    if t.phase == Stopped then exists v | 0 <= v <= |h| :: Agrees(cfg, t, h, v)
    else Agrees(cfg, t, h, t.version)
  }

  ghost predicate ListingOk(cfg: Config, s: Sys) {
    var t := s.task;
    match (t.pageVersion, t.pageLayout)
    case (Some(v), Some(l)) =>
      v <= |s.history| && Enumerates(s.listing, Contents(s.history, v)) && s.taken <= |s.listing|
      && (t.building, t.buildingObjs) == Built(cfg, l, s.listing[..s.taken])
    case (None, None) => t.building == map[] && t.buildingObjs == map[]
    case (_, _) => false
  }

  ghost predicate Inv(cfg: Config, s: Sys) {
    var t := s.task;
    && WellFormed(s.history)
    && (t.phase == Listing ==> ListingOk(cfg, s))
    && (t.phase == Connecting || t.phase == Streaming ==> t.layout.Some?)
    && (t.phase == Streaming ==> s.cursor == t.version)
    && (if t.layout.Some? then Current(cfg, t, s.history) else t.rows == map[])
    && t.rows == Fold(map[], t.sent)
    && (t.terminal.Some? <==> t.phase == Stopped)
  }

  ghost predicate Init(s: Sys) {
    WellFormed(s.history) && s.task == START
  }

  // ---------------------------------------------------------------------------
  // Every step keeps the invariant
  // ---------------------------------------------------------------------------

  lemma AgreesAfterGrowth(cfg: Config, t: Task, h: seq<Change>, c: Change, v: nat)
    requires v <= |h|
    ensures Agrees(cfg, t, h + [c], v) <==> Agrees(cfg, t, h, v)
  {
    ContentsOfPrefix(h, c, v);
  }

  lemma GrowthKeepsInv(cfg: Config, s: Sys, c: Change)
    requires Inv(cfg, s) && Legal(Contents(s.history, |s.history|), c)
    ensures Inv(cfg, s.(history := s.history + [c]))
  {
    var t, h := s.task, s.history;
    GrowthKeepsWellFormed(h, c);
    if t.phase == Listing && t.pageVersion.Some? {
      ContentsOfPrefix(h, c, t.pageVersion.value);
    }
    if t.layout.Some? {
      if t.phase == Stopped {
        var v :| 0 <= v <= |h| && Agrees(cfg, t, h, v);
        AgreesAfterGrowth(cfg, t, h, c, v);
      } else {
        AgreesAfterGrowth(cfg, t, h, c, t.version);
      }
    }
  }

  /** Stopping and restarting leave the caches where they were. */
  lemma StopKeepsInv(cfg: Config, s: Sys, t: Task, e: WatchEvent)
    requires Inv(cfg, s) && s.task.phase != Stopped && (e.Forbidden? || e.Failed?)
    requires t.rows == s.task.rows && t.objects == s.task.objects && t.byName == s.task.byName
    requires t.layout == s.task.layout && t.sent == s.task.sent
    ensures Inv(cfg, s.(task := Stopping(t, e)))
  {
    FoldAppend(map[], t.sent, e);
    if t.layout.Some? {
      assert Agrees(cfg, Stopping(t, e), s.history, s.task.version);
    }
  }

  /** The stream resumes where the task stands, because that is the version it asks for. */
  lemma OpeningKeepsInv(cfg: Config, s: Sys)
    requires Inv(cfg, s) && Enabled(cfg, s, Opens)
    ensures Inv(cfg, Apply(cfg, s, Opens))
  {
    assert Agrees(cfg, s.task.(phase := Streaming), s.history, s.task.version);
  }

  /** Reconnecting and starting over leave the caches alone too. */
  lemma MoveKeepsInv(cfg: Config, s: Sys, t: Task)
    requires Inv(cfg, s) && s.task.phase != Stopped
    requires t == Restart(s.task) || (s.task.layout.Some? && t == s.task.(phase := Connecting))
    ensures Inv(cfg, s.(task := t))
  {
    if s.task.layout.Some? {
      assert Agrees(cfg, t, s.history, t.version);
    }
  }

  lemma ErrorKeepsInv(cfg: Config, s: Sys, e: ApiError, retry: Task)
    requires Inv(cfg, s) && s.task.phase != Stopped && Inv(cfg, s.(task := retry))
    ensures Inv(cfg, s.(task := OnError(s.task, e, retry)))
  {
    match Handle(e)
    case Stop(event) => StopKeepsInv(cfg, s, s.task, event);
    case Relist => MoveKeepsInv(cfg, s, Restart(s.task));
    case Retry =>
  }

  lemma StatusKeepsInv(cfg: Config, s: Sys, code: nat)
    requires Inv(cfg, s) && s.task.phase == Streaming
    ensures Inv(cfg, s.(task := OnStatus(s.task, code)))
  {
    if code == 410 || code == 401 {
      MoveKeepsInv(cfg, s, Restart(s.task));
    } else if 400 <= code < 500 {
      StopKeepsInv(cfg, s, s.task, if code == 403 then FORBIDDEN else FAILED);
    } else {
      MoveKeepsInv(cfg, s, s.task.(phase := Connecting));
    }
  }

  lemma BadPageKeepsInv(cfg: Config, s: Sys, f: Signal)
    requires Inv(cfg, s) && Accepts(s.task, f) && IsFault(f) && f.ListPage?
    ensures Inv(cfg, s.(task := OnSignal(cfg, s.task, f)))
  {
    var t, page := s.task, f.page;
    if !page.isTable {
      StopKeepsInv(cfg, s, t, FAILED);
    } else {
      var l := if t.pageLayout.Some? then t.pageLayout.value else page.layout;
      MissingObjectStopsBuild(cfg, l, (t.building, t.buildingObjs), page.cells);
      StopKeepsInv(cfg, s, t.(pageLayout := Some(l)), FAILED);
    }
  }

  lemma BadEventKeepsInv(cfg: Config, s: Sys, v: nat)
    requires Inv(cfg, s) && s.task.phase == Streaming
    ensures Inv(cfg, s.(task := PutCells(cfg, s.task.layout.value, s.task.(version := v), [None])))
  {
    var t := s.task.(version := v);
    var cells: Cells := [None];
    assert cells[..0] == [];
    assert PutCells(cfg, s.task.layout.value, t, cells) == Stopping(t, FAILED);
    StopKeepsInv(cfg, s, t, FAILED);
  }

  lemma FaultKeepsInv(cfg: Config, s: Sys, f: Signal)
    requires Inv(cfg, s) && Accepts(s.task, f) && IsFault(f)
    ensures Inv(cfg, s.(task := OnSignal(cfg, s.task, f)))
  {
    var t := s.task;
    match f
    case ListPage(_, _, _) => BadPageKeepsInv(cfg, s, f);
    case ListFailed(e) =>
      MoveKeepsInv(cfg, s, Restart(t));
      ErrorKeepsInv(cfg, s, e, Restart(t));
    case WatchRefused(e) => ErrorKeepsInv(cfg, s, e, t);
    case Upsert(v, _) => BadEventKeepsInv(cfg, s, v);
    case Status(code) => StatusKeepsInv(cfg, s, code);
    case StreamFailed(e) =>
      MoveKeepsInv(cfg, s, t.(phase := Connecting));
      ErrorKeepsInv(cfg, s, e, t.(phase := Connecting));
    case StreamEnded => MoveKeepsInv(cfg, s, t.(phase := Connecting));
    case SchemaChanged => MoveKeepsInv(cfg, s, Restart(t));
    case _ =>
  }

  lemma {:induction false} MissingObjectStopsBuild(cfg: Config, l: Layout, b: (View, Objects), cells: Cells)
    requires None in cells
    ensures Build(cfg, l, b, cells) == None
  {
    var last := cells[|cells| - 1];
    if last.Some? {
      assert None in cells[..|cells| - 1];
      MissingObjectStopsBuild(cfg, l, b, cells[..|cells| - 1]);
    }
  }

  /** A page adds its part of the listing to what was built before. */
  lemma PageBuilds(cfg: Config, s: Sys, listing: seq<Object>, taken: nat, n: nat, l: Layout)
    requires taken + n <= |listing|
    requires (s.task.building, s.task.buildingObjs) == Built(cfg, l, listing[..taken])
    ensures Build(cfg, l, (s.task.building, s.task.buildingObjs), Present(listing[taken..taken + n]))
         == Some(Built(cfg, l, listing[..taken + n]))
  {
    BuildExtends(cfg, l, listing[..taken], listing[taken..taken + n]);
    assert listing[..taken] + listing[taken..taken + n] == listing[..taken + n];
  }

  /** The last page commits the whole listing in one assignment. */
  lemma CommitKeepsInv(cfg: Config, s: Sys, listing: seq<Object>, v: nat, l: Layout, order: seq<Row>, index: Index)
    requires KeepsUid(cfg) && Inv(cfg, s) && s.task.phase == Listing
    requires v <= |s.history| && Enumerates(listing, Contents(s.history, v))
    requires RowsOf(order) == Built(cfg, l, listing).0 && IndexOk(Built(cfg, l, listing).1, index)
    ensures var b := Built(cfg, l, listing);
      Inv(cfg, Sys(s.history, Task(Connecting, map[], map[], None, None, v, Some(l), b.0, b.1, index,
                                   s.task.sent + [Snapshot(l.columns, order)], s.task.terminal), listing, |listing|, s.cursor))
  {
    ContentsAreKeyed(s.history, v);
    BuiltIsProjection(cfg, l, listing, Contents(s.history, v));
    FoldAppend(map[], s.task.sent, Snapshot(l.columns, order));
  }

  /** An earlier page only adds to what is built off to the side. */
  lemma MorePagesKeepInv(cfg: Config, s: Sys, listing: seq<Object>, taken: nat, v: nat, l: Layout)
    requires Inv(cfg, s) && s.task.phase == Listing
    requires v <= |s.history| && Enumerates(listing, Contents(s.history, v)) && taken <= |listing|
    ensures var b := Built(cfg, l, listing[..taken]);
      Inv(cfg, Sys(s.history,
                   s.task.(building := b.0, buildingObjs := b.1, pageLayout := Some(l), pageVersion := Some(v)),
                   listing, taken, s.cursor))
  {
    var t := s.task;
    var b := Built(cfg, l, listing[..taken]);
    var t' := t.(building := b.0, buildingObjs := b.1, pageLayout := Some(l), pageVersion := Some(v));
    assert t.layout.Some? ==> Agrees(cfg, t', s.history, t.version);
  }

  lemma FirstPageKeepsInv(cfg: Config, s: Sys, st: Step)
    requires KeepsUid(cfg) && Inv(cfg, s) && Enabled(cfg, s, st) && st.FirstPage?
    ensures Inv(cfg, Apply(cfg, s, st))
  {
    var listing := st.listing;
    assert listing[..0] == [];
    PageBuilds(cfg, s, listing, 0, st.n, st.layout);
    if st.more {
      MorePagesKeepInv(cfg, s, listing, st.n, st.v, st.layout);
    } else {
      assert listing[..st.n] == listing;
      CommitKeepsInv(cfg, s, listing, st.v, st.layout, st.order, st.index);
    }
  }

  lemma NextPageKeepsInv(cfg: Config, s: Sys, st: Step)
    requires KeepsUid(cfg) && Inv(cfg, s) && Enabled(cfg, s, st) && st.NextPage?
    ensures Inv(cfg, Apply(cfg, s, st))
  {
    assert s.task.pageLayout.Some?;
    var listing, l, v, taken := s.listing, s.task.pageLayout.value, s.task.pageVersion.value, s.taken + st.n;
    PageBuilds(cfg, s, listing, s.taken, st.n, l);
    var t' := Apply(cfg, s, st).task;
    var b := Built(cfg, l, listing[..taken]);
    if st.more {
      assert t' == s.task.(building := b.0, buildingObjs := b.1, pageLayout := Some(l), pageVersion := Some(v));
      MorePagesKeepInv(cfg, s, listing, taken, v, l);
    } else {
      assert listing[..taken] == listing;
      assert t' == Task(Connecting, map[], map[], None, None, v, Some(l), b.0, b.1, st.index,
                        s.task.sent + [Snapshot(l.columns, st.order)], s.task.terminal);
      CommitKeepsInv(cfg, s, listing, v, l, st.order, st.index);
    }
  }

  /** Having consumed version `v` correctly is all the invariant asks of a streaming task. */
  lemma ConsumedKeepsInv(cfg: Config, s: Sys, t: Task, v: nat)
    requires Inv(cfg, s) && s.task.phase == Streaming && s.task.layout.Some?
    requires t.phase == Streaming && t.layout == s.task.layout && t.terminal == s.task.terminal && t.version == v
    requires Agrees(cfg, t, s.history, v) && t.rows == Fold(map[], t.sent)
    ensures Inv(cfg, s.(task := t, cursor := v))
  {
  }

  lemma OnePutCell(cfg: Config, l: Layout, t: Task, o: Object)
    requires t.phase != Stopped
    ensures PutCells(cfg, l, t, [Some(o)]) == PutObject(cfg, l, t, o)
  {
    var cells := [Some(o)];
    assert cells[..0] == [];
    assert PutCells(cfg, l, t, cells[..0]) == t;
  }

  lemma OneRemoveCell(cfg: Config, t: Task, o: Object)
    ensures RemoveCells(cfg, t, [Some(o)]) == RemoveObject(cfg, t, o)
  {
    var cells := [Some(o)];
    assert cells[..0] == [];
    assert RemoveCells(cfg, t, cells[..0]) == t;
  }

  /**
   What the stream delivers next, from where the server has it, is legal and the next
   change after the version the task's caches stand at: nothing was missed on resume.
   */
  lemma DeliveredNext(cfg: Config, s: Sys, v: nat)
    requires Inv(cfg, s) && Enabled(cfg, s, Deliver(v))
    ensures Quiet(s.history, s.task.version, v - 1)
    ensures Contents(s.history, v) == Changed(Contents(s.history, v - 1), s.history[v - 1])
    ensures Legal(Contents(s.history, v - 1), s.history[v - 1])
    ensures KeyedByUid(Contents(s.history, v - 1)) && NamesUnique(Contents(s.history, v - 1))
    ensures Agrees(cfg, s.task.(version := v), s.history, v - 1)
  {
    QuietContents(s.history, s.task.version, v - 1);
    ContentsAreKeyed(s.history, v - 1);
    assert LegalAt(s.history, v - 1);
  }

  lemma PutReachesNext(cfg: Config, t: Task, h: seq<Change>, v: nat, o: Object)
    requires KeepsUid(cfg) && 0 < v <= |h| && Agrees(cfg, t, h, v - 1) && KeyedByUid(Contents(h, v - 1))
    requires Legal(Contents(h, v - 1), Put(o)) && Contents(h, v) == Changed(Contents(h, v - 1), Put(o))
    ensures Agrees(cfg, PutObject(cfg, t.layout.value, t, o), h, v)
  {
    PutAgrees(cfg, t.layout.value, t, Contents(h, v - 1), o);
  }

  lemma RemovalReachesNext(cfg: Config, t: Task, h: seq<Change>, v: nat, o: Object)
    requires 0 < v <= |h| && Agrees(cfg, t, h, v - 1)
    requires KeyedByUid(Contents(h, v - 1)) && NamesUnique(Contents(h, v - 1))
    requires Legal(Contents(h, v - 1), Del(o)) && Contents(h, v) == Changed(Contents(h, v - 1), Del(o))
    ensures Agrees(cfg, RemoveObject(cfg, t, o), h, v)
  {
    RemoveAgrees(cfg, t.layout.value, t, Contents(h, v - 1), o);
  }

  lemma PutAgreesAt(cfg: Config, s: Sys, v: nat, o: Object)
    requires KeepsUid(cfg) && Inv(cfg, s) && Enabled(cfg, s, Deliver(v)) && s.history[v - 1] == Put(o)
    ensures Agrees(cfg, PutObject(cfg, s.task.layout.value, s.task.(version := v), o), s.history, v)
  {
    DeliveredNext(cfg, s, v);
    PutReachesNext(cfg, s.task.(version := v), s.history, v, o);
  }

  lemma RemovalAgreesAt(cfg: Config, s: Sys, v: nat, o: Object)
    requires Inv(cfg, s) && Enabled(cfg, s, Deliver(v)) && s.history[v - 1] == Del(o)
    ensures Agrees(cfg, RemoveObject(cfg, s.task.(version := v), o), s.history, v)
  {
    DeliveredNext(cfg, s, v);
    RemovalReachesNext(cfg, s.task.(version := v), s.history, v, o);
  }

  /** A delivered change reaches the task as an event with that one object. */
  lemma DeliveredPut(cfg: Config, s: Sys, v: nat, o: Object)
    requires Enabled(cfg, s, Deliver(v)) && s.task.phase == Streaming && s.history[v - 1] == Put(o)
    ensures Apply(cfg, s, Deliver(v)).task == PutObject(cfg, s.task.layout.value, s.task.(version := v), o)
  {
    OnePutCell(cfg, s.task.layout.value, s.task.(version := v), o);
  }

  lemma DeliveredRemoval(cfg: Config, s: Sys, v: nat, o: Object)
    requires Enabled(cfg, s, Deliver(v)) && s.task.phase == Streaming && s.history[v - 1] == Del(o)
    ensures Apply(cfg, s, Deliver(v)).task == RemoveObject(cfg, s.task.(version := v), o)
  {
    OneRemoveCell(cfg, s.task.(version := v), o);
  }

  lemma PutKeepsInv(cfg: Config, s: Sys, v: nat, o: Object)
    requires KeepsUid(cfg) && Inv(cfg, s) && Enabled(cfg, s, Deliver(v)) && s.history[v - 1] == Put(o)
    ensures Inv(cfg, s.(task := PutObject(cfg, s.task.layout.value, s.task.(version := v), o), cursor := v))
  {
    var t := s.task.(version := v);
    PutAgreesAt(cfg, s, v, o);
    PutMeans(cfg, t.layout.value, t, o);
    ConsumedKeepsInv(cfg, s, PutObject(cfg, t.layout.value, t, o), v);
  }

  lemma RemovalKeepsInv(cfg: Config, s: Sys, v: nat, o: Object)
    requires Inv(cfg, s) && Enabled(cfg, s, Deliver(v)) && s.history[v - 1] == Del(o)
    ensures Inv(cfg, s.(task := RemoveObject(cfg, s.task.(version := v), o), cursor := v))
  {
    var t := s.task.(version := v);
    RemovalAgreesAt(cfg, s, v, o);
    RemovalMeans(cfg, t, o);
    ConsumedKeepsInv(cfg, s, RemoveObject(cfg, t, o), v);
  }

  lemma DeliveryKeepsInv(cfg: Config, s: Sys, v: nat)
    requires KeepsUid(cfg) && Inv(cfg, s) && Enabled(cfg, s, Deliver(v))
    ensures Inv(cfg, Apply(cfg, s, Deliver(v)))
  {
    var s' := Apply(cfg, s, Deliver(v));
    assert s' == s.(task := s'.task, cursor := v);
    match s.history[v - 1]
    case Put(o) =>
      DeliveredPut(cfg, s, v, o);
      PutKeepsInv(cfg, s, v, o);
    case Del(o) =>
      DeliveredRemoval(cfg, s, v, o);
      RemovalKeepsInv(cfg, s, v, o);
  }

  lemma BookmarkKeepsInv(cfg: Config, s: Sys, v: nat)
    requires Inv(cfg, s) && Enabled(cfg, s, Advance(v))
    ensures Inv(cfg, Apply(cfg, s, Advance(v)))
  {
    QuietContents(s.history, s.task.version, v);
    assert Agrees(cfg, s.task.(version := v), s.history, v);
  }

  lemma StepKeepsInv(cfg: Config, s: Sys, st: Step)
    requires KeepsUid(cfg) && Inv(cfg, s) && Enabled(cfg, s, st)
    ensures Inv(cfg, Apply(cfg, s, st))
  {
    match st
    case ServerChanges(c) => GrowthKeepsInv(cfg, s, c);
    case FirstPage(_, _, _, _, _, _, _) => FirstPageKeepsInv(cfg, s, st);
    case NextPage(_, _, _, _, _, _) => NextPageKeepsInv(cfg, s, st);
    case Opens => OpeningKeepsInv(cfg, s);
    case Deliver(v) => DeliveryKeepsInv(cfg, s, v);
    case Advance(v) => BookmarkKeepsInv(cfg, s, v);
    case Fault(f) => FaultKeepsInv(cfg, s, f);
  }

  // ---------------------------------------------------------------------------
  // Whole runs
  // ---------------------------------------------------------------------------

  ghost predicate Run(cfg: Config, s: Sys, steps: seq<Step>)
    decreases |steps|
  {
    steps == [] || (Enabled(cfg, s, steps[0]) && Run(cfg, Apply(cfg, s, steps[0]), steps[1..]))
  }

  ghost function End(cfg: Config, s: Sys, steps: seq<Step>): Sys
    requires Run(cfg, s, steps)
    decreases |steps|
  {
    if steps == [] then s else End(cfg, Apply(cfg, s, steps[0]), steps[1..])
  }

  lemma {:induction false} RunKeepsInv(cfg: Config, s: Sys, steps: seq<Step>)
    requires KeepsUid(cfg) && Inv(cfg, s) && Run(cfg, s, steps)
    ensures Inv(cfg, End(cfg, s, steps))
    decreases |steps|
  {
    if steps != [] {
      StepKeepsInv(cfg, s, steps[0]);
      RunKeepsInv(cfg, Apply(cfg, s, steps[0]), steps[1..]);
    }
  }

  lemma InitKeepsInv(cfg: Config, s: Sys)
    requires Init(s)
    ensures Inv(cfg, s)
  {
  }

  /**
   At every await of every run, after the first commit, the shared rows are exactly
   the projection of the server's objects at the version last committed or consumed,
   under the layout committed with them, whatever the pages, breaks and relists.
   */
  lemma RowsAreTheServersRows(cfg: Config, s: Sys, steps: seq<Step>)
    requires KeepsUid(cfg) && Init(s) && Run(cfg, s, steps)
    requires End(cfg, s, steps).task.layout.Some? && End(cfg, s, steps).task.phase != Stopped
    ensures var e := End(cfg, s, steps);
      e.task.version <= |e.history|
      && e.task.rows == ShownRows(cfg, e.task.layout.value, Contents(e.history, e.task.version))
  {
    InitKeepsInv(cfg, s);
    RunKeepsInv(cfg, s, steps);
  }

  /** The caches are one whole version's projection. */
  ghost predicate ShowsVersion(cfg: Config, s: Sys, v: nat) {
    v <= |s.history| && s.task.layout.Some?
    && s.task.rows == ShownRows(cfg, s.task.layout.value, Contents(s.history, v))
  }

  lemma InvShowsAVersion(cfg: Config, s: Sys)
    requires Inv(cfg, s) && s.task.layout.Some?
    ensures exists v :: ShowsVersion(cfg, s, v)
  {
    if s.task.phase == Stopped {
      var v :| 0 <= v <= |s.history| && Agrees(cfg, s.task, s.history, v);
      assert ShowsVersion(cfg, s, v);
    } else {
      assert ShowsVersion(cfg, s, s.task.version);
    }
  }

  /** Before the first commit nothing is shown, and even a stopped task shows one whole version. */
  lemma NeverAPartialListing(cfg: Config, s: Sys, steps: seq<Step>)
    requires KeepsUid(cfg) && Init(s) && Run(cfg, s, steps)
    ensures var e := End(cfg, s, steps);
      if e.task.layout.None? then e.task.rows == map[] else exists v :: ShowsVersion(cfg, e, v)
  {
    InitKeepsInv(cfg, s);
    RunKeepsInv(cfg, s, steps);
    if End(cfg, s, steps).task.layout.Some? {
      InvShowsAVersion(cfg, End(cfg, s, steps));
    }
  }

  /** `cached_object`: the name index first, then the object cache. */
  function CachedObject(t: Task, namespace: Option<string>, name: string): Option<Object> {
    var key := NameKey(namespace, name);
    if key in t.byName && t.byName[key] in t.objects then Some(t.objects[t.byName[key]]) else None
  }

  /**
   The indexed lookup finds an object exactly when a scan of the cached objects
   would, and then it finds that one; nothing is found for kinds that are not cached.
   */
  lemma LookupAgreesWithScan(cfg: Config, s: Sys, steps: seq<Step>, namespace: Option<string>, name: string, o: Object)
    requires KeepsUid(cfg) && Init(s) && Run(cfg, s, steps) && End(cfg, s, steps).task.layout.Some?
    ensures var t := End(cfg, s, steps).task;
      CachedObject(t, namespace, name) == Some(o)
      <==> (exists u :: u in t.objects && t.objects[u] == o && NameKeyOf(o) == NameKey(namespace, name))
  {
    InitKeepsInv(cfg, s);
    RunKeepsInv(cfg, s, steps);
    var e := End(cfg, s, steps);
    var t := e.task;
    var v :| 0 <= v <= |e.history| && Agrees(cfg, t, e.history, v);
    if CachedObject(t, namespace, name) == Some(o) {
      var u := t.byName[NameKey(namespace, name)];
      assert t.objects[u] == o;
    }
  }

  /** Everything broadcast so far, folded, is what the cache holds. */
  lemma SentEventsAddUpToRows(cfg: Config, s: Sys, steps: seq<Step>)
    requires KeepsUid(cfg) && Init(s) && Run(cfg, s, steps)
    ensures End(cfg, s, steps).task.rows == Fold(map[], End(cfg, s, steps).task.sent)
  {
    InitKeepsInv(cfg, s);
    RunKeepsInv(cfg, s, steps);
  }

  // ---------------------------------------------------------------------------
  // The shape of what is broadcast
  // ---------------------------------------------------------------------------

  /** The first broadcast of a task is a snapshot, and only a stopped task has sent a terminal event. */
  predicate SentOk(t: Task) {
    && (t.layout.None? && t.phase != Stopped ==> t.sent == [])
    && (t.layout.Some? ==> t.sent != [] && t.sent[0].Snapshot?)
    && (t.phase != Stopped ==> forall e <- t.sent :: !e.Forbidden? && !e.Failed?)
  }

  lemma StoppingKeepsSentOk(t: Task, e: WatchEvent)
    requires SentOk(t) && t.phase != Stopped
    ensures SentOk(Stopping(t, e))
  {
  }

  lemma OneRowKeepsSentOk(cfg: Config, l: Layout, t: Task, o: Object)
    requires SentOk(t) && t.layout.Some?
    ensures SentOk(PutObject(cfg, l, t, o)) && SentOk(RemoveObject(cfg, t, o))
  {
  }

  lemma {:induction false} PutCellsKeepSentOk(cfg: Config, l: Layout, t: Task, cells: Cells)
    requires SentOk(t) && t.layout.Some?
    ensures SentOk(PutCells(cfg, l, t, cells)) && PutCells(cfg, l, t, cells).layout == t.layout
  {
    if cells != [] {
      var t1 := PutCells(cfg, l, t, cells[..|cells| - 1]);
      PutCellsKeepSentOk(cfg, l, t, cells[..|cells| - 1]);
      if t1.phase != Stopped {
        match cells[|cells| - 1]
        case None => StoppingKeepsSentOk(t1, FAILED);
        case Some(o) => OneRowKeepsSentOk(cfg, l, t1, o);
      }
    }
  }

  lemma {:induction false} RemoveCellsKeepSentOk(cfg: Config, t: Task, cells: Cells)
    requires SentOk(t) && t.layout.Some?
    ensures SentOk(RemoveCells(cfg, t, cells)) && RemoveCells(cfg, t, cells).layout == t.layout
  {
    if cells != [] {
      var t1 := RemoveCells(cfg, t, cells[..|cells| - 1]);
      RemoveCellsKeepSentOk(cfg, t, cells[..|cells| - 1]);
      match cells[|cells| - 1]
      case None =>
      case Some(o) => OneRowKeepsSentOk(cfg, t.layout.value, t1, o);
    }
  }

  lemma PageKeepsSentOk(cfg: Config, t: Task, page: Page, order: seq<Row>, index: Index)
    requires SentOk(t) && t.phase == Listing
    ensures SentOk(OnPage(cfg, t, page, order, index))
  {
  }

  lemma ErrorKeepsSentOk(t: Task, e: ApiError, retry: Task)
    requires SentOk(t) && t.phase != Stopped && SentOk(retry)
    ensures SentOk(OnError(t, e, retry))
  {
    if Handle(e).Stop? { StoppingKeepsSentOk(t, Handle(e).event); }
  }

  lemma SignalKeepsSentOk(cfg: Config, t: Task, s: Signal)
    requires SentOk(t) && Accepts(t, s)
    ensures SentOk(OnSignal(cfg, t, s))
  {
    match s
    case ListPage(page, order, index) => PageKeepsSentOk(cfg, t, page, order, index);
    case ListFailed(e) => ErrorKeepsSentOk(t, e, Restart(t));
    case WatchRefused(e) => ErrorKeepsSentOk(t, e, t);
    case StreamFailed(e) => ErrorKeepsSentOk(t, e, t.(phase := Connecting));
    case Upsert(v, cells) => PutCellsKeepSentOk(cfg, t.layout.value, t.(version := v), cells);
    case Removal(v, cells) => RemoveCellsKeepSentOk(cfg, t.(version := v), cells);
    case Status(code) =>
      StoppingKeepsSentOk(t, FORBIDDEN);
      StoppingKeepsSentOk(t, FAILED);
    case _ =>
  }

  lemma {:induction false} RunKeepsSentOk(cfg: Config, s: Sys, steps: seq<Step>)
    requires SentOk(s.task) && Run(cfg, s, steps)
    ensures SentOk(End(cfg, s, steps).task)
    decreases |steps|
  {
    if steps != [] {
      match steps[0] {
        case ServerChanges(_) =>
        case FirstPage(_, listing, _, _, _, _, _) =>
          SignalKeepsSentOk(cfg, s.task, PageSignal(s, listing, 0, steps[0]));
        case NextPage(_, _, _, _, _, _) =>
          SignalKeepsSentOk(cfg, s.task, PageSignal(s, s.listing, s.taken, steps[0]));
        case Opens => SignalKeepsSentOk(cfg, s.task, WatchOpened);
        case Deliver(v) => SignalKeepsSentOk(cfg, s.task, EventSignal(s.history, v));
        case Advance(v) => SignalKeepsSentOk(cfg, s.task, Bookmark(v));
        case Fault(f) => SignalKeepsSentOk(cfg, s.task, f);
      }
      RunKeepsSentOk(cfg, Apply(cfg, s, steps[0]), steps[1..]);
    }
  }

  /** A running task's broadcasts are rows only, and begin with a snapshot. */
  lemma BroadcastsBeginWithASnapshot(cfg: Config, s: Sys, steps: seq<Step>)
    requires Init(s) && Run(cfg, s, steps) && End(cfg, s, steps).task.phase != Stopped
    ensures var sent := End(cfg, s, steps).task.sent;
      (forall e <- sent :: !e.Forbidden? && !e.Failed?) && (sent != [] ==> sent[0].Snapshot?)
  {
    RunKeepsSentOk(cfg, s, steps);
  }

  // ---------------------------------------------------------------------------
  // Which failures end a task for good?
  // ---------------------------------------------------------------------------

  lemma {:induction false} StoppedNeverChanges(cfg: Config, s: Sys, steps: seq<Step>)
    requires s.task.phase == Stopped && Run(cfg, s, steps)
    ensures End(cfg, s, steps).task == s.task
    decreases |steps|
  {
    if steps != [] {
      assert Apply(cfg, s, steps[0]).task == s.task;
      StoppedNeverChanges(cfg, Apply(cfg, s, steps[0]), steps[1..]);
    }
  }

  /** Whatever happens from here on, the task stays as it is. */
  ghost predicate FinalTask(cfg: Config, s: Sys) {
    forall more :: Run(cfg, s, more) ==> End(cfg, s, more).task == s.task
  }

  lemma StoppedIsFinal(cfg: Config, s: Sys)
    requires s.task.phase == Stopped
    ensures FinalTask(cfg, s)
  {
    forall more | Run(cfg, s, more) ensures End(cfg, s, more).task == s.task {
      StoppedNeverChanges(cfg, s, more);
    }
  }

  lemma OneStep(cfg: Config, s: Sys, st: Step)
    requires Enabled(cfg, s, st)
    ensures Run(cfg, s, [st]) && End(cfg, s, [st]) == Apply(cfg, s, st)
  {
    assert [st][1..] == [] && Run(cfg, Apply(cfg, s, st), []);
  }

  /** A task that lists again moves with the first page it gets. */
  lemma ListingIsNotFinal(cfg: Config, s: Sys)
    requires s.task.phase == Listing && s.task.pageVersion.None?
    ensures !FinalTask(cfg, s)
  {
    var page := FirstPage(0, [], 0, true, Layout([], []), [], map[]);
    var cells: Cells := Present([]);
    assert cells == [];
    assert Enabled(cfg, s, page);
    assert Apply(cfg, s, page).task.pageVersion.Some?;
    OneStep(cfg, s, page);
  }

  /** A task about to open its watch moves when the server lets it. */
  lemma WaitingIsNotFinal(cfg: Config, s: Sys)
    requires s.task.phase == Connecting
    ensures !FinalTask(cfg, s)
  {
    OneStep(cfg, s, Opens);
  }

  /** A text that speaks of permission, or one of neither and a cause that asking again cannot mend. */
  predicate Ends(f: Signal) {
    match ErrorOf(f)
    case Some(e) => SaysForbidden(e) || (!SaysAuth(e) && Permanent(e.cause))
    case None => f.Status? && 400 <= f.code < 500 && f.code !in {401, 410}
  }

  /** Exactly these failures leave a task that nothing moves any more. */
  lemma FailureIsFinalIff(cfg: Config, s: Sys, f: Signal)
    requires Enabled(cfg, s, Fault(f)) && (f.Status? || ErrorOf(f).Some?)
    ensures FinalTask(cfg, Apply(cfg, s, Fault(f))) <==> Ends(f)
  {
    var t := s.task;
    var s1 := Apply(cfg, s, Fault(f));
    match f {
      case ListFailed(e) => ErrorLeads(t, e, Restart(t));
      case WatchRefused(e) => ErrorLeads(t, e, t);
      case StreamFailed(e) => ErrorLeads(t, e, t.(phase := Connecting));
      case Status(code) =>
    }
    if Ends(f) {
      StoppedIsFinal(cfg, s1);
    } else if s1.task.phase == Listing {
      ListingIsNotFinal(cfg, s1);
    } else {
      WaitingIsNotFinal(cfg, s1);
    }
  }

  predicate Wordless(e: ApiError) {
    !SaysForbidden(e) && !SaysAuth(e)
  }

  /** What a client sees of the task is as before. */
  predicate ShowsTheSame(t: Task, t': Task) {
    && t'.rows == t.rows && t'.objects == t.objects && t'.byName == t.byName && t'.layout == t.layout
    && t'.version == t.version && t'.sent == t.sent && t'.terminal == t.terminal
  }

  /**
   Without a word to go by, a broken connection passes, and so does an answer that is no 4xx
   or is a 401 or 403: a listing task lists from the start, any other opens its watch again
   where it stands.
   */
  lemma PassingFailureIsRetried(cfg: Config, s: Sys, f: Signal)
    requires Enabled(cfg, s, Fault(f)) && ErrorOf(f).Some? && Wordless(ErrorOf(f).value)
    requires ErrorOf(f).value.cause.Transport?
          || (CodeOf(f).Some? && (CodeOf(f).value < 400 || CodeOf(f).value >= 500 || CodeOf(f).value in {401, 403}))
    ensures var s1 := Apply(cfg, s, Fault(f));
      && ShowsTheSame(s.task, s1.task) && !FinalTask(cfg, s1)
      && (if f.ListFailed? then s1.task.phase == Listing && s1.task.pageVersion.None? && s1.task.building == map[]
          else s1.task.phase == Connecting)
  {
    FailureIsFinalIff(cfg, s, f);
  }

  /** What the stream itself reports: a code that is no 4xx passes, and a 4xx that ends the task is published. */
  lemma StatusIsPublished(cfg: Config, s: Sys, code: nat)
    requires Enabled(cfg, s, Fault(Status(code)))
    ensures var t, t' := s.task, Apply(cfg, s, Fault(Status(code))).task;
      if code in {401, 410} then ShowsTheSame(t, t') && t'.phase == Listing && t'.pageVersion.None?
      else if 400 <= code < 500 then
        t'.phase == Stopped && t'.rows == t.rows && t'.sent == t.sent + [if code == 403 then FORBIDDEN else FAILED]
      else ShowsTheSame(t, t') && t'.phase == Connecting
  {
  }

  /** Without a word to go by, an answer that cannot be read, or any other 4xx, ends the task with an error. */
  lemma PermanentFailureEnds(cfg: Config, s: Sys, f: Signal)
    requires Enabled(cfg, s, Fault(f)) && ErrorOf(f).Some? && Wordless(ErrorOf(f).value)
    requires ErrorOf(f).value.cause.Undecodable?
          || (CodeOf(f).Some? && 400 <= CodeOf(f).value < 500 && CodeOf(f).value !in {401, 403})
    ensures var s1 := Apply(cfg, s, Fault(f));
      && s1.task.phase == Stopped && FinalTask(cfg, s1)
      && s1.task.sent == s.task.sent + [FAILED] && s1.task.terminal == Some(FAILED) && s1.task.rows == s.task.rows
  {
    FailureIsFinalIff(cfg, s, f);
  }

  /**
   The word that a version has expired, code 410, ends the task for good unless it comes
   from the stream itself, or in a text that mentions 401 and not 403.
   */
  lemma ExpiryIsFinalIff(cfg: Config, s: Sys, f: Signal)
    requires Enabled(cfg, s, Fault(f)) && CodeOf(f) == Some(410)
    ensures FinalTask(cfg, Apply(cfg, s, Fault(f))) <==>
      !f.Status? && (SaysForbidden(ErrorOf(f).value) || !SaysAuth(ErrorOf(f).value))
  {
    FailureIsFinalIff(cfg, s, f);
  }

  /** A failure that would pass ends the task for good if and only if its text mentions 403. */
  lemma PassingFailureIsFinalIff(cfg: Config, s: Sys, f: Signal)
    requires Enabled(cfg, s, Fault(f)) && ErrorOf(f).Some? && !Permanent(ErrorOf(f).value.cause)
    ensures FinalTask(cfg, Apply(cfg, s, Fault(f))) <==> SaysForbidden(ErrorOf(f).value)
  {
    FailureIsFinalIff(cfg, s, f);
  }

  lemma QuotedWord(start: string, word: string, rest: string, words: seq<string>)
    requires word in words
    ensures Mentions([start + word + rest], words)
  {
    var text := start + word + rest;
    assert text[|start|..] == word + rest;
    assert Contains(text, word);
    assert HasWord([text][0], words);
  }

  lemma MissingLetter(text: string, word: string, c: char)
    requires c in word && c !in text
    ensures !Contains(text, word)
  {
    var k :| 0 <= k < |word| && word[k] == c;
    forall i | 0 <= i <= |text| ensures !StartsWith(text[i..], word) {
      if k < |text[i..]| { assert text[i..][k] == text[i + k]; }
    }
  }

  lemma NeitherWord(text: string)
    requires '3' !in text && 'F' !in text
    ensures !Mentions([text], FORBIDDEN_WORDS)
  {
    assert "Forbidden"[0] == 'F' && "403"[2] == '3';
    MissingLetter(text, "Forbidden", 'F');
    MissingLetter(text, "403", '3');
    assert !HasWord(text, FORBIDDEN_WORDS);
  }

  lemma QuotedAuth(cause: Cause, start: string, word: string, rest: string)
    requires word in AUTH_WORDS && '3' !in word && 'F' !in word && '3' !in start + rest && 'F' !in start + rest
    ensures Handle(ApiError(cause, [start + word + rest])) == Relist
  {
    QuotedWord(start, word, rest, AUTH_WORDS);
    NeitherWord(start + word + rest);
  }

  lemma QuotedForbidden(cause: Cause, start: string, word: string, rest: string)
    requires word in FORBIDDEN_WORDS
    ensures Handle(ApiError(cause, [start + word + rest])) == Stop(FORBIDDEN)
  {
    QuotedWord(start, word, rest, FORBIDDEN_WORDS);
  }

  /**
   Whatever went wrong, a number quoted in the text decides: an error that quotes 403 ends the
   task, and one that quotes 401, and has no 3 and no F elsewhere, makes it list again. A
   refusal "too old resource version: 401200 (500000)" is such a text, and so is a selector
   the server will not parse. The words for them do the same.
   */
  lemma QuotedNumberDecides(cause: Cause, start: string, rest: string)
    ensures Handle(ApiError(cause, [start + "403" + rest])) == Stop(FORBIDDEN)
    ensures Handle(ApiError(cause, [start + "Forbidden" + rest])) == Stop(FORBIDDEN)
    ensures '3' !in start + rest && 'F' !in start + rest ==>
      && Handle(ApiError(cause, [start + "401" + rest])) == Relist
      && Handle(ApiError(cause, [start + "Unauthorized" + rest])) == Relist
  {
    assert "403" == FORBIDDEN_WORDS[1] && "Forbidden" == FORBIDDEN_WORDS[0];
    QuotedForbidden(cause, start, "403", rest);
    QuotedForbidden(cause, start, "Forbidden", rest);
    if '3' !in start + rest && 'F' !in start + rest {
      assert "401" == AUTH_WORDS[1] && "Unauthorized" == AUTH_WORDS[0];
      QuotedAuth(cause, start, "401", rest);
      QuotedAuth(cause, start, "Unauthorized", rest);
    }
  }

  /**
   A request the server will never accept is repeated for ever when the refusal mentions
   401 and not 403: after any number of refusals the task is back where it began.
   */
  lemma {:induction false} RefusedForEver(cfg: Config, s: Sys, e: ApiError, n: nat)
    requires s.task.phase == Listing && s.task == Restart(s.task)
    requires !SaysForbidden(e) && SaysAuth(e)
    ensures var steps := seq(n, i => Fault(ListFailed(e)));
      Run(cfg, s, steps) && End(cfg, s, steps) == s
  {
    if n > 0 {
      var steps := seq(n, i => Fault(ListFailed(e)));
      RefusedForEver(cfg, s, e, n - 1);
      assert steps[1..] == seq(n - 1, i => Fault(ListFailed(e)));
      assert Apply(cfg, s, steps[0]) == s;
    }
  }

  /**
   It does happen, from any start: a continue token that expires between two pages of the
   first LIST leaves the task without a row for ever, while the server goes on changing.
   */
  lemma ExpiredContinueTokenEndsTheTask(
    cfg: Config, s: Sys, v: nat, listing: seq<Object>, n: nat, l: Layout, e: ApiError, more: seq<Step>, c: Change)
    requires Init(s) && v <= |s.history| && Enumerates(listing, Contents(s.history, v)) && n <= |listing|
    requires KeepsUid(cfg) && e.cause == Answer(410) && (SaysForbidden(e) || !SaysAuth(e))
    ensures var steps := [FirstPage(v, listing, n, true, l, [], map[]), Fault(ListFailed(e))];
      Run(cfg, s, steps)
      && var s' := End(cfg, s, steps);
      (Run(cfg, s', more) ==>
         End(cfg, s', more).task == s'.task && s'.task.phase == Stopped && s'.task.rows == map[]
         && (Legal(Contents(End(cfg, s', more).history, |End(cfg, s', more).history|), c) ==>
               Enabled(cfg, End(cfg, s', more), ServerChanges(c))))
  {
    var page, fault := FirstPage(v, listing, n, true, l, [], map[]), Fault(ListFailed(e));
    assert listing[..0] == [];
    PageBuilds(cfg, s, listing, 0, n, l);
    assert Enabled(cfg, s, page);
    var s1 := Apply(cfg, s, page);
    assert s1.task.phase == Listing && s1.task.rows == map[];
    ErrorLeads(s1.task, e, Restart(s1.task));
    var s' := Apply(cfg, s1, fault);
    assert [page, fault][1..] == [fault];
    OneStep(cfg, s1, fault);
    if Run(cfg, s', more) { StoppedNeverChanges(cfg, s', more); }
  }
}
