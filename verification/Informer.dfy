/**
 The watch task of a shared informer: a paginated LIST built off to the side and
 committed at once, then a WATCH resumed from the last version seen.

 `project` stands for the pure projection of an object into a row under a column
 layout; it may hide an object.
 */
module Informer {
  import opened Wrappers
  import opened Rows
  import opened Server
  import opened Text

  datatype Layout = Layout(columns: seq<string>, sources: seq<nat>)

  type Project = (Layout, Object) -> Option<Row>

  /** `caching` is set for the kinds whose full objects are kept. */
  datatype Config = Config(project: Project, caching: bool)

  /** A projected row is keyed by its object's uid. */
  ghost predicate KeepsUid(cfg: Config) {
    forall l, o :: cfg.project(l, o).Some? ==> cfg.project(l, o).value.uid == UidOf(o)
  }

  datatype Cause = Answer(code: nat) | Undecodable | Transport

  /** `texts` is what the error says, followed by what each of the errors behind it says. */
  datatype ApiError = ApiError(cause: Cause, texts: seq<string>)

  datatype Handling = Stop(event: WatchEvent) | Relist | Retry

  const FORBIDDEN := Forbidden("forbidden")
  const FAILED := Failed("failed")

  const FORBIDDEN_WORDS := ["Forbidden", "403"]
  const AUTH_WORDS := ["Unauthorized", "401"]

  predicate HasWord(text: string, words: seq<string>) {
    exists w <- words :: Contains(text, w)
  }

  predicate Mentions(texts: seq<string>, words: seq<string>) {
    exists text <- texts :: HasWord(text, words)
  }

  predicate SaysForbidden(e: ApiError) {
    Mentions(e.texts, FORBIDDEN_WORDS)
  }

  predicate SaysAuth(e: ApiError) {
    Mentions(e.texts, AUTH_WORDS)
  }

  /** What asking again cannot mend: a 4xx answer but 401 and 403, or one that cannot be read. */
  predicate Permanent(c: Cause) {
    match c
    case Answer(code) => 400 <= code < 500 && code != 401 && code != 403
    case Undecodable => true
    case Transport => false
  }

  /** The words of an error are looked at first, its code only when they say nothing. */
  function Handle(e: ApiError): Handling {
    if SaysForbidden(e) then Stop(FORBIDDEN)
    else if SaysAuth(e) then Relist
    else if Permanent(e.cause) then Stop(FAILED)
    else Retry
  }

  datatype Phase = Listing | Connecting | Streaming | Stopped

  type Index = map<NameKey, string>

  /**
   `building`, `buildingObjs`, `pageLayout` and `pageVersion` belong to a LIST in
   progress. `rows`, `objects`, `byName` and `layout` are the shared caches, and
   `version` is the resource version they were last brought to.
   */
  datatype Task = Task(
    phase: Phase,
    building: View,
    buildingObjs: Objects,
    pageLayout: Option<Layout>,
    pageVersion: Option<nat>,
    version: nat,
    layout: Option<Layout>,
    rows: View,
    objects: Objects,
    byName: Index,
    sent: seq<WatchEvent>,
    terminal: Option<WatchEvent>)

  const START := Task(Listing, map[], map[], None, None, 0, None, map[], map[], map[], [], None)

  /** A table row may omit its object, which the task treats as a fatal answer. */
  type Cells = seq<Option<Object>>

  datatype Page = Page(isTable: bool, layout: Layout, cells: Cells, version: nat, more: bool)

  /**
   What the task can be told at one of its awaits. Once the stream is open only reading
   and decoding can fail: the answers to requests come before it.
   */
  datatype Signal =
    | ListPage(page: Page, order: seq<Row>, index: Index)
    | ListFailed(error: ApiError)
    | WatchOpened
    | WatchRefused(error: ApiError)
    | Upsert(version: nat, cells: Cells)
    | Removal(version: nat, cells: Cells)
    | Bookmark(version: nat)
    | Status(code: nat)
    | StreamFailed(error: ApiError)
    | StreamEnded
    | SchemaChanged

  predicate Accepts(t: Task, s: Signal) {
    match t.phase
    case Listing => s.ListPage? || s.ListFailed? || s.SchemaChanged?
    case Connecting => s.WatchOpened? || s.WatchRefused? || s.SchemaChanged?
    case Streaming =>
      t.layout.Some?
      && (s.Upsert? || s.Removal? || s.Bookmark? || s.Status? || s.StreamEnded? || s.SchemaChanged?
          || (s.StreamFailed? && !s.error.cause.Answer?))
    case Stopped => false
  }

  // ---------------------------------------------------------------------------
  // One signal
  // ---------------------------------------------------------------------------

  function Restart(t: Task): Task {
    t.(phase := Listing, building := map[], buildingObjs := map[], pageLayout := None, pageVersion := None)
  }

  function Stopping(t: Task, e: WatchEvent): Task {
    t.(phase := Stopped, terminal := Some(e), sent := t.sent + [e])
  }

  function AddObject(cfg: Config, l: Layout, b: (View, Objects), o: Object): (View, Objects) {
    match cfg.project(l, o)
    case None => b
    case Some(row) => (b.0[row.uid := row], if cfg.caching then b.1[row.uid := o] else b.1)
  }

  function Build(cfg: Config, l: Layout, b: (View, Objects), cells: Cells): Option<(View, Objects)> {
    if cells == [] then Some(b)
    else match (Build(cfg, l, b, cells[..|cells| - 1]), cells[|cells| - 1])
      case (Some(b1), Some(o)) => Some(AddObject(cfg, l, b1, o))
      case (_, _) => None
  }

  /** A complete listing replaces every cache together and is broadcast as a snapshot. */
  function Committed(t: Task, order: seq<Row>, index: Index): Task
    requires t.pageLayout.Some? && t.pageVersion.Some?
  {
    Task(Connecting, map[], map[], None, None, t.pageVersion.value, t.pageLayout, t.building, t.buildingObjs, index,
         t.sent + [Snapshot(t.pageLayout.value.columns, order)], t.terminal)
  }

  function OnPage(cfg: Config, t: Task, page: Page, order: seq<Row>, index: Index): Task {
    if !page.isTable then Stopping(t, FAILED)
    else
      var l := if t.pageLayout.Some? then t.pageLayout.value else page.layout;
      match Build(cfg, l, (t.building, t.buildingObjs), page.cells)
      case None => Stopping(t.(pageLayout := Some(l)), FAILED)
      case Some(b) =>
        var v := if t.pageVersion.Some? then t.pageVersion.value else page.version;
        var t1 := t.(building := b.0, buildingObjs := b.1, pageLayout := Some(l), pageVersion := Some(v));
        if page.more then t1 else Committed(t1, order, index)
  }

  function PutObject(cfg: Config, l: Layout, t: Task, o: Object): Task {
    match cfg.project(l, o)
    case Some(row) =>
      t.(rows := t.rows[row.uid := row],
         objects := if cfg.caching then t.objects[row.uid := o] else t.objects,
         byName := if cfg.caching then t.byName[NameKeyOf(o) := row.uid] else t.byName,
         sent := t.sent + [Applied(row)])
    case None =>
      if UidOf(o) in t.rows then
        t.(rows := t.rows - {UidOf(o)}, objects := t.objects - {UidOf(o)}, byName := t.byName - {NameKeyOf(o)},
           sent := t.sent + [Deleted(UidOf(o))])
      else t
  }

  /** The loop over an event's rows stops for good at a row without its object. */
  function PutCells(cfg: Config, l: Layout, t: Task, cells: Cells): Task {
    if cells == [] then t
    else
      var t1 := PutCells(cfg, l, t, cells[..|cells| - 1]);
      if t1.phase == Stopped then t1
      else match cells[|cells| - 1]
        case None => Stopping(t1, FAILED)
        case Some(o) => PutObject(cfg, l, t1, o)
  }

  function RemoveObject(cfg: Config, t: Task, o: Object): Task {
    t.(rows := t.rows - {UidOf(o)},
       objects := if cfg.caching then t.objects - {UidOf(o)} else t.objects,
       byName := if cfg.caching then t.byName - {NameKeyOf(o)} else t.byName,
       sent := t.sent + [Deleted(UidOf(o))])
  }

  function RemoveCells(cfg: Config, t: Task, cells: Cells): Task {
    if cells == [] then t
    else
      var t1 := RemoveCells(cfg, t, cells[..|cells| - 1]);
      match cells[|cells| - 1]
      case None => t1
      case Some(o) => RemoveObject(cfg, t1, o)
  }

  function OnStatus(t: Task, code: nat): Task {
    if code == 410 || code == 401 then Restart(t)
    else if code == 403 then Stopping(t, FORBIDDEN)
    else if 400 <= code < 500 then Stopping(t, FAILED)
    else t.(phase := Connecting)
  }

  /** `retry` is where a passing failure leads: a relist while listing, a reconnect after. */
  function OnError(t: Task, e: ApiError, retry: Task): Task {
    match Handle(e)
    case Stop(event) => Stopping(t, event)
    case Relist => Restart(t)
    case Retry => retry
  }

  function OnSignal(cfg: Config, t: Task, s: Signal): Task
    requires Accepts(t, s)
  {
    match s
    case ListPage(page, order, index) => OnPage(cfg, t, page, order, index)
    case ListFailed(e) => OnError(t, e, Restart(t))
    case WatchOpened => t.(phase := Streaming)
    case WatchRefused(e) => OnError(t, e, t)
    case Upsert(v, cells) => PutCells(cfg, t.layout.value, t.(version := v), cells)
    case Removal(v, cells) => RemoveCells(cfg, t.(version := v), cells)
    case Bookmark(v) => t.(version := v)
    case Status(code) => OnStatus(t, code)
    case StreamFailed(e) => OnError(t, e, t.(phase := Connecting))
    case StreamEnded => t.(phase := Connecting)
    case SchemaChanged => Restart(t)
  }

  /** A commit broadcasts what it caches, whatever was cached and broadcast before. */
  lemma CommitMeans(t: Task, order: seq<Row>, index: Index)
    requires t.pageLayout.Some? && t.pageVersion.Some? && RowsOf(order) == t.building
    ensures Committed(t, order, index).rows == Fold(map[], Committed(t, order, index).sent)
  {
    FoldAppend(map[], t.sent, Snapshot(t.pageLayout.value.columns, order));
  }

  /**
   A put leaves a row for exactly a shown object, touches no other row, and broadcasts what it
   did: nothing, for an object that was not shown and is not.
   */
  lemma PutMeans(cfg: Config, l: Layout, t: Task, o: Object)
    requires KeepsUid(cfg)
    ensures var t' := PutObject(cfg, l, t, o);
      && (UidOf(o) in t'.rows <==> cfg.project(l, o).Some?)
      && t'.rows - {UidOf(o)} == t.rows - {UidOf(o)}
      && (cfg.project(l, o).None? && UidOf(o) !in t.rows ==> t' == t)
      && (t.rows == Fold(map[], t.sent) ==> t'.rows == Fold(map[], t'.sent))
  {
    match cfg.project(l, o)
    case Some(row) => FoldAppend(map[], t.sent, Applied(row));
    case None => FoldAppend(map[], t.sent, Deleted(UidOf(o)));
  }

  lemma RemovalMeans(cfg: Config, t: Task, o: Object)
    ensures var t' := RemoveObject(cfg, t, o);
      && t'.rows == t.rows - {UidOf(o)}
      && (t.rows == Fold(map[], t.sent) ==> t'.rows == Fold(map[], t'.sent))
  {
    FoldAppend(map[], t.sent, Deleted(UidOf(o)));
  }

  function ErrorOf(s: Signal): Option<ApiError> {
    if s.ListFailed? || s.WatchRefused? || s.StreamFailed? then Some(s.error) else None
  }

  /** The code of a refusal: of an answer, or of a status the stream brings. */
  function CodeOf(s: Signal): Option<nat> {
    match s
    case Status(code) => Some(code)
    case ListFailed(ApiError(Answer(code), _)) => Some(code)
    case WatchRefused(ApiError(Answer(code), _)) => Some(code)
    case _ => None
  }

  lemma StatusLeads(t: Task, code: nat)
    requires 400 <= code < 500
    ensures if code in {401, 410} then OnStatus(t, code) == Restart(t) else OnStatus(t, code).phase == Stopped
  {
  }

  lemma ErrorLeads(t: Task, e: ApiError, retry: Task)
    ensures (SaysForbidden(e) || (!SaysAuth(e) && Permanent(e.cause))) ==> OnError(t, e, retry).phase == Stopped
    ensures !SaysForbidden(e) && SaysAuth(e) ==> OnError(t, e, retry) == Restart(t)
    ensures !SaysForbidden(e) && !SaysAuth(e) && !Permanent(e.cause) ==> OnError(t, e, retry) == retry
  {
  }

  /**
   Of all 4xx refusals a task can be told, wherever it is told them, it lists again after a
   401 or 410 that the stream itself reports and after an answer whose text speaks of
   authentication and not of permission, whatever its code. Every other one ends it, but for
   an answer 401 or 403 whose text names neither: that is a passing failure.
   */
  lemma RefusalRelistsIff(cfg: Config, t: Task, s: Signal)
    requires Accepts(t, s) && CodeOf(s).Some? && 400 <= CodeOf(s).value < 500
    ensures OnSignal(cfg, t, s) == Restart(t) <==>
      match ErrorOf(s)
      case None => CodeOf(s).value in {401, 410}
      case Some(e) => !SaysForbidden(e) && (SaysAuth(e) || (s.ListFailed? && CodeOf(s).value in {401, 403}))
    ensures OnSignal(cfg, t, s).phase == Stopped <==>
      match ErrorOf(s)
      case None => CodeOf(s).value !in {401, 410}
      case Some(e) => SaysForbidden(e) || (!SaysAuth(e) && CodeOf(s).value !in {401, 403})
  {
    match s
    case Status(code) => StatusLeads(t, code);
    case ListFailed(e) => ErrorLeads(t, e, Restart(t));
    case WatchRefused(e) => ErrorLeads(t, e, t);
  }

  /** The version a task asks the server to open the watch at. */
  function Asked(t: Task): nat {
    t.version
  }

  /** The name index points at every cached object by its name, and nowhere else. */
  ghost predicate IndexOk(objs: Objects, index: Index) {
    && (forall k <- index :: index[k] in objs && NameKeyOf(objs[index[k]]) == k)
    && (forall u <- objs :: NameKeyOf(objs[u]) in index && index[NameKeyOf(objs[u])] == u)
  }

  ghost predicate KeyedByRow(rows: View) {
    forall u <- rows :: rows[u].uid == u
  }

  // ---------------------------------------------------------------------------
  // The task's own variables, updated in place
  // ---------------------------------------------------------------------------

  class WatchTask {
    const cfg: Config
    var phase: Phase
    var building: View
    var buildingObjs: Objects
    var pageLayout: Option<Layout>
    var pageVersion: Option<nat>
    var version: nat
    var layout: Option<Layout>
    var rows: View
    var objects: Objects
    var byName: Index
    var sent: seq<WatchEvent>
    var terminal: Option<WatchEvent>

    ghost function State(): Task
      reads this
    {
      Task(phase, building, buildingObjs, pageLayout, pageVersion, version,
           layout, rows, objects, byName, sent, terminal)
    }

    constructor (cfg: Config)
      ensures State() == START && this.cfg == cfg
    {
      this.cfg := cfg;
      phase, building, buildingObjs, pageLayout, pageVersion := Listing, map[], map[], None, None;
      version, layout, rows, objects, byName, sent, terminal := 0, None, map[], map[], map[], [], None;
    }

    method Publish(e: WatchEvent)
      modifies this
      ensures State() == Stopping(old(State()), e)
    {
      terminal := Some(e);
      sent := sent + [e];
      phase := Stopped;
    }

    method StartOver()
      modifies this
      ensures State() == Restart(old(State()))
    {
      phase := Listing;
      building := map[];
      buildingObjs := map[];
      pageLayout := None;
      pageVersion := None;
    }

    /** The rows of one page, added to what earlier pages built. */
    method BuildRows(l: Layout, cells: Cells) returns (b: Option<(View, Objects)>)
      ensures b == Build(cfg, l, (building, buildingObjs), cells)
    {
      var sofar := (building, buildingObjs);
      for i := 0 to |cells|
        invariant Build(cfg, l, (building, buildingObjs), cells[..i]) == Some(sofar)
      {
        assert cells[..i + 1][..i] == cells[..i];
        match cells[i] {
          case None =>
            MissingCell(cfg, l, (building, buildingObjs), cells, i);
            return None;
          case Some(o) =>
            sofar := AddObject(cfg, l, sofar, o);
        }
      }
      assert cells[..|cells|] == cells;
      return Some(sofar);
    }

    /** Remember where the listing stands after one page. */
    method KeepPage(l: Layout, v: nat, b: (View, Objects))
      modifies this
      ensures State() == old(State()).(building := b.0, buildingObjs := b.1, pageLayout := Some(l),
                                       pageVersion := if old(pageVersion).Some? then old(pageVersion) else Some(v))
    {
      pageLayout := Some(l);
      if pageVersion.None? { pageVersion := Some(v); }
      building, buildingObjs := b.0, b.1;
    }

    /** One LIST page; the last one commits everything at once. */
    method TakePage(page: Page) returns (order: seq<Row>, index: Index)
      requires phase == Listing
      modifies this
      ensures State() == OnPage(cfg, old(State()), page, order, index)
      ensures phase == Connecting && KeyedByRow(rows) ==> RowsOf(order) == rows
      ensures phase == Connecting && NamesUnique(objects) ==> IndexOk(objects, index)
    {
      order, index := [], map[];
      if !page.isTable {
        Publish(FAILED);
        return;
      }
      if pageLayout.None? { pageLayout := Some(page.layout); }
      var b := BuildRows(pageLayout.value, page.cells);
      if b.None? {
        Publish(FAILED);
        return;
      }
      KeepPage(pageLayout.value, page.version, b.value);
      if !page.more {
        order := SomeOrder(building);
        index := SomeIndex(buildingObjs);
        Commit(order, index);
      }
    }

    /** What is broadcast is what is cached, whatever was cached before. */
    method Commit(order: seq<Row>, index: Index)
      requires pageLayout.Some? && pageVersion.Some?
      modifies this
      ensures State() == Committed(old(State()), order, index)
      ensures RowsOf(order) == old(building) ==> rows == Fold(map[], sent)
    {
      sent := sent + [Snapshot(pageLayout.value.columns, order)];
      version := pageVersion.value;
      layout := pageLayout;
      rows := building;
      objects := buildingObjs;
      byName := index;
      StartOver();
      phase := Connecting;
      if RowsOf(order) == old(building) { CommitMeans(old(State()), order, index); }
    }

    /** Opening the watch: the version to resume from goes out with the request. */
    method OpenWatch() returns (asked: nat)
      modifies this`phase
      ensures phase == Streaming && asked == Asked(old(State())) == version
    {
      asked := version;
      phase := Streaming;
    }

    /** The object has a row exactly when it is shown, no other row changes, and the broadcasts still add up. */
    method PutRow(l: Layout, o: Object)
      modifies this
      ensures State() == PutObject(cfg, l, old(State()), o)
      ensures KeepsUid(cfg) ==> (UidOf(o) in rows <==> cfg.project(l, o).Some?)
      ensures KeepsUid(cfg) ==> rows - {UidOf(o)} == old(rows) - {UidOf(o)}
      ensures KeepsUid(cfg) && old(rows) == Fold(map[], old(sent)) ==> rows == Fold(map[], sent)
      ensures cfg.project(l, o).None? && UidOf(o) !in old(rows) ==> State() == old(State())
    {
      match cfg.project(l, o) {
        case Some(row) =>
          if cfg.caching {
            byName := byName[NameKeyOf(o) := row.uid];
            objects := objects[row.uid := o];
          }
          rows := rows[row.uid := row];
          sent := sent + [Applied(row)];
        case None =>
          var uid := UidOf(o);
          if uid in rows {
            rows := rows - {uid};
            objects := objects - {uid};
            byName := byName - {NameKeyOf(o)};
            sent := sent + [Deleted(uid)];
          }
      }
      if KeepsUid(cfg) { PutMeans(cfg, l, old(State()), o); }
    }

    method RemoveRow(o: Object)
      modifies this
      ensures State() == RemoveObject(cfg, old(State()), o)
      ensures rows == old(rows) - {UidOf(o)}
      ensures old(rows) == Fold(map[], old(sent)) ==> rows == Fold(map[], sent)
    {
      var uid := UidOf(o);
      rows := rows - {uid};
      if cfg.caching {
        objects := objects - {uid};
        byName := byName - {NameKeyOf(o)};
      }
      sent := sent + [Deleted(uid)];
      RemovalMeans(cfg, old(State()), o);
    }

    /** ADDED and MODIFIED: write the caches, then broadcast, one row at a time. */
    method TakeUpsert(v: nat, cells: Cells)
      requires phase == Streaming && layout.Some?
      modifies this
      ensures State() == PutCells(cfg, old(layout).value, old(State()).(version := v), cells)
    {
      version := v;
      var l := layout.value;
      ghost var start := State();
      for i := 0 to |cells|
        invariant State() == PutCells(cfg, l, start, cells[..i])
        invariant phase == Streaming
      {
        assert cells[..i + 1][..i] == cells[..i];
        if cells[i].None? {
          StoppedAt(cfg, l, start, cells, i);
          Publish(FAILED);
          return;
        }
        PutRow(l, cells[i].value);
      }
      assert cells[..|cells|] == cells;
    }

    method TakeRemoval(v: nat, cells: Cells)
      requires phase == Streaming
      modifies this
      ensures State() == RemoveCells(cfg, old(State()).(version := v), cells)
    {
      version := v;
      ghost var start := State();
      for i := 0 to |cells|
        invariant State() == RemoveCells(cfg, start, cells[..i])
      {
        assert cells[..i + 1][..i] == cells[..i];
        if cells[i].Some? { RemoveRow(cells[i].value); }
      }
      assert cells[..|cells|] == cells;
    }

    method TakeStatus(code: nat)
      modifies this
      ensures State() == OnStatus(old(State()), code)
    {
      if code == 410 || code == 401 {
        StartOver();
      } else if code == 403 {
        Publish(FORBIDDEN);
      } else if 400 <= code < 500 {
        Publish(FAILED);
      } else {
        phase := Connecting;
      }
    }

    /** The same failure means a relist while listing and a reconnect afterwards. */
    method TakeError(e: ApiError)
      modifies this
      ensures State() == OnError(old(State()), e,
        if old(phase) == Listing then Restart(old(State())) else old(State()).(phase := Connecting))
    {
      var forbidden := MatchesStatus(e.texts, FORBIDDEN_WORDS);
      var unauthorized := MatchesStatus(e.texts, AUTH_WORDS);
      if forbidden {
        Publish(FORBIDDEN);
      } else if unauthorized {
        StartOver();
      } else if Permanent(e.cause) {
        Publish(FAILED);
      } else if phase == Listing {
        StartOver();
      } else {
        phase := Connecting;
      }
    }

    /** One turn of the task's loops: whatever it is told, it moves as specified, picking the order of its maps. */
    method Take(s: Signal) returns (order: seq<Row>, index: Index)
      requires Accepts(State(), s)
      modifies this
      ensures State() == OnSignal(cfg, old(State()), if s.ListPage? then s.(order := order, index := index) else s)
      ensures s.ListPage? && phase == Connecting && KeyedByRow(rows) ==> RowsOf(order) == rows
      ensures s.ListPage? && phase == Connecting && NamesUnique(objects) ==> IndexOk(objects, index)
    {
      order, index := [], map[];
      match s {
        case ListPage(page, _, _) => order, index := TakePage(page);
        case ListFailed(e) => TakeError(e);
        case WatchOpened => var _ := OpenWatch();
        case WatchRefused(e) => TakeError(e);
        case Upsert(v, cells) => TakeUpsert(v, cells);
        case Removal(v, cells) => TakeRemoval(v, cells);
        case Bookmark(v) => version := v;
        case Status(code) => TakeStatus(code);
        case StreamFailed(e) => TakeError(e);
        case StreamEnded => phase := Connecting;
        case SchemaChanged => StartOver();
      }
    }
  }

  /** The walk along the chain of errors, text by text and word by word. */
  method MatchesStatus(texts: seq<string>, words: seq<string>) returns (found: bool)
    ensures found <==> Mentions(texts, words)
  {
    for i := 0 to |texts|
      invariant !Mentions(texts[..i], words)
    {
      if HasWord(texts[i], words) { return true; }
      assert texts[..i + 1] == texts[..i] + [texts[i]];
    }
    assert texts[..|texts|] == texts;
    return false;
  }

  lemma {:induction false} MissingCell(cfg: Config, l: Layout, b: (View, Objects), cells: Cells, i: nat)
    requires i < |cells| && cells[i] == None
    ensures Build(cfg, l, b, cells) == None
  {
    if i < |cells| - 1 {
      MissingCell(cfg, l, b, cells[..|cells| - 1], i);
    }
  }

  /** Cells after a missing object are not looked at. */
  lemma {:induction false} StoppedAt(cfg: Config, l: Layout, t: Task, cells: Cells, i: nat)
    requires i < |cells| && cells[i] == None && PutCells(cfg, l, t, cells[..i]).phase != Stopped
    ensures PutCells(cfg, l, t, cells) == Stopping(PutCells(cfg, l, t, cells[..i]), FAILED)
  {
    if i < |cells| - 1 {
      assert cells[..|cells| - 1][..i] == cells[..i];
      StoppedAt(cfg, l, t, cells[..|cells| - 1], i);
    }
  }

  /** The rows in the order a hash map happens to yield them. */
  method SomeOrder(rows: View) returns (order: seq<Row>)
    ensures KeyedByRow(rows) ==> RowsOf(order) == rows
  {
    order := [];
    var left := rows.Keys;
    while left != {}
      invariant left <= rows.Keys
      invariant KeyedByRow(rows) ==> RowsOf(order) == rows - left
    {
      var u :| u in left;
      left := left - {u};
      assert (order + [rows[u]])[..|order|] == order;
      order := order + [rows[u]];
    }
    assert rows - {} == rows;
  }

  method SomeIndex(objs: Objects) returns (index: Index)
    ensures NamesUnique(objs) ==> IndexOk(objs, index)
  {
    index := map[];
    var left := objs.Keys;
    while left != {}
      invariant left <= objs.Keys
      invariant forall k <- index :: index[k] in objs && NameKeyOf(objs[index[k]]) == k
      invariant forall u <- objs :: u !in left ==> NameKeyOf(objs[u]) in index
    {
      var u :| u in left;
      left := left - {u};
      index := index[NameKeyOf(objs[u]) := u];
    }
  }
}
