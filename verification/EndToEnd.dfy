/**
 From the API server to the rows a browser shows: watch task, broadcast,
 subscriber and animated table put together.
 */
module EndToEnd {
  import opened Wrappers
  import opened Rows
  import opened Server
  import opened Informer
  import InformerRun
  import Fanout
  import RowTable
  import MergedTable

  /** One subscriber has received all that the task broadcast, and the table has taken all of it. */
  ghost predicate HeardByTable(e: InformerRun.Sys, fanSteps: seq<Fanout.Step>, s: nat, ops: seq<RowTable.Op>) {
    && Fanout.Run(Fanout.START, fanSteps) && RowTable.Runs(RowTable.EMPTY, ops)
    && var f := Fanout.End(Fanout.START, fanSteps);
    && f.writes == e.task.sent && Fanout.Drained(f, s) && !f.subs[s].replaced
    && RowTable.EventsIn(ops) == f.subs[s].given
  }

  /** The table shows the server at the version of the task, and the server as it is when nothing changed since. */
  ghost predicate ShowsTheServer(cfg: Config, e: InformerRun.Sys, ops: seq<RowTable.Op>)
    requires e.task.layout.Some? && RowTable.Runs(RowTable.EMPTY, ops)
  {
    var shown := RowTable.Visible(RowTable.After(RowTable.EMPTY, ops));
    && e.task.version <= |e.history|
    && shown == InformerRun.ShownRows(cfg, e.task.layout.value, Contents(e.history, e.task.version))
    && (Quiet(e.history, e.task.version, |e.history|) ==>
          shown == InformerRun.ShownRows(cfg, e.task.layout.value, Contents(e.history, |e.history|)))
  }

  /**
   When the watch task has consumed everything that happened, its broadcasts have all
   been received and no terminal event was found, the table shows exactly the
   projection of the server's objects, wherever timers and transitions stand.
   */
  lemma TableShowsTheServer(
    cfg: Config, init: InformerRun.Sys, taskSteps: seq<InformerRun.Step>,
    fanSteps: seq<Fanout.Step>, s: nat, ops: seq<RowTable.Op>)
    requires KeepsUid(cfg) && InformerRun.Init(init) && InformerRun.Run(cfg, init, taskSteps)
    requires InformerRun.End(cfg, init, taskSteps).task.layout.Some?
    requires InformerRun.End(cfg, init, taskSteps).task.phase != Stopped
    requires HeardByTable(InformerRun.End(cfg, init, taskSteps), fanSteps, s, ops)
    ensures ShowsTheServer(cfg, InformerRun.End(cfg, init, taskSteps), ops)
  {
    var e := InformerRun.End(cfg, init, taskSteps);
    InformerRun.RowsAreTheServersRows(cfg, init, taskSteps);
    InformerRun.SentEventsAddUpToRows(cfg, init, taskSteps);
    Fanout.DrainedSubscriberHasTheRows(fanSteps, s);
    Fanout.RowsAreTheWrites(fanSteps);
    RowTable.TableRefinesFold(RowTable.EMPTY, ops);
    assert RowTable.Visible(RowTable.EMPTY) == map[];
    if Quiet(e.history, e.task.version, |e.history|) {
      QuietContents(e.history, e.task.version, |e.history|);
    }
  }

  function Heard(given: seq<WatchEvent>): seq<RowTable.Op> {
    if given == [] then [] else [RowTable.Event(given[0])] + Heard(given[1..])
  }

  lemma {:induction false} HeardIsARun(t: RowTable.Table, given: seq<WatchEvent>)
    ensures RowTable.Runs(t, Heard(given)) && RowTable.EventsIn(Heard(given)) == given
    decreases |given|
  {
    if given != [] {
      var ops := Heard(given);
      assert ops[1..] == Heard(given[1..]);
      HeardIsARun(RowTable.Do(t, ops[0]), given[1..]);
    }
  }

  /**
   The composition is never empty: behind every run of a watch task that has committed and
   not stopped there are subscribers and a table as `TableShowsTheServer` asks for.
   */
  lemma EveryTaskRunReachesATable(cfg: Config, init: InformerRun.Sys, taskSteps: seq<InformerRun.Step>)
    returns (fanSteps: seq<Fanout.Step>, ops: seq<RowTable.Op>)
    requires KeepsUid(cfg) && InformerRun.Init(init) && InformerRun.Run(cfg, init, taskSteps)
    requires InformerRun.End(cfg, init, taskSteps).task.layout.Some?
    requires InformerRun.End(cfg, init, taskSteps).task.phase != Stopped
    ensures HeardByTable(InformerRun.End(cfg, init, taskSteps), fanSteps, 0, ops)
    ensures ShowsTheServer(cfg, InformerRun.End(cfg, init, taskSteps), ops)
  {
    InformerRun.BroadcastsBeginWithASnapshot(cfg, init, taskSteps);
    fanSteps := Fanout.SomeSubscriberKeepsUp(InformerRun.End(cfg, init, taskSteps).task.sent);
    var f := Fanout.End(Fanout.START, fanSteps);
    ops := Heard(f.subs[0].given);
    HeardIsARun(RowTable.EMPTY, f.subs[0].given);
    TableShowsTheServer(cfg, init, taskSteps, fanSteps, 0, ops);
  }

  /** The same for one kind inside a merged table, whatever the other kinds do. */
  lemma MergedTableShowsTheServer(
    cfg: Config, init: InformerRun.Sys, taskSteps: seq<InformerRun.Step>,
    fanSteps: seq<Fanout.Step>, s: nat, kind: string, ops: seq<MergedTable.Op>, uid: string)
    requires KeepsUid(cfg) && InformerRun.Init(init) && InformerRun.Run(cfg, init, taskSteps)
    requires InformerRun.End(cfg, init, taskSteps).task.layout.Some?
    requires InformerRun.End(cfg, init, taskSteps).task.phase != Stopped
    requires Fanout.Run(Fanout.START, fanSteps)
    requires Fanout.End(Fanout.START, fanSteps).writes == InformerRun.End(cfg, init, taskSteps).task.sent
    requires Fanout.Drained(Fanout.End(Fanout.START, fanSteps), s)
    requires !Fanout.End(Fanout.START, fanSteps).subs[s].replaced
    requires MergedTable.IsKindKey(kind) && (forall op <- ops :: op.Event? ==> MergedTable.IsKindKey(op.kind))
    requires MergedTable.EventsOf(ops, kind) == Fanout.End(Fanout.START, fanSteps).subs[s].given
    ensures var e := InformerRun.End(cfg, init, taskSteps);
      e.task.version <= |e.history|
      && MergedTable.Shown(MergedTable.After(MergedTable.EMPTY, ops), kind, uid)
      == MergedTable.WithKind(kind,
           Lookup(InformerRun.ShownRows(cfg, e.task.layout.value, Contents(e.history, e.task.version)), uid))
  {
    InformerRun.RowsAreTheServersRows(cfg, init, taskSteps);
    InformerRun.SentEventsAddUpToRows(cfg, init, taskSteps);
    Fanout.DrainedSubscriberHasTheRows(fanSteps, s);
    Fanout.RowsAreTheWrites(fanSteps);
    MergedTable.KindsDoNotInterfere(ops, kind, uid);
  }
}
