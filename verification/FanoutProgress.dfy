/**
 Subscribers are not left behind: wherever one stands, after any lag, it can go on
 until it has everything the watch task wrote.
 */
module FanoutProgress {
  import opened Wrappers
  import opened Rows
  import opened Fanout

  ghost predicate Keyed(rows: View) {
    forall u <- rows :: rows[u].uid == u
  }

  lemma {:induction false} RowsAreKeyed(rows: seq<Row>)
    ensures Keyed(RowsOf(rows))
  {
    if rows != [] { RowsAreKeyed(rows[..|rows| - 1]); }
  }

  lemma {:induction false} FoldIsKeyed(es: seq<WatchEvent>)
    ensures Keyed(Fold(map[], es))
  {
    if es != [] {
      FoldIsKeyed(es[..|es| - 1]);
      var last := es[|es| - 1];
      if last.Snapshot? { RowsAreKeyed(last.rows); }
    }
  }

  lemma {:induction false} OrderOf(rows: View) returns (order: seq<Row>)
    requires Keyed(rows)
    ensures RowsOf(order) == rows
    decreases |rows|
  {
    if rows == map[] {
      order := [];
    } else {
      var u :| u in rows;
      assert (rows - {u}).Keys == rows.Keys - {u};
      assert |(rows - {u}).Keys| == |rows - {u}| && |rows.Keys| == |rows|;
      var rest := OrderOf(rows - {u});
      order := rest + [rows[u]];
      assert order[..|order| - 1] == rest;
    }
  }

  /** The task has sent all it wrote, and the terminal event if there is one. */
  predicate Flushed(f: Sys) {
    |f.log| >= |f.writes| && (f.terminal.Some? ==> |f.log| > |f.writes|)
  }

  lemma TaskCanFlush(f: Sys) returns (steps: seq<Step>)
    requires LogOk(f)
    ensures Run(f, steps)
    ensures var e := End(f, steps);
      Flushed(e) && e.writes == f.writes && e.terminal == f.terminal && e.subs == f.subs && e.rows == f.rows
  {
    steps := [];
    if |f.log| < |f.writes| {
      RunOfOne(f, TaskSends, []);
      steps := [TaskSends] + [];
    } else if f.terminal.Some? && |f.log| == |f.writes| {
      RunOfOne(f, TaskSendsTerminal, []);
      steps := [TaskSendsTerminal] + [];
    }
  }

  function Rank(stage: Stage): nat {
    match stage
    case Attached => 3
    case Reading => 2
    case Lagged => 1
    case Live => 0
  }

  /** The next thing for a subscriber to do. */
  function Next(f: Sys, s: nat, order: seq<Row>): Step
    requires s in f.subs
  {
    var b := f.subs[s];
    match b.stage
    case Attached => ReadRows(s, order)
    case Reading => ReadTerminal(s)
    case Lagged => Resync(s, order)
    case Live => if !b.replaced && |f.log| - b.next > 512 then Lag(s) else Receive(s)
  }

  /** Nothing that a subscriber does is seen by the task or by the others. */
  lemma NextIsItsOwn(f: Sys, s: nat, order: seq<Row>)
    requires Inv(f) && s in f.subs && RowsOf(order) == f.rows && Flushed(f) && !Drained(f, s)
    ensures Enabled(f, Next(f, s, order))
    ensures var f' := Apply(f, Next(f, s, order));
      && f' == f.(subs := f'.subs) && f'.subs.Keys == f.subs.Keys
      && (forall u <- f.subs :: u != s ==> f'.subs[u] == f.subs[u])
  {
    assert SubOk(f, f.subs[s]);
  }

  lemma NextGoesOn(f: Sys, s: nat, order: seq<Row>)
    requires Inv(f) && s in f.subs && RowsOf(order) == f.rows && Flushed(f) && !Drained(f, s)
    requires Enabled(f, Next(f, s, order)) && s in Apply(f, Next(f, s, order)).subs
    ensures var b, b' := f.subs[s], Apply(f, Next(f, s, order)).subs[s];
      && b.next <= |f.log| && b'.next <= |f.log|
      && (b'.next > b.next
          || (b'.next == b.next && Rank(b'.stage) < Rank(b.stage))
          || (b'.next == b.next && b'.stage == b.stage && |b'.private| < |b.private|))
  {
    assert SubOk(f, f.subs[s]);
  }

  lemma {:induction false} SubscriberGoesOn(f: Sys, s: nat) returns (steps: seq<Step>)
    requires Inv(f) && s in f.subs && Keyed(f.rows) && Flushed(f)
    ensures Run(f, steps) && Drained(End(f, steps), s)
    ensures End(f, steps) == f.(subs := End(f, steps).subs)
    ensures End(f, steps).subs.Keys == f.subs.Keys
    ensures forall u <- f.subs :: u != s ==> End(f, steps).subs[u] == f.subs[u]
    decreases |f.log| - f.subs[s].next, Rank(f.subs[s].stage), |f.subs[s].private|
  {
    steps := [];
    if !Drained(f, s) {
      var order := OrderOf(f.rows);
      var st := Next(f, s, order);
      NextIsItsOwn(f, s, order);
      NextGoesOn(f, s, order);
      StepKeepsInv(f, st);
      var rest := SubscriberGoesOn(Apply(f, st), s);
      RunOfOne(f, st, rest);
      steps := [st] + rest;
    }
  }

  /** Without another write everything is sent and the subscriber has taken it; no other one notices. */
  ghost predicate WentOn(f: Sys, e: Sys, s: nat) {
    && Drained(e, s) && Flushed(e) && e.writes == f.writes && e.terminal == f.terminal && e.rows == f.rows
    && (forall u <- f.subs :: u != s ==> u in e.subs && e.subs[u] == f.subs[u])
  }

  lemma FlushAndDrain(f: Sys, s: nat) returns (steps: seq<Step>)
    requires Inv(f) && s in f.subs && Keyed(f.rows)
    ensures Run(f, steps) && WentOn(f, End(f, steps), s)
  {
    var flush := TaskCanFlush(f);
    RunKeepsInv(f, flush);
    var rest := SubscriberGoesOn(End(f, flush), s);
    RunThen(f, flush, rest);
    steps := flush + rest;
  }

  /** What a subscriber has that went on: the rows, or the terminal event. */
  lemma WhatItHas(steps: seq<Step>, s: nat)
    requires Run(START, steps) && Drained(End(START, steps), s) && Flushed(End(START, steps))
    ensures !End(START, steps).subs[s].replaced ==> Fold(map[], End(START, steps).subs[s].given) == End(START, steps).rows
    ensures End(START, steps).terminal.Some? ==> Terminals(End(START, steps).subs[s].given) == 1
  {
    TerminalIsSeenOnce(steps, s);
    if !End(START, steps).subs[s].replaced { DrainedSubscriberHasTheRows(steps, s); }
  }

  /**
   In every run every subscriber can be drained without another write: it then has the
   cached rows, or the terminal event, and no other subscriber notices.
   */
  lemma EverySubscriberCanCatchUp(before: seq<Step>, s: nat) returns (more: seq<Step>)
    requires Run(START, before) && s in End(START, before).subs
    ensures Run(START, before + more)
    ensures WentOn(End(START, before), End(START, before + more), s)
    ensures !End(START, before + more).subs[s].replaced ==>
      Fold(map[], End(START, before + more).subs[s].given) == End(START, before).rows
    ensures End(START, before).terminal.Some? ==> Terminals(End(START, before + more).subs[s].given) == 1
  {
    RunKeepsInv(START, before);
    FoldIsKeyed(End(START, before).writes);
    more := FlushAndDrain(End(START, before), s);
    RunThen(START, before, more);
    WhatItHas(before + more, s);
  }
}
