/**
 One informer and its subscribers. The watch task writes the row cache and then
 broadcasts, in two steps; before it ends it writes the terminal event and then
 broadcasts that. A subscriber takes its receiver, reads the cached rows, reads
 the terminal event, and only then starts to receive. All of this interleaves. The
 task's first write is the snapshot of its first complete listing.
 */
module Fanout {
  import opened Wrappers
  import opened Rows

  /** Broadcast backlog: a receiver further behind than this loses its oldest events. */
  const CHANNEL_CAP := 512

  datatype Stage = Attached | Reading | Live | Lagged

  /**
   `next` is the receiver's position in the broadcast log. `given` is everything
   handed to the client, `copy` what a plain client makes of it. A subscriber that
   found a terminal event listens to a private channel holding just that event:
   `private` is what is left in it. `atWrite` is a history variable: the number
   of cache writes when the rows were read.
   */
  datatype Sub = Sub(
    stage: Stage,
    next: nat,
    copy: View,
    given: seq<WatchEvent>,
    replaced: bool,
    private: seq<WatchEvent>,
    terminals: nat,
    atWrite: nat)

  /** `writes` are the cache writes so far, `log` what has been broadcast. */
  datatype Sys = Sys(
    writes: seq<WatchEvent>,
    rows: View,
    terminal: Option<WatchEvent>,
    log: seq<WatchEvent>,
    subs: map<nat, Sub>)

  const START := Sys([], map[], None, [], map[])

  datatype Step =
    | TaskWrites(event: WatchEvent)
    | TaskSends
    | TaskWritesTerminal(event: WatchEvent)
    | TaskSendsTerminal
    | Attach(s: nat)
    | ReadRows(s: nat, order: seq<Row>)
    | ReadTerminal(s: nat)
    | Receive(s: nat)
    | Lag(s: nat)
    | Resync(s: nat, order: seq<Row>)

  predicate IsTerminal(e: WatchEvent) {
    e.Forbidden? || e.Failed?
  }

  predicate Enabled(f: Sys, st: Step) {
    match st
    case TaskWrites(e) =>
      !IsTerminal(e) && f.terminal.None? && |f.log| == |f.writes| && (f.writes == [] ==> e.Snapshot?)
    case TaskSends => |f.log| < |f.writes|
    case TaskWritesTerminal(e) => IsTerminal(e) && f.terminal.None? && |f.log| == |f.writes|
    case TaskSendsTerminal => f.terminal.Some? && |f.log| == |f.writes|
    case Attach(s) => s !in f.subs
    case ReadRows(s, order) => s in f.subs && f.subs[s].stage == Attached && RowsOf(order) == f.rows
    case ReadTerminal(s) => s in f.subs && f.subs[s].stage == Reading
    case Receive(s) =>
      s in f.subs && f.subs[s].stage == Live &&
      if f.subs[s].replaced then f.subs[s].private != []
      else f.subs[s].next < |f.log| && |f.log| - f.subs[s].next <= CHANNEL_CAP
    case Lag(s) =>
      s in f.subs && f.subs[s].stage == Live && !f.subs[s].replaced
      && f.subs[s].next < |f.log| && |f.log| - f.subs[s].next > CHANNEL_CAP
    case Resync(s, order) => s in f.subs && f.subs[s].stage == Lagged && RowsOf(order) == f.rows
  }

  function Give(b: Sub, e: WatchEvent): Sub {
    b.(copy := FoldEvent(b.copy, e), given := b.given + [e], terminals := b.terminals + if IsTerminal(e) then 1 else 0)
  }

  function Apply(f: Sys, st: Step): Sys
    requires Enabled(f, st)
  {
    match st
    case TaskWrites(e) => f.(writes := f.writes + [e], rows := FoldEvent(f.rows, e))
    case TaskSends => f.(log := f.log + [f.writes[|f.log|]])
    case TaskWritesTerminal(e) => f.(terminal := Some(e))
    case TaskSendsTerminal => f.(log := f.log + [f.terminal.value])
    case Attach(s) => f.(subs := f.subs[s := Sub(Attached, |f.log|, map[], [], false, [], 0, 0)])
    case ReadRows(s, order) =>
      f.(subs := f.subs[s := Give(f.subs[s], Snapshot([], order)).(stage := Reading, atWrite := |f.writes|)])
    case ReadTerminal(s) =>
      var b := f.subs[s].(stage := Live);
      f.(subs := f.subs[s := if f.terminal.Some? then b.(replaced := true, private := [f.terminal.value]) else b])
    case Receive(s) =>
      var b := f.subs[s];
      f.(subs := f.subs[s :=
        if b.replaced then Give(b, b.private[0]).(private := b.private[1..])
        else Give(b, f.log[b.next]).(next := b.next + 1)])
    case Lag(s) => f.(subs := f.subs[s := f.subs[s].(stage := Lagged, next := |f.log| - CHANNEL_CAP)])
    case Resync(s, order) =>
      f.(subs := f.subs[s := Give(f.subs[s], Snapshot([], order)).(stage := Live, atWrite := |f.writes|)])
  }

  // ---------------------------------------------------------------------------
  // Invariant
  // ---------------------------------------------------------------------------

  /** The cache writes a receiver at this position has yet to hear about. */
  function Ahead(f: Sys, next: nat): seq<WatchEvent> {
    if next <= |f.writes| then f.writes[next..] else []
  }

  /** The log is the writes, at most one behind, and then the terminal event. */
  predicate LogOk(f: Sys) {
    && f.rows == Fold(map[], f.writes)
    && (forall e <- f.writes :: !IsTerminal(e))
    && (f.terminal.Some? ==> IsTerminal(f.terminal.value) && |f.log| >= |f.writes|)
    && (|f.log| <= |f.writes| || (f.terminal.Some? && |f.log| == |f.writes| + 1 && f.log[|f.writes|] == f.terminal.value))
    && |f.writes| <= |f.log| + 1
    && (forall i | 0 <= i < |f.log| && i < |f.writes| :: f.log[i] == f.writes[i])
  }

  function Terminals(es: seq<WatchEvent>): nat {
    if es == [] then 0
    else Terminals(es[..|es| - 1]) + if IsTerminal(es[|es| - 1]) then 1 else 0
  }

  /** The copy is what a plain client makes of what it was given. */
  predicate CopyOk(b: Sub) {
    b.copy == Fold(map[], b.given) && b.terminals == Terminals(b.given)
  }

  /** What separates the copy from the cache: nothing but what is still to be received. */
  predicate DebtOk(f: Sys, b: Sub) {
    && (b.stage == Reading || b.replaced ==> b.atWrite <= |f.writes| && f.rows == Fold(b.copy, f.writes[b.atWrite..]))
    && ((b.stage == Live || b.stage == Reading) && !b.replaced ==> f.rows == Fold(b.copy, Ahead(f, b.next)))
  }

  /** Where the receiver stands, and how many terminal events it has had. */
  predicate PlaceOk(f: Sys, b: Sub) {
    && b.next <= |f.log|
    && (b.stage == Attached || b.stage == Reading ==> b.terminals == 0 && !b.replaced)
    && (b.replaced ==>
          f.terminal.Some? && b.stage == Live && b.terminals + |b.private| == 1 && (forall e <- b.private :: IsTerminal(e)))
    && ((b.stage == Live || b.stage == Lagged) && !b.replaced ==>
          b.terminals == if b.next <= |f.writes| then 0 else 1)
  }

  predicate SubOk(f: Sys, b: Sub) {
    CopyOk(b) && DebtOk(f, b) && PlaceOk(f, b)
  }

  ghost predicate Inv(f: Sys) {
    LogOk(f) && forall s <- f.subs :: SubOk(f, f.subs[s])
  }

  /** Reading the cache after taking the receiver: what was missed is already in it. */
  lemma CacheAbsorbsAhead(f: Sys, next: nat)
    requires LogOk(f)
    ensures f.rows == Fold(f.rows, Ahead(f, next))
  {
    if next <= |f.writes| {
      assert f.writes[..next] + f.writes[next..] == f.writes;
      FoldConcat(map[], f.writes[..next], f.writes[next..]);
      ReplayIsAbsorbed(Fold(map[], f.writes[..next]), f.writes[next..]);
    }
  }

  /** One more write is one more event that every debt contains. */
  lemma WriteKeepsSubOk(f: Sys, b: Sub, e: WatchEvent)
    requires LogOk(f) && SubOk(f, b) && Enabled(f, TaskWrites(e))
    ensures SubOk(Apply(f, TaskWrites(e)), b)
  {
    var f' := Apply(f, TaskWrites(e));
    if b.atWrite <= |f.writes| {
      assert f'.writes[b.atWrite..] == f.writes[b.atWrite..] + [e];
      FoldAppend(b.copy, f.writes[b.atWrite..], e);
    }
    assert Ahead(f', b.next) == Ahead(f, b.next) + [e];
    FoldAppend(b.copy, Ahead(f, b.next), e);
  }

  lemma TaskWriteKeepsInv(f: Sys, e: WatchEvent)
    requires Inv(f) && Enabled(f, TaskWrites(e))
    ensures Inv(Apply(f, TaskWrites(e)))
  {
    var f' := Apply(f, TaskWrites(e));
    FoldAppend(map[], f.writes, e);
    forall s | s in f'.subs ensures SubOk(f', f'.subs[s]) {
      WriteKeepsSubOk(f, f.subs[s], e);
    }
  }

  lemma TaskOtherKeepsInv(f: Sys, st: Step)
    requires Inv(f) && Enabled(f, st) && (st.TaskSends? || st.TaskWritesTerminal? || st.TaskSendsTerminal?)
    ensures Inv(Apply(f, st))
  {
    var f' := Apply(f, st);
    forall s | s in f'.subs ensures SubOk(f', f'.subs[s]) {
      assert SubOk(f, f.subs[s]) && Ahead(f', f.subs[s].next) == Ahead(f, f.subs[s].next);
    }
  }

  lemma OthersUntouched(f: Sys, s: nat, b: Sub)
    requires Inv(f) && SubOk(f, b)
    ensures Inv(f.(subs := f.subs[s := b]))
  {
    var f' := f.(subs := f.subs[s := b]);
    forall u | u in f'.subs ensures SubOk(f', f'.subs[u]) {
      if u != s { assert SubOk(f, f.subs[u]); }
      assert Ahead(f', f'.subs[u].next) == Ahead(f, f'.subs[u].next);
    }
  }

  lemma GiveAppends(b: Sub, e: WatchEvent)
    requires CopyOk(b)
    ensures CopyOk(Give(b, e))
  {
    FoldAppend(map[], b.given, e);
    assert (b.given + [e])[..|b.given|] == b.given;
  }

  lemma ReadRowsKeepsInv(f: Sys, s: nat, order: seq<Row>)
    requires Inv(f) && Enabled(f, ReadRows(s, order))
    ensures Inv(Apply(f, ReadRows(s, order)))
  {
    assert SubOk(f, f.subs[s]);
    GiveAppends(f.subs[s], Snapshot([], order));
    CacheAbsorbsAhead(f, f.subs[s].next);
    assert f.writes[|f.writes|..] == [];
    OthersUntouched(f, s, Apply(f, ReadRows(s, order)).subs[s]);
  }

  lemma ResyncKeepsInv(f: Sys, s: nat, order: seq<Row>)
    requires Inv(f) && Enabled(f, Resync(s, order))
    ensures Inv(Apply(f, Resync(s, order)))
  {
    assert SubOk(f, f.subs[s]);
    GiveAppends(f.subs[s], Snapshot([], order));
    CacheAbsorbsAhead(f, f.subs[s].next);
    OthersUntouched(f, s, Apply(f, Resync(s, order)).subs[s]);
  }

  /** A received write is one write less to hear about; the terminal event leaves nothing. */
  lemma AheadShrinks(f: Sys, next: nat, copy: View)
    requires LogOk(f) && next < |f.log|
    ensures Fold(FoldEvent(copy, f.log[next]), Ahead(f, next + 1)) == Fold(copy, Ahead(f, next))
  {
    if next < |f.writes| {
      FoldFirst(copy, Ahead(f, next));
      assert Ahead(f, next)[0] == f.log[next] && Ahead(f, next)[1..] == Ahead(f, next + 1);
    } else {
      assert IsTerminal(f.log[next]);
      assert Ahead(f, next) == [] && Ahead(f, next + 1) == [];
    }
  }

  lemma BroadcastKeepsPlace(f: Sys, b: Sub)
    requires LogOk(f) && PlaceOk(f, b) && b.stage == Live && !b.replaced && b.next < |f.log|
    ensures PlaceOk(f, Give(b, f.log[b.next]).(next := b.next + 1))
  {
    if b.next < |f.writes| {
      assert f.writes[b.next] in f.writes;
    }
  }

  lemma LiveDebt(f: Sys, b: Sub)
    requires b.stage == Live && !b.replaced && f.rows == Fold(b.copy, Ahead(f, b.next))
    ensures DebtOk(f, b)
  {
  }

  lemma BroadcastKeepsDebt(f: Sys, b: Sub)
    requires LogOk(f) && DebtOk(f, b) && b.stage == Live && !b.replaced && b.next < |f.log|
    ensures DebtOk(f, Give(b, f.log[b.next]).(next := b.next + 1))
  {
    assert f.rows == Fold(b.copy, Ahead(f, b.next));
    AheadShrinks(f, b.next, b.copy);
    LiveDebt(f, Give(b, f.log[b.next]).(next := b.next + 1));
  }

  /** The next broadcast event takes the receiver one write further, or is the terminal one. */
  lemma BroadcastKeepsSubOk(f: Sys, b: Sub)
    requires LogOk(f) && SubOk(f, b) && b.stage == Live && !b.replaced && b.next < |f.log|
    ensures SubOk(f, Give(b, f.log[b.next]).(next := b.next + 1))
  {
    var e := f.log[b.next];
    GiveAppends(b, e);
    BroadcastKeepsDebt(f, b);
    BroadcastKeepsPlace(f, b);
    assert CopyOk(Give(b, e).(next := b.next + 1));
  }

  /** A terminal event changes nothing in the copy. */
  lemma TerminalKeepsDebt(f: Sys, b: Sub, e: WatchEvent, private: seq<WatchEvent>)
    requires DebtOk(f, b) && b.replaced && IsTerminal(e)
    ensures DebtOk(f, Give(b, e).(private := private))
  {
    assert Give(b, e).copy == b.copy;
  }

  lemma PrivateKeepsPlace(f: Sys, b: Sub)
    requires PlaceOk(f, b) && b.replaced && b.private != []
    ensures PlaceOk(f, Give(b, b.private[0]).(private := b.private[1..]))
  {
    assert b.private[0] in b.private;
  }

  lemma PrivateKeepsSubOk(f: Sys, b: Sub)
    requires LogOk(f) && SubOk(f, b) && b.replaced && b.private != []
    ensures SubOk(f, Give(b, b.private[0]).(private := b.private[1..]))
  {
    var e := b.private[0];
    GiveAppends(b, e);
    TerminalKeepsDebt(f, b, e, b.private[1..]);
    PrivateKeepsPlace(f, b);
    assert CopyOk(Give(b, e).(private := b.private[1..]));
  }

  lemma ReceiveKeepsInv(f: Sys, s: nat)
    requires Inv(f) && Enabled(f, Receive(s))
    ensures Inv(Apply(f, Receive(s)))
  {
    var b := f.subs[s];
    assert SubOk(f, b);
    if b.replaced {
      PrivateKeepsSubOk(f, b);
      OthersUntouched(f, s, Give(b, b.private[0]).(private := b.private[1..]));
    } else {
      BroadcastKeepsSubOk(f, b);
      OthersUntouched(f, s, Give(b, f.log[b.next]).(next := b.next + 1));
    }
  }

  lemma StepKeepsInv(f: Sys, st: Step)
    requires Inv(f) && Enabled(f, st)
    ensures Inv(Apply(f, st))
  {
    match st
    case TaskWrites(e) => TaskWriteKeepsInv(f, e);
    case Attach(s) => OthersUntouched(f, s, Apply(f, st).subs[s]);
    case ReadRows(s, order) => ReadRowsKeepsInv(f, s, order);
    case ReadTerminal(s) =>
      assert SubOk(f, f.subs[s]);
      OthersUntouched(f, s, Apply(f, st).subs[s]);
    case Receive(s) => ReceiveKeepsInv(f, s);
    case Lag(s) =>
      assert SubOk(f, f.subs[s]);
      OthersUntouched(f, s, Apply(f, st).subs[s]);
    case Resync(s, order) => ResyncKeepsInv(f, s, order);
    case _ => TaskOtherKeepsInv(f, st);
  }

  // ---------------------------------------------------------------------------
  // Whole runs
  // ---------------------------------------------------------------------------

  ghost predicate Run(f: Sys, steps: seq<Step>)
    decreases |steps|
  {
    steps == [] || (Enabled(f, steps[0]) && Run(Apply(f, steps[0]), steps[1..]))
  }

  ghost function End(f: Sys, steps: seq<Step>): Sys
    requires Run(f, steps)
    decreases |steps|
  {
    if steps == [] then f else End(Apply(f, steps[0]), steps[1..])
  }

  lemma {:induction false} RunKeepsInv(f: Sys, steps: seq<Step>)
    requires Inv(f) && Run(f, steps)
    ensures Inv(End(f, steps))
    decreases |steps|
  {
    if steps != [] {
      StepKeepsInv(f, steps[0]);
      RunKeepsInv(Apply(f, steps[0]), steps[1..]);
    }
  }

  lemma RowsAreTheWrites(steps: seq<Step>)
    requires Run(START, steps)
    ensures End(START, steps).rows == Fold(map[], End(START, steps).writes)
  {
    RunKeepsInv(START, steps);
  }

  /** The task has broadcast everything it wrote and the receiver has read everything broadcast. */
  predicate Drained(f: Sys, s: nat) {
    s in f.subs && f.subs[s].stage == Live && |f.log| >= |f.writes|
    && if f.subs[s].replaced then f.subs[s].private == [] else f.subs[s].next == |f.log|
  }

  /**
   Convergence: wherever the subscription fell between cache writes and broadcasts,
   and however often the receiver lagged, a drained subscriber that found no
   terminal event holds exactly the cached rows.
   */
  lemma DrainedSubscriberHasTheRows(steps: seq<Step>, s: nat)
    requires Run(START, steps) && Drained(End(START, steps), s) && !End(START, steps).subs[s].replaced
    ensures Fold(map[], End(START, steps).subs[s].given) == End(START, steps).rows
  {
    RunKeepsInv(START, steps);
    var f := End(START, steps);
    assert SubOk(f, f.subs[s]);
    assert Ahead(f, f.subs[s].next) == [];
  }

  /** The later events decide no uid, or decide it as the copy has it. */
  predicate SaysAgain(copy: View, later: seq<WatchEvent>, uid: string) {
    FinalWord(later, uid) == None || FinalWord(later, uid) == Some(Lookup(copy, uid))
  }

  lemma SameRowsIffSaidAgain(copy: View, later: seq<WatchEvent>)
    ensures Fold(copy, later) == copy <==> forall uid :: SaysAgain(copy, later, uid)
  {
    forall uid ensures SaysAgain(copy, later, uid) <==> Lookup(Fold(copy, later), uid) == Lookup(copy, uid) {
      FoldIsFinalWord(copy, later, uid);
    }
    if forall uid :: SaysAgain(copy, later, uid) {
      SameLookups(Fold(copy, later), copy);
    }
  }

  /**
   A subscriber that did find a terminal event is left with the rows it read. It holds the
   final rows exactly when, for every uid, the last of the writes that landed after its
   read says what it had read, or none of them speaks of the uid.
   */
  lemma EndedSubscriberKeepsItsSnapshot(steps: seq<Step>, s: nat)
    requires Run(START, steps) && s in End(START, steps).subs && End(START, steps).subs[s].replaced
    ensures var f := End(START, steps);
      var b := f.subs[s];
      b.atWrite <= |f.writes|
      && (Fold(map[], b.given) == f.rows <==> forall uid :: SaysAgain(b.copy, f.writes[b.atWrite..], uid))
  {
    RunKeepsInv(START, steps);
    var f := End(START, steps);
    assert SubOk(f, f.subs[s]);
    SameRowsIffSaidAgain(f.subs[s].copy, f.writes[f.subs[s].atWrite..]);
  }

  /** The terminal event is seen exactly once by every drained subscriber, and never before it is written. */
  lemma TerminalIsSeenOnce(steps: seq<Step>, s: nat)
    requires Run(START, steps) && s in End(START, steps).subs
    ensures var f := End(START, steps);
      var seen := Terminals(f.subs[s].given);
      seen <= 1
      && (f.terminal.None? ==> seen == 0)
      && (Drained(f, s) && (f.subs[s].replaced || |f.log| > |f.writes|) ==> seen == 1)
  {
    RunKeepsInv(START, steps);
    var f := End(START, steps);
    assert SubOk(f, f.subs[s]);
  }

  lemma RunOfOne(f: Sys, a: Step, rest: seq<Step>)
    requires Enabled(f, a) && Run(Apply(f, a), rest)
    ensures Run(f, [a] + rest) && End(f, [a] + rest) == End(Apply(f, a), rest)
  {
    assert ([a] + rest)[1..] == rest;
  }

  lemma {:induction false} RunThen(f: Sys, a: seq<Step>, b: seq<Step>)
    requires Run(f, a) && Run(End(f, a), b)
    ensures Run(f, a + b) && End(f, a + b) == End(End(f, a), b)
    decreases |a|
  {
    if a == [] {
      assert a + b == b;
    } else {
      RunThen(Apply(f, a[0]), a[1..], b);
      assert (a + b)[1..] == a[1..] + b;
    }
  }

  lemma RunAndOne(f: Sys, steps: seq<Step>, st: Step)
    requires Run(f, steps) && Enabled(End(f, steps), st)
    ensures Run(f, steps + [st]) && End(f, steps + [st]) == Apply(End(f, steps), st)
  {
    RunOfOne(End(f, steps), st, []);
    assert [st] + [] == [st];
    RunThen(f, steps, [st]);
  }

  // ---------------------------------------------------------------------------
  // Every task's broadcasts can be followed
  // ---------------------------------------------------------------------------

  /** A subscriber that keeps up with everything the task writes. */
  predicate KeepsUp(f: Sys, s: nat, writes: seq<WatchEvent>) {
    && f.writes == writes && |f.log| == |writes| && f.terminal.None?
    && Drained(f, s) && !f.subs[s].replaced && f.subs[s].given == [Snapshot([], [])] + writes
  }

  lemma OneMoreHeard(f: Sys, s: nat, writes: seq<WatchEvent>, e: WatchEvent) returns (steps: seq<Step>)
    requires KeepsUp(f, s, writes) && !IsTerminal(e) && (writes == [] ==> e.Snapshot?)
    ensures Run(f, steps) && KeepsUp(End(f, steps), s, writes + [e])
  {
    var f1 := Apply(f, TaskWrites(e));
    var f2 := Apply(f1, TaskSends);
    assert f2.log[|writes|] == e && Enabled(f2, Receive(s));
    RunOfOne(f2, Receive(s), []);
    RunOfOne(f1, TaskSends, [Receive(s)] + []);
    RunOfOne(f, TaskWrites(e), [TaskSends] + ([Receive(s)] + []));
    steps := [TaskWrites(e)] + ([TaskSends] + ([Receive(s)] + []));
    var g := Apply(f2, Receive(s));
    assert g.subs[s].given == [Snapshot([], [])] + writes + [e];
    assert g.subs[s].given == [Snapshot([], [])] + (writes + [e]);
  }

  /** Any broadcasts a task makes before it ends can be heard to the last one. */
  lemma {:induction false} SomeSubscriberKeepsUp(writes: seq<WatchEvent>) returns (steps: seq<Step>)
    requires (forall e <- writes :: !IsTerminal(e)) && (writes != [] ==> writes[0].Snapshot?)
    ensures Run(START, steps) && KeepsUp(End(START, steps), 0, writes)
  {
    if writes == [] {
      var f1 := Apply(START, Attach(0));
      var f2 := Apply(f1, ReadRows(0, []));
      assert f2.subs[0].given == [Snapshot([], [])] && f2.subs[0].stage == Reading;
      RunOfOne(f2, ReadTerminal(0), []);
      RunOfOne(f1, ReadRows(0, []), [ReadTerminal(0)] + []);
      RunOfOne(START, Attach(0), [ReadRows(0, [])] + ([ReadTerminal(0)] + []));
      steps := [Attach(0)] + ([ReadRows(0, [])] + ([ReadTerminal(0)] + []));
    } else {
      var init, last := writes[..|writes| - 1], writes[|writes| - 1];
      var before := SomeSubscriberKeepsUp(init);
      var one := OneMoreHeard(End(START, before), 0, init, last);
      RunThen(START, before, one);
      assert init + [last] == writes;
      steps := before + one;
    }
  }

  // ---------------------------------------------------------------------------
  // When does an ended subscriber have the rows?
  // ---------------------------------------------------------------------------

  /** The task is done writing, and this subscriber has what it wrote. */
  predicate Settled(f: Sys, s: nat) {
    && f.terminal.Some? && s in f.subs && f.subs[s].copy == f.rows
    && IsTerminal(f.terminal.value)
    && (f.subs[s].stage == Reading
        || (f.subs[s].stage == Live && f.subs[s].replaced && forall e <- f.subs[s].private :: IsTerminal(e)))
  }

  lemma {:induction false} SettledStays(f: Sys, s: nat, steps: seq<Step>)
    requires Settled(f, s) && Run(f, steps)
    ensures Settled(End(f, steps), s)
    decreases |steps|
  {
    if steps != [] {
      SettledStaysOneStep(f, s, steps[0]);
      SettledStays(Apply(f, steps[0]), s, steps[1..]);
    }
  }

  lemma SettledStaysOneStep(f: Sys, s: nat, st: Step)
    requires Settled(f, s) && Enabled(f, st)
    ensures Settled(Apply(f, st), s)
  {
    if st == Receive(s) {
      var b := f.subs[s];
      assert IsTerminal(b.private[0]);
    }
  }

  const GONE := Failed("gone")
  const NEWS := Row("u", None, "n", None, [], Ok)

  /** A write the task may make next that changes the rows, whatever they are. */
  function SomeNews(f: Sys): (e: WatchEvent)
    ensures !IsTerminal(e) && (f.writes == [] ==> e.Snapshot?)
  {
    if f.rows == map[] then
      if f.writes == [] then Snapshot([], [NEWS]) else Applied(NEWS)
    else Snapshot([], [])
  }

  lemma SomeNewsIsNew(f: Sys)
    ensures FoldEvent(f.rows, SomeNews(f)) != f.rows
  {
    assert [NEWS][..0] == [];
    assert RowsOf([NEWS]) == RowsOf([])[NEWS.uid := NEWS];
    assert NEWS.uid in RowsOf([NEWS]) && NEWS.uid in f.rows[NEWS.uid := NEWS];
  }

  /** The task catches up with its broadcasts and writes news. */
  lemma NewsArrives(f: Sys, s: nat) returns (steps: seq<Step>)
    requires LogOk(f) && f.terminal.None? && s in f.subs
    ensures Run(f, steps)
    ensures var g := End(f, steps);
      g.subs == f.subs && g.terminal.None? && g.rows != f.rows && |g.log| == |g.writes|
  {
    steps := [];
    if |f.log| < |f.writes| {
      RunAndOne(f, steps, TaskSends);
      steps := steps + [TaskSends];
    }
    var g := End(f, steps);
    SomeNewsIsNew(g);
    RunAndOne(f, steps, TaskWrites(SomeNews(g)));
    steps := steps + [TaskWrites(SomeNews(g))];
    RunAndOne(f, steps, TaskSends);
    steps := steps + [TaskSends];
  }

  /** The task ends; a subscriber still to read the terminal event reads it and nothing more. */
  lemma EndIsRead(f: Sys, s: nat) returns (steps: seq<Step>)
    requires f.terminal.None? && |f.log| == |f.writes| && s in f.subs && f.subs[s].stage == Reading
    ensures Run(f, steps)
    ensures var g := End(f, steps);
      Drained(g, s) && g.subs[s].replaced && g.subs[s].copy == f.subs[s].copy && g.rows == f.rows
  {
    var f1 := Apply(f, TaskWritesTerminal(GONE));
    var f2 := Apply(f1, ReadTerminal(s));
    assert f2.subs[s].private == [GONE] && f2.subs[s].copy == f.subs[s].copy;
    assert Enabled(f2, Receive(s));
    RunOfOne(f2, Receive(s), []);
    RunOfOne(f1, ReadTerminal(s), [Receive(s)] + []);
    RunOfOne(f, TaskWritesTerminal(GONE), [ReadTerminal(s)] + ([Receive(s)] + []));
    steps := [TaskWritesTerminal(GONE)] + ([ReadTerminal(s)] + ([Receive(s)] + []));
  }

  /** Unless the task has ended, a row can land after a subscriber's read and be missed for good. */
  lemma LateWriteIsMissed(f: Sys, s: nat) returns (steps: seq<Step>)
    requires Inv(f) && f.terminal.None? && s in f.subs && f.subs[s].stage == Reading && f.subs[s].copy == f.rows
    ensures Run(f, steps)
    ensures var g := End(f, steps);
      Drained(g, s) && g.subs[s].replaced && g.subs[s].copy != g.rows
  {
    var news := NewsArrives(f, s);
    var end := EndIsRead(End(f, news), s);
    RunThen(f, news, end);
    steps := news + end;
  }

  /** Every way on from here that leaves the subscriber with a terminal event leaves it with the final rows. */
  ghost predicate EndsWithTheRows(f: Sys, s: nat) {
    forall steps :: Run(f, steps) && s in End(f, steps).subs && End(f, steps).subs[s].replaced ==>
      End(f, steps).subs[s].copy == End(f, steps).rows
  }

  /**
   A subscriber that will find a terminal event can count on the final rows if and only if
   the terminal event was already written when it read the rows.
   */
  lemma EndedSubscriberHasTheRowsIff(before: seq<Step>, s: nat, order: seq<Row>)
    requires Run(START, before) && Enabled(End(START, before), ReadRows(s, order))
    ensures EndsWithTheRows(Apply(End(START, before), ReadRows(s, order)), s)
       <==> End(START, before).terminal.Some?
  {
    RunKeepsInv(START, before);
    var f0 := End(START, before);
    var f := Apply(f0, ReadRows(s, order));
    ReadRowsKeepsInv(f0, s, order);
    assert f.subs[s].copy == f.rows;
    if f.terminal.Some? {
      forall steps | Run(f, steps) && s in End(f, steps).subs && End(f, steps).subs[s].replaced
        ensures End(f, steps).subs[s].copy == End(f, steps).rows
      {
        SettledStays(f, s, steps);
      }
    } else {
      var steps := LateWriteIsMissed(f, s);
      assert s in End(f, steps).subs;
    }
  }

  /**
   Convergence does fail for a subscriber that finds a terminal event: here one reads the
   empty cache before the task's first snapshot, and is drained without its row.
   */
  lemma EndedSubscriberCanMissARow() returns (steps: seq<Step>)
    ensures Run(START, steps) && Drained(End(START, steps), 0)
    ensures End(START, steps).subs[0].copy == map[] && NEWS.uid in End(START, steps).rows
  {
    var e := Snapshot([], [NEWS]);
    var f1 := Apply(START, Attach(0));
    var f2 := Apply(f1, ReadRows(0, []));
    assert f2.subs[0].copy == map[] && f2.subs[0].stage == Reading;
    var f3 := Apply(f2, TaskWrites(e));
    var f4 := Apply(f3, TaskSends);
    var end := EndIsRead(f4, 0);
    RunOfOne(f3, TaskSends, end);
    RunOfOne(f2, TaskWrites(e), [TaskSends] + end);
    RunOfOne(f1, ReadRows(0, []), [TaskWrites(e)] + ([TaskSends] + end));
    RunOfOne(START, Attach(0), [ReadRows(0, [])] + ([TaskWrites(e)] + ([TaskSends] + end)));
    steps := [Attach(0)] + ([ReadRows(0, [])] + ([TaskWrites(e)] + ([TaskSends] + end)));
    assert [NEWS][..0] == [];
    assert f4.rows == RowsOf([])[NEWS.uid := NEWS];
  }
}
