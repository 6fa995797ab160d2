/**
 The table of shared informers and the reaper of idle ones. The reaper notes receiver
 counts under the table's mutex, updates each idle mark without it, and takes the mutex
 again to remove. A subscriber attaches its receiver and then clears the idle mark, all
 under the mutex. Receivers are dropped at any time.
 */
module IdleReaper {
  import opened Wrappers

  /** Seconds. */
  const IDLE_GRACE := 600

  type Key = string
  type ReceiverId = nat

  /**
   `lastUsed` and `lastSeen` are history variables: when a subscriber last cleared the idle
   mark, and when the reaper last found a receiver.
   */
  datatype Informer = Informer(
    id: nat,
    receivers: set<ReceiverId>,
    idleSince: Option<nat>,
    lastUsed: nat,
    lastSeen: nat)

  /** The informer a receiver listens to. */
  datatype Handle = Handle(key: Key, id: nat)

  /** `todo` holds, for each informer not yet looked at, whether it had no receiver. */
  datatype Reaper = Asleep | Looking(todo: map<Key, bool>, doomed: set<Key>)

  /** `mutex` is held by a subscriber between its two steps. */
  datatype Sys = Sys(
    now: nat,
    active: map<Key, Informer>,
    handles: map<ReceiverId, Handle>,
    mutex: Option<ReceiverId>,
    reaper: Reaper,
    nextId: nat)

  const START := Sys(0, map[], map[], None, Asleep, 0)

  datatype Step =
    | TimePasses(seconds: nat)
    | Attaches(r: ReceiverId, key: Key)
    | ClearsMark(r: ReceiverId)
    | Drops(r: ReceiverId)
    | ReaperLooks
    | ReaperMarks(key: Key)
    | ReaperRemoves

  predicate Enabled(s: Sys, st: Step) {
    match st
    case TimePasses(_) => true
    case Attaches(r, _) => s.mutex.None? && r !in s.handles
    case ClearsMark(r) => s.mutex == Some(r) && r in s.handles && s.handles[r].key in s.active
    case Drops(r) => r in s.handles && s.handles[r].key in s.active
    case ReaperLooks => s.mutex.None? && s.reaper.Asleep?
    case ReaperMarks(k) => s.reaper.Looking? && k in s.reaper.todo && k in s.active
    case ReaperRemoves => s.mutex.None? && s.reaper.Looking? && s.reaper.todo == map[]
  }

  function Put(s: Sys, k: Key, i: Informer): Sys {
    s.(active := s.active[k := i])
  }

  /** Idle long enough, as far as the reaper can tell. */
  predicate Expired(i: Informer, now: nat) {
    i.idleSince.Some? && now >= i.idleSince.value + IDLE_GRACE
  }

  function Apply(s: Sys, st: Step): Sys
    requires Enabled(s, st)
  {
    match st
    case TimePasses(d) => s.(now := s.now + d)
    case Attaches(r, k) =>
      var i := if k in s.active then s.active[k] else Informer(s.nextId, {}, None, s.now, s.now);
      Put(s, k, i.(receivers := i.receivers + {r})).(
        handles := s.handles[r := Handle(k, i.id)], mutex := Some(r),
        nextId := if k in s.active then s.nextId else s.nextId + 1)
    case ClearsMark(r) =>
      var k := s.handles[r].key;
      Put(s, k, s.active[k].(idleSince := None, lastUsed := s.now)).(mutex := None)
    case Drops(r) =>
      var k := s.handles[r].key;
      Put(s, k, s.active[k].(receivers := s.active[k].receivers - {r})).(
        handles := s.handles - {r}, mutex := if s.mutex == Some(r) then None else s.mutex)
    case ReaperLooks =>
      s.(reaper := Looking(map k | k in s.active :: s.active[k].receivers == {}, {}))
    case ReaperMarks(k) =>
      var i, rest := s.active[k], s.reaper.todo - {k};
      if !s.reaper.todo[k] then Put(s, k, i.(idleSince := None, lastSeen := s.now)).(reaper := Looking(rest, s.reaper.doomed))
      else if Expired(i, s.now) then s.(reaper := Looking(rest, s.reaper.doomed + {k}))
      else if i.idleSince.None? then Put(s, k, i.(idleSince := Some(s.now))).(reaper := Looking(rest, s.reaper.doomed))
      else s.(reaper := Looking(rest, s.reaper.doomed))
    case ReaperRemoves =>
      s.(reaper := Asleep, active := map k | k in s.active && !Removable(s, k) :: s.active[k])
  }

  /** Checked again under the mutex: the informer still has no receiver. */
  predicate Removable(s: Sys, k: Key)
    requires s.reaper.Looking? && k in s.active
  {
    k in s.reaper.doomed && s.active[k].receivers == {}
  }

  /** A receiver's informer is the one in the table, and knows the receiver. */
  predicate Attached(s: Sys, r: ReceiverId)
    requires r in s.handles
  {
    var h := s.handles[r];
    h.key in s.active && s.active[h.key].id == h.id && r in s.active[h.key].receivers
  }

  predicate MarkOk(s: Sys, k: Key)
    requires k in s.active
  {
    var i := s.active[k];
    && i.id < s.nextId && i.lastUsed <= s.now && i.lastSeen <= s.now
    && (i.idleSince.Some? ==> i.lastUsed <= i.idleSince.value <= s.now && i.lastSeen <= i.idleSince.value)
    && (forall r <- i.receivers :: r in s.handles && s.handles[r].key == k)
  }

  ghost predicate Inv(s: Sys) {
    && (forall r <- s.handles :: Attached(s, r))
    && (forall k <- s.active :: MarkOk(s, k))
    && (forall j, k | j in s.active && k in s.active && s.active[j].id == s.active[k].id :: j == k)
    && (s.mutex.Some? ==> s.mutex.value in s.handles)
    && (s.reaper.Looking? ==> s.reaper.todo.Keys + s.reaper.doomed <= s.active.Keys)
  }

  lemma AttachesKeepsInv(s: Sys, r: ReceiverId, k: Key)
    requires Inv(s) && Enabled(s, Attaches(r, k))
    ensures Inv(Apply(s, Attaches(r, k)))
  {
    var s' := Apply(s, Attaches(r, k));
    forall q | q in s'.handles ensures Attached(s', q) {
      if q != r { assert Attached(s, q); }
    }
    forall j | j in s'.active ensures MarkOk(s', j) {
      if j in s.active { assert MarkOk(s, j); }
    }
  }

  lemma DropsKeepsInv(s: Sys, r: ReceiverId)
    requires Inv(s) && Enabled(s, Drops(r))
    ensures Inv(Apply(s, Drops(r)))
  {
    var s' := Apply(s, Drops(r));
    forall q | q in s'.handles ensures Attached(s', q) {
      assert Attached(s, q);
    }
    forall j | j in s'.active ensures MarkOk(s', j) {
      assert MarkOk(s, j);
    }
  }

  /** Changing one idle mark, between the last use and now. */
  lemma RemarkKeepsInv(s: Sys, k: Key, idle: Option<nat>, used: nat, seen: nat)
    requires Inv(s) && k in s.active && used <= s.now && seen <= s.now
    requires idle.Some? ==> used <= idle.value <= s.now && seen <= idle.value
    ensures Inv(Put(s, k, s.active[k].(idleSince := idle, lastUsed := used, lastSeen := seen)))
  {
    var s' := Put(s, k, s.active[k].(idleSince := idle, lastUsed := used, lastSeen := seen));
    forall q | q in s'.handles ensures Attached(s', q) {
      assert Attached(s, q);
    }
    forall j | j in s'.active ensures MarkOk(s', j) {
      assert MarkOk(s, j);
    }
  }

  lemma ClearsMarkKeepsInv(s: Sys, r: ReceiverId)
    requires Inv(s) && Enabled(s, ClearsMark(r))
    ensures Inv(Apply(s, ClearsMark(r)))
  {
    var k := s.handles[r].key;
    RemarkKeepsInv(s, k, None, s.now, s.active[k].lastSeen);
    var s1 := Put(s, k, s.active[k].(idleSince := None, lastUsed := s.now));
    TurnKeepsInv(s1, None, s1.reaper);
  }

  lemma ReaperMarksKeepsInv(s: Sys, k: Key)
    requires Inv(s) && Enabled(s, ReaperMarks(k))
    ensures Inv(Apply(s, ReaperMarks(k)))
  {
    var i, idle := s.active[k], s.reaper.todo[k];
    assert MarkOk(s, k);
    var mark := if !idle then None else if i.idleSince.None? then Some(s.now) else i.idleSince;
    var seen := if !idle then s.now else i.lastSeen;
    RemarkKeepsInv(s, k, mark, i.lastUsed, seen);
    var s1 := Put(s, k, i.(idleSince := mark, lastSeen := seen));
    var doomed := if idle && Expired(i, s.now) then s.reaper.doomed + {k} else s.reaper.doomed;
    TurnKeepsInv(s1, s1.mutex, Looking(s.reaper.todo - {k}, doomed));
    assert s.active[k := i] == s.active;
  }

  /** Handing on the mutex, or the reaper's next move. */
  lemma TurnKeepsInv(s: Sys, mutex: Option<ReceiverId>, reaper: Reaper)
    requires Inv(s) && (mutex.Some? ==> mutex.value in s.handles)
    requires reaper.Looking? ==> reaper.todo.Keys + reaper.doomed <= s.active.Keys
    ensures Inv(s.(mutex := mutex, reaper := reaper))
  {
    var s' := s.(mutex := mutex, reaper := reaper);
    assert forall q <- s'.handles :: Attached(s, q);
    assert forall j <- s'.active :: MarkOk(s, j);
  }

  lemma RemovesKeepsInv(s: Sys)
    requires Inv(s) && Enabled(s, ReaperRemoves)
    ensures Inv(Apply(s, ReaperRemoves))
  {
    var s' := Apply(s, ReaperRemoves);
    forall q | q in s'.handles ensures Attached(s', q) {
      assert Attached(s, q);
    }
    forall j | j in s'.active ensures MarkOk(s', j) {
      assert MarkOk(s, j);
    }
  }

  lemma StepKeepsInv(s: Sys, st: Step)
    requires Inv(s) && Enabled(s, st)
    ensures Inv(Apply(s, st))
  {
    match st
    case Attaches(r, k) => AttachesKeepsInv(s, r, k);
    case Drops(r) => DropsKeepsInv(s, r);
    case ClearsMark(r) => ClearsMarkKeepsInv(s, r);
    case ReaperMarks(k) => ReaperMarksKeepsInv(s, k);
    case ReaperRemoves => RemovesKeepsInv(s);
    case _ =>
      var s' := Apply(s, st);
      assert forall r <- s'.handles :: Attached(s, r);
      assert forall k <- s'.active :: MarkOk(s, k);
  }

  ghost predicate Run(s: Sys, steps: seq<Step>)
    decreases |steps|
  {
    steps == [] || (Enabled(s, steps[0]) && Run(Apply(s, steps[0]), steps[1..]))
  }

  ghost function End(s: Sys, steps: seq<Step>): Sys
    requires Run(s, steps)
    decreases |steps|
  {
    if steps == [] then s else End(Apply(s, steps[0]), steps[1..])
  }

  lemma {:induction false} RunKeepsInv(s: Sys, steps: seq<Step>)
    requires Inv(s) && Run(s, steps)
    ensures Inv(End(s, steps))
    decreases |steps|
  {
    if steps != [] {
      StepKeepsInv(s, steps[0]);
      RunKeepsInv(Apply(s, steps[0]), steps[1..]);
    }
  }

  /**
   In every run a live receiver's informer is in the table, however its subscription fell
   between the reaper's phases; so receivers of one key share one informer.
   */
  lemma LiveReceiverKeepsItsInformer(steps: seq<Step>, q: ReceiverId, r: ReceiverId)
    requires Run(START, steps) && q in End(START, steps).handles && r in End(START, steps).handles
    ensures var s := End(START, steps);
      && s.handles[r].key in s.active && s.active[s.handles[r].key].id == s.handles[r].id
      && (s.handles[q].key == s.handles[r].key <==> s.handles[q].id == s.handles[r].id)
  {
    RunKeepsInv(START, steps);
    var s := End(START, steps);
    assert Attached(s, q) && Attached(s, r);
  }

  /** The reaper only dooms an informer that during the whole grace period nobody subscribed to and no look found in use. */
  lemma DoomedAfterTheGracePeriod(steps: seq<Step>, k: Key)
    requires Run(START, steps) && Enabled(End(START, steps), ReaperMarks(k))
    requires k !in End(START, steps).reaper.doomed
    ensures var s := End(START, steps);
      k in Apply(s, ReaperMarks(k)).reaper.doomed ==>
        s.active[k].lastUsed + 600 <= s.now && s.active[k].lastSeen + 600 <= s.now
  {
    RunKeepsInv(START, steps);
    assert MarkOk(End(START, steps), k);
  }

  // ---------------------------------------------------------------------------
  // Sweeps end, and reap
  // ---------------------------------------------------------------------------

  /** A subscriber holds the mutex from its first step to its second, or to its end. */
  lemma MutexIsHeldUntil(s: Sys, st: Step, r: ReceiverId)
    requires Enabled(s, st) && s.mutex == Some(r)
    ensures Apply(s, st).mutex == if st == ClearsMark(r) || st == Drops(r) then None else Some(r)
  {
  }

  /** What a sweep is to do with an informer it finds idle for the whole grace period. */
  predicate Due(s: Sys, k: Key) {
    && k in s.active && s.active[k].receivers == {}
    && s.active[k].idleSince.Some? && s.now >= s.active[k].idleSince.value + 600
  }

  /** The sweep has found the informer idle, or is about to. */
  predicate Found(s: Sys, k: Key) {
    s.reaper.Looking? && if k in s.reaper.todo then s.reaper.todo[k] else k in s.reaper.doomed
  }

  lemma MarkingDooms(s: Sys, j: Key, k: Key)
    requires Enabled(s, ReaperMarks(j)) && Due(s, k) && Found(s, k)
    ensures var s' := Apply(s, ReaperMarks(j));
      Due(s', k) && Found(s', k) && s'.mutex == s.mutex && s'.reaper.todo == s.reaper.todo - {j}
  {
  }

  lemma OneLess(todo: map<Key, bool>, j: Key)
    requires j in todo
    ensures |todo - {j}| < |todo|
  {
    assert (todo - {j}).Keys == todo.Keys - {j};
    assert |(todo - {j}).Keys| == |todo - {j}| && |todo.Keys| == |todo|;
  }

  /** The marks that are left can all be made. */
  lemma {:induction false} MarksCanBeMade(s: Sys, k: Key) returns (steps: seq<Step>)
    requires Inv(s) && Due(s, k) && Found(s, k)
    ensures Run(s, steps)
    ensures var e := End(s, steps);
      Due(e, k) && Found(e, k) && e.reaper.todo == map[] && e.mutex == s.mutex
    decreases |s.reaper.todo|
  {
    if s.reaper.todo == map[] {
      steps := [];
    } else {
      var j :| j in s.reaper.todo;
      StepKeepsInv(s, ReaperMarks(j));
      MarkingDooms(s, j, k);
      OneLess(s.reaper.todo, j);
      var rest := MarksCanBeMade(Apply(s, ReaperMarks(j)), k);
      assert ([ReaperMarks(j)] + rest)[1..] == rest;
      steps := [ReaperMarks(j)] + rest;
    }
  }

  /** A sweep that starts when an informer has been idle for the grace period can go on to remove it. */
  lemma SweepCanReap(before: seq<Step>, k: Key) returns (steps: seq<Step>)
    requires Run(START, before) && Enabled(End(START, before), ReaperLooks) && Due(End(START, before), k)
    ensures Run(End(START, before), steps)
    ensures k !in End(End(START, before), steps).active && End(End(START, before), steps).reaper.Asleep?
  {
    RunKeepsInv(START, before);
    var s := End(START, before);
    StepKeepsInv(s, ReaperLooks);
    var s1 := Apply(s, ReaperLooks);
    var rest := MarksCanBeMade(s1, k);
    RunAndOne(s1, rest, ReaperRemoves);
    assert ([ReaperLooks] + (rest + [ReaperRemoves]))[1..] == rest + [ReaperRemoves];
    steps := [ReaperLooks] + (rest + [ReaperRemoves]);
  }

  lemma IdleStep(s: Sys, st: Step, k: Key)
    requires Inv(s) && Enabled(s, st) && k in s.active && s.active[k].receivers == {} && s.active[k].idleSince.Some?
    requires s.reaper.Looking? && k in s.reaper.todo ==> s.reaper.todo[k]
    requires !(st.Attaches? && st.key == k)
    ensures var s' := Apply(s, st);
      && (k in s'.active ==> s'.active[k] == s.active[k])
      && (s'.reaper.Looking? && k in s'.active && k in s'.reaper.todo ==> s'.reaper.todo[k])
  {
    assert forall r <- s.handles :: Attached(s, r);
  }

  lemma {:induction false} GoneStaysGone(s: Sys, steps: seq<Step>, k: Key)
    requires Run(s, steps) && k !in s.active && forall st <- steps :: !(st.Attaches? && st.key == k)
    ensures k !in End(s, steps).active
    decreases |steps|
  {
    if steps != [] {
      assert steps[0] in steps;
      GoneStaysGone(Apply(s, steps[0]), steps[1..], k);
    }
  }

  /** Sweeps do not put off the end of an idle informer: until somebody subscribes its mark stays as it is, or it is gone. */
  lemma {:induction false} IdleMarkStays(s: Sys, steps: seq<Step>, k: Key)
    requires Inv(s) && Run(s, steps) && k in s.active && s.active[k].receivers == {} && s.active[k].idleSince.Some?
    requires s.reaper.Looking? && k in s.reaper.todo ==> s.reaper.todo[k]
    requires forall st <- steps :: !(st.Attaches? && st.key == k)
    ensures k in End(s, steps).active ==> End(s, steps).active[k] == s.active[k]
    decreases |steps|
  {
    if steps != [] {
      assert steps[0] in steps;
      StepKeepsInv(s, steps[0]);
      IdleStep(s, steps[0], k);
      var s' := Apply(s, steps[0]);
      if k in s'.active { IdleMarkStays(s', steps[1..], k); } else { GoneStaysGone(s', steps[1..], k); }
    }
  }

  /**
   That is not the time of removal: a subscriber that comes and goes between the decision and
   the removal does not save its informer.
   */
  lemma LateUseDoesNotSave(s: Sys, k: Key, r: ReceiverId)
    requires Inv(s) && s.mutex.None? && s.reaper.Looking? && s.reaper.todo == map[]
    requires k in s.reaper.doomed && s.active[k].receivers == {} && r !in s.handles
    ensures Enabled(s, Attaches(r, k))
    ensures var s1 := Apply(s, Attaches(r, k));
      Enabled(s1, ClearsMark(r))
      && var s2 := Apply(s1, ClearsMark(r));
      k in s2.active && s2.active[k].lastUsed == s.now && Enabled(s2, Drops(r))
      && var s3 := Apply(s2, Drops(r));
      Enabled(s3, ReaperRemoves) && k !in Apply(s3, ReaperRemoves).active
  {
    var s1 := Apply(s, Attaches(r, k));
    var s2 := Apply(s1, ClearsMark(r));
    assert s2.active[k].receivers == {r};
    var s3 := Apply(s2, Drops(r));
    assert s3.active[k].receivers == {};
  }

  // ---------------------------------------------------------------------------
  // That it happens, and exactly when
  // ---------------------------------------------------------------------------

  lemma {:induction false} RunAndOne(s: Sys, steps: seq<Step>, st: Step)
    requires Run(s, steps) && Enabled(End(s, steps), st)
    ensures Run(s, steps + [st]) && End(s, steps + [st]) == Apply(End(s, steps), st)
    decreases |steps|
  {
    if steps == [] {
      assert [st][1..] == [] && steps + [st] == [st];
    } else {
      RunAndOne(Apply(s, steps[0]), steps[1..], st);
      assert (steps + [st])[1..] == steps[1..] + [st];
    }
  }

  /** The table once a subscriber has come and gone and the reaper has seen its informer idle twice. */
  function DoomedOnce(k: Key): Sys {
    Sys(IDLE_GRACE, map[k := Informer(0, {}, Some(0), 0, 0)], map[], None, Looking(map[], {k}), 1)
  }

  lemma SeenIdleOnce(k: Key) returns (steps: seq<Step>)
    ensures Run(START, steps)
    ensures End(START, steps) == Sys(0, map[k := Informer(0, {}, Some(0), 0, 0)], map[], None, Asleep, 1)
  {
    steps := [];
    RunAndOne(START, steps, Attaches(0, k));
    steps := steps + [Attaches(0, k)];
    RunAndOne(START, steps, ClearsMark(0));
    steps := steps + [ClearsMark(0)];
    RunAndOne(START, steps, Drops(0));
    steps := steps + [Drops(0)];
    assert End(START, steps) == Sys(0, map[k := Informer(0, {}, None, 0, 0)], map[], None, Asleep, 1);
    RunAndOne(START, steps, ReaperLooks);
    steps := steps + [ReaperLooks];
    RunAndOne(START, steps, ReaperMarks(k));
    steps := steps + [ReaperMarks(k)];
    RunAndOne(START, steps, ReaperRemoves);
    steps := steps + [ReaperRemoves];
  }

  /** The situation `LateUseDoesNotSave` starts from does arise. */
  lemma DoomIsReachable(k: Key) returns (steps: seq<Step>)
    ensures Run(START, steps) && End(START, steps) == DoomedOnce(k)
  {
    steps := SeenIdleOnce(k);
    RunAndOne(START, steps, TimePasses(IDLE_GRACE));
    steps := steps + [TimePasses(IDLE_GRACE)];
    RunAndOne(START, steps, ReaperLooks);
    steps := steps + [ReaperLooks];
    var s := End(START, steps);
    assert s.reaper == Looking(map[k := true], {});
    assert map[k := true] - {k} == map[] && {} + {k} == {k};
    assert Expired(s.active[k], s.now);
    RunAndOne(START, steps, ReaperMarks(k));
    steps := steps + [ReaperMarks(k)];
  }

  /** A run in which an informer is removed in the very second it was last used. */
  lemma LateUseIsLost(k: Key) returns (steps: seq<Step>)
    ensures Run(START, steps) && Enabled(End(START, steps), ReaperRemoves)
    ensures var e := End(START, steps);
      k in e.active && e.active[k].lastUsed == e.now && k !in Apply(e, ReaperRemoves).active
  {
    steps := DoomIsReachable(k);
    RunKeepsInv(START, steps);
    LateUseDoesNotSave(DoomedOnce(k), k, 0);
    RunAndOne(START, steps, Attaches(0, k));
    steps := steps + [Attaches(0, k)];
    RunAndOne(START, steps, ClearsMark(0));
    steps := steps + [ClearsMark(0)];
    RunAndOne(START, steps, Drops(0));
    steps := steps + [Drops(0)];
  }

  /** The moments at which subscribers cleared the idle mark of the key's informer. */
  ghost function Clearings(s: Sys, steps: seq<Step>, k: Key): seq<nat>
    requires Run(s, steps)
    decreases |steps|
  {
    if steps == [] then []
    else
      (if steps[0].ClearsMark? && s.handles[steps[0].r].key == k then [s.now] else [])
      + Clearings(Apply(s, steps[0]), steps[1..], k)
  }

  /** The reaper is about to decide that this informer goes. */
  predicate Dooms(s: Sys, k: Key) {
    Enabled(s, ReaperMarks(k)) && k !in s.reaper.doomed && k in Apply(s, ReaperMarks(k)).reaper.doomed
  }

  /** The rest of one sweep, up to its removals. */
  ghost predicate SameSweep(steps: seq<Step>) {
    forall st <- steps :: !st.ReaperRemoves?
  }

  lemma SweepStep(s: Sys, st: Step, k: Key)
    requires Enabled(s, st) && !st.ReaperRemoves? && k in s.active
    ensures k in Apply(s, st).active && s.now <= Apply(s, st).now
    ensures Apply(s, st).active[k].lastUsed
         == if st.ClearsMark? && s.handles[st.r].key == k then s.now else s.active[k].lastUsed
  {
  }

  lemma {:induction false} LastClearingIsLastUse(s: Sys, steps: seq<Step>, k: Key)
    requires Run(s, steps) && SameSweep(steps) && k in s.active
    ensures k in End(s, steps).active && s.now <= End(s, steps).now
    ensures var times := Clearings(s, steps, k);
      && (forall t <- times :: s.now <= t <= End(s, steps).active[k].lastUsed)
      && (if times == [] then End(s, steps).active[k].lastUsed == s.active[k].lastUsed
          else End(s, steps).active[k].lastUsed in times)
    decreases |steps|
  {
    if steps != [] {
      assert steps[0] in steps;
      SweepStep(s, steps[0], k);
      LastClearingIsLastUse(Apply(s, steps[0]), steps[1..], k);
      assert Clearings(Apply(s, steps[0]), steps[1..], k) == [] && steps[0].ClearsMark? && s.handles[steps[0].r].key == k
        ==> Clearings(s, steps, k) == [s.now];
    }
  }

  /** Within a sweep a mark only ever goes, and only a subscriber takes it. */
  lemma {:induction false} MarkStandsIff(s: Sys, steps: seq<Step>, k: Key)
    requires Run(s, steps) && SameSweep(steps) && k in s.active && s.reaper.Looking? && k !in s.reaper.todo
    ensures k in End(s, steps).active
    ensures End(s, steps).active[k].idleSince.Some? <==> s.active[k].idleSince.Some? && Clearings(s, steps, k) == []
    decreases |steps|
  {
    if steps != [] {
      assert steps[0] in steps;
      var s' := Apply(s, steps[0]);
      assert s'.active[k].idleSince
          == if steps[0].ClearsMark? && s.handles[steps[0].r].key == k then None else s.active[k].idleSince;
      MarkStandsIff(s', steps[1..], k);
    }
  }

  /**
   What the grace period is worth at the removal itself. After the decision, and until the
   sweep removes it, the informer is one that nobody used for the whole grace period if and
   only if no subscriber cleared its mark within the grace period after the decision. That
   no subscriber cleared it at all can be seen under the mutex: the mark still stands. So as
   long as the sweep takes less than the grace period, the mark tells whether the informer
   was used.
   */
  lemma UnusedAtRemovalIff(before: seq<Step>, k: Key, rest: seq<Step>)
    requires Run(START, before) && Dooms(End(START, before), k)
    requires Run(Apply(End(START, before), ReaperMarks(k)), rest) && SameSweep(rest)
    ensures var s := Apply(End(START, before), ReaperMarks(k));
      var e, times := End(s, rest), Clearings(s, rest, k);
      && k in e.active
      && (e.active[k].lastUsed + 600 <= e.now <==> forall t <- times :: t + 600 <= e.now)
      && (e.active[k].idleSince.Some? <==> times == [])
      && (e.now < s.now + 600 ==>
            (e.active[k].lastUsed + 600 <= e.now <==> e.active[k].idleSince.Some?))
  {
    DoomedAfterTheGracePeriod(before, k);
    var s := Apply(End(START, before), ReaperMarks(k));
    LastClearingIsLastUse(s, rest, k);
    MarkStandsIff(s, rest, k);
    var times := Clearings(s, rest, k);
    if times != [] { assert times[0] in times; }
  }
}
