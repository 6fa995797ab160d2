/**
 Per-subject build locks. A lock object lives in a table and in every task that
 has cloned it; it is removed from the table when its reference count shows that
 only the table and the task cleaning up still have it. Tasks interleave at every
 await and can be dropped at any of them.
 */
module SingleFlight {
  import opened Wrappers

  type LockId = nat
  type TaskId = nat

  datatype Phase =
    | Waiting(lock: LockId)       // has cloned the lock, awaits it
    | Critical(lock: LockId)      // building, refreshing or logging in
    | Trying(lock: LockId)        // eviction: has cloned the lock, before try_lock
    | Evicting(lock: LockId)      // eviction under the lock
    | Unguarded                   // eviction that found no lock in the table
    | Unlocked(lock: LockId)      // guard dropped, before the clean-up
    | Cleaned(lock: LockId)       // clean-up done, clone not yet dropped
    | Over

  datatype Task = Task(subject: string, phase: Phase)

  datatype Sys = Sys(
    table: map<string, LockId>,
    held: map<LockId, TaskId>,
    tasks: map<TaskId, Task>,
    nextLock: LockId)

  const START := Sys(map[], map[], map[], 0)

  datatype Step =
    | GetsLock(t: TaskId, subject: string)
    | Locks(t: TaskId)
    | StartsEviction(t: TaskId, subject: string)
    | TriesLock(t: TaskId)
    | Unlocks(t: TaskId)
    | CleansUp(t: TaskId)
    | Returns(t: TaskId)
    | IsDropped(t: TaskId)

  function Clone(k: Task): Option<LockId> {
    match k.phase
    case Unguarded => None
    case Over => None
    case _ => Some(k.phase.lock)
  }

  predicate Guarded(k: Task) {
    k.phase.Critical? || k.phase.Evicting?
  }

  /** The task may still lock what it cloned, or has locked it. */
  predicate InUse(k: Task) {
    k.phase.Waiting? || k.phase.Trying? || Guarded(k)
  }

  function Clones(s: Sys, l: LockId): set<TaskId> {
    set t | t in s.tasks && Clone(s.tasks[t]) == Some(l)
  }

  function Slots(s: Sys, l: LockId): set<string> {
    set subject | subject in s.table && s.table[subject] == l
  }

  /** `Arc::strong_count` of a lock object. */
  function StrongCount(s: Sys, l: LockId): nat {
    |Clones(s, l)| + |Slots(s, l)|
  }

  predicate Enabled(s: Sys, st: Step) {
    match st
    case GetsLock(t, _) => t !in s.tasks
    case Locks(t) => t in s.tasks && s.tasks[t].phase.Waiting? && s.tasks[t].phase.lock !in s.held
    case StartsEviction(t, _) => t !in s.tasks
    case TriesLock(t) => t in s.tasks && s.tasks[t].phase.Trying?
    case Unlocks(t) => t in s.tasks && Guarded(s.tasks[t])
    case CleansUp(t) => t in s.tasks && s.tasks[t].phase.Unlocked?
    case Returns(t) => t in s.tasks && (s.tasks[t].phase.Cleaned? || s.tasks[t].phase.Unguarded?)
    case IsDropped(t) => t in s.tasks
  }

  function Set(s: Sys, t: TaskId, subject: string, phase: Phase): Sys {
    s.(tasks := s.tasks[t := Task(subject, phase)])
  }

  function Apply(s: Sys, st: Step): Sys
    requires Enabled(s, st)
  {
    match st
    case GetsLock(t, subject) =>
      if subject in s.table then Set(s, t, subject, Waiting(s.table[subject]))
      else Set(s.(table := s.table[subject := s.nextLock], nextLock := s.nextLock + 1), t, subject, Waiting(s.nextLock))
    case Locks(t) =>
      var k := s.tasks[t];
      Set(s.(held := s.held[k.phase.lock := t]), t, k.subject, Critical(k.phase.lock))
    case StartsEviction(t, subject) =>
      if subject in s.table then Set(s, t, subject, Trying(s.table[subject])) else Set(s, t, subject, Unguarded)
    case TriesLock(t) =>
      var k := s.tasks[t];
      if k.phase.lock in s.held then Set(s, t, k.subject, Over)
      else Set(s.(held := s.held[k.phase.lock := t]), t, k.subject, Evicting(k.phase.lock))
    case Unlocks(t) =>
      var k := s.tasks[t];
      Set(s.(held := s.held - {k.phase.lock}), t, k.subject, Unlocked(k.phase.lock))
    case CleansUp(t) =>
      var k := s.tasks[t];
      var s1 := if k.subject in s.table && s.table[k.subject] == k.phase.lock && StrongCount(s, k.phase.lock) == 2
                then s.(table := s.table - {k.subject}) else s;
      Set(s1, t, k.subject, Cleaned(k.phase.lock))
    case Returns(t) => Set(s, t, s.tasks[t].subject, Over)
    case IsDropped(t) =>
      var k := s.tasks[t];
      Set(if Guarded(k) then s.(held := s.held - {k.phase.lock}) else s, t, k.subject, Over)
  }

  predicate TaskOk(s: Sys, t: TaskId)
    requires t in s.tasks
  {
    var k := s.tasks[t];
    && (Clone(k).Some? ==> Clone(k).value < s.nextLock)
    && (InUse(k) ==> k.subject in s.table && s.table[k.subject] == k.phase.lock)
    && (Guarded(k) ==> k.phase.lock in s.held && s.held[k.phase.lock] == t)
  }

  ghost predicate Inv(s: Sys) {
    && (forall a <- s.table :: s.table[a] < s.nextLock)
    && (forall a, b | a in s.table && b in s.table && s.table[a] == s.table[b] :: a == b)
    && (forall t <- s.tasks :: TaskOk(s, t))
    && (forall l <- s.held :: l < s.nextLock && s.held[l] in s.tasks
                              && Guarded(s.tasks[s.held[l]]) && s.tasks[s.held[l]].phase.lock == l)
  }

  lemma TwoClonesCount(s: Sys, l: LockId, t: TaskId, u: TaskId)
    requires t != u && t in Clones(s, l) && u in Clones(s, l)
    ensures |Clones(s, l)| >= 2
  {
    var rest := Clones(s, l) - {t};
    assert u in rest;
    assert |rest| > 0;
  }

  /** With a count of two, nobody but the task cleaning up has a clone. */
  lemma CountTwoMeansAlone(s: Sys, t: TaskId, u: TaskId)
    requires Inv(s) && t in s.tasks && s.tasks[t].phase.Unlocked?
    requires s.tasks[t].subject in s.table && s.table[s.tasks[t].subject] == s.tasks[t].phase.lock
    requires StrongCount(s, s.tasks[t].phase.lock) == 2
    requires u in s.tasks && u != t
    ensures Clone(s.tasks[u]) != Some(s.tasks[t].phase.lock)
  {
    var l := s.tasks[t].phase.lock;
    assert s.tasks[t].subject in Slots(s, l);
    if Clone(s.tasks[u]) == Some(l) {
      TwoClonesCount(s, l, t, u);
    }
  }

  lemma CleanUpKeepsInv(s: Sys, t: TaskId)
    requires Inv(s) && Enabled(s, CleansUp(t))
    ensures Inv(Apply(s, CleansUp(t)))
  {
    var s' := Apply(s, CleansUp(t));
    var k := s.tasks[t];
    assert TaskOk(s, t);
    forall u | u in s'.tasks ensures TaskOk(s', u) {
      if u != t {
        assert TaskOk(s, u);
        if s'.table != s.table {
          CountTwoMeansAlone(s, t, u);
        }
      }
    }
  }

  /** A task that neither holds nor takes a guard changes only its own record. */
  lemma SetKeepsInv(s: Sys, t: TaskId, subject: string, phase: Phase)
    requires Inv(s) && TaskOk(Set(s, t, subject, phase), t)
    requires (t in s.tasks ==> !Guarded(s.tasks[t])) && !Guarded(Task(subject, phase))
    ensures Inv(Set(s, t, subject, phase))
  {
    var s' := Set(s, t, subject, phase);
    forall u | u in s'.tasks ensures TaskOk(s', u) {
      if u != t { assert TaskOk(s, u); }
    }
  }

  lemma FreshLockKeepsInv(s: Sys, subject: string)
    requires Inv(s) && subject !in s.table
    ensures Inv(s.(table := s.table[subject := s.nextLock], nextLock := s.nextLock + 1))
  {
    var s' := s.(table := s.table[subject := s.nextLock], nextLock := s.nextLock + 1);
    forall u | u in s'.tasks ensures TaskOk(s', u) { assert TaskOk(s, u); }
  }

  lemma GetsLockKeepsInv(s: Sys, t: TaskId, subject: string)
    requires Inv(s) && t !in s.tasks
    ensures Inv(Apply(s, GetsLock(t, subject)))
  {
    if subject in s.table {
      SetKeepsInv(s, t, subject, Waiting(s.table[subject]));
    } else {
      FreshLockKeepsInv(s, subject);
      var s1 := s.(table := s.table[subject := s.nextLock], nextLock := s.nextLock + 1);
      SetKeepsInv(s1, t, subject, Waiting(s.nextLock));
    }
  }

  lemma StartsEvictionKeepsInv(s: Sys, t: TaskId, subject: string)
    requires Inv(s) && t !in s.tasks
    ensures Inv(Apply(s, StartsEviction(t, subject)))
  {
    SetKeepsInv(s, t, subject, if subject in s.table then Trying(s.table[subject]) else Unguarded);
  }

  /** Taking the guard of a free lock the task has cloned. */
  lemma TakingKeepsInv(s: Sys, t: TaskId, phase: Phase)
    requires Inv(s) && t in s.tasks && (s.tasks[t].phase.Waiting? || s.tasks[t].phase.Trying?)
    requires s.tasks[t].phase.lock !in s.held
    requires phase == Critical(s.tasks[t].phase.lock) || phase == Evicting(s.tasks[t].phase.lock)
    ensures Inv(Set(s.(held := s.held[phase.lock := t]), t, s.tasks[t].subject, phase))
  {
    var s' := Set(s.(held := s.held[phase.lock := t]), t, s.tasks[t].subject, phase);
    assert TaskOk(s, t);
    forall u | u in s'.tasks ensures TaskOk(s', u) {
      if u != t { assert TaskOk(s, u); }
    }
  }

  /** Dropping the guard; the clone may be kept for the clean-up. */
  lemma ReleasingKeepsInv(s: Sys, t: TaskId, phase: Phase)
    requires Inv(s) && t in s.tasks && Guarded(s.tasks[t])
    requires phase == Unlocked(s.tasks[t].phase.lock) || phase == Over
    ensures Inv(Set(s.(held := s.held - {s.tasks[t].phase.lock}), t, s.tasks[t].subject, phase))
  {
    var s' := Set(s.(held := s.held - {s.tasks[t].phase.lock}), t, s.tasks[t].subject, phase);
    assert TaskOk(s, t);
    forall u | u in s'.tasks ensures TaskOk(s', u) {
      if u != t { assert TaskOk(s, u); }
    }
  }

  lemma TriesLockKeepsInv(s: Sys, t: TaskId)
    requires Inv(s) && Enabled(s, TriesLock(t))
    ensures Inv(Apply(s, TriesLock(t)))
  {
    var k := s.tasks[t];
    assert TaskOk(s, t);
    if k.phase.lock in s.held {
      SetKeepsInv(s, t, k.subject, Over);
    } else {
      TakingKeepsInv(s, t, Evicting(k.phase.lock));
    }
  }

  lemma DroppingKeepsInv(s: Sys, t: TaskId)
    requires Inv(s) && Enabled(s, IsDropped(t))
    ensures Inv(Apply(s, IsDropped(t)))
  {
    if Guarded(s.tasks[t]) {
      ReleasingKeepsInv(s, t, Over);
    } else {
      SetKeepsInv(s, t, s.tasks[t].subject, Over);
    }
  }

  lemma StepKeepsInv(s: Sys, st: Step)
    requires Inv(s) && Enabled(s, st)
    ensures Inv(Apply(s, st))
  {
    match st
    case GetsLock(t, subject) => GetsLockKeepsInv(s, t, subject);
    case StartsEviction(t, subject) => StartsEvictionKeepsInv(s, t, subject);
    case Locks(t) => TakingKeepsInv(s, t, Critical(s.tasks[t].phase.lock));
    case TriesLock(t) => TriesLockKeepsInv(s, t);
    case Unlocks(t) => ReleasingKeepsInv(s, t, Unlocked(s.tasks[t].phase.lock));
    case CleansUp(t) => CleanUpKeepsInv(s, t);
    case Returns(t) => SetKeepsInv(s, t, s.tasks[t].subject, Over);
    case IsDropped(t) => DroppingKeepsInv(s, t);
  }

  ghost predicate Run(s: Sys, steps: seq<Step>)
    decreases |steps|
  {
    steps == [] || (Enabled(s, steps[0]) && Run(Apply(s, steps[0]), steps[1..]))
  }

  ghost function End(s: Sys, steps: seq<Step>): Sys
    requires Run(s, steps)
    decreases |steps|
  {
    if steps == [] then s else End(Apply(s, steps[0]), steps[1..])
  }

  lemma {:induction false} RunKeepsInv(s: Sys, steps: seq<Step>)
    requires Inv(s) && Run(s, steps)
    ensures Inv(End(s, steps))
    decreases |steps|
  {
    if steps != [] {
      StepKeepsInv(s, steps[0]);
      RunKeepsInv(Apply(s, steps[0]), steps[1..]);
    }
  }

  /** Some task works on the subject under its lock. */
  predicate Taken(s: Sys, subject: string) {
    exists u <- s.tasks :: Guarded(s.tasks[u]) && s.tasks[u].subject == subject
  }

  lemma HeldMeansTaken(s: Sys, t: TaskId)
    requires Inv(s) && t in s.tasks && InUse(s.tasks[t])
    ensures s.tasks[t].phase.lock in s.held <==> Taken(s, s.tasks[t].subject)
  {
    assert TaskOk(s, t);
    var l := s.tasks[t].phase.lock;
    if l in s.held { assert TaskOk(s, s.held[l]); }
    if Taken(s, s.tasks[t].subject) {
      var u :| u in s.tasks && Guarded(s.tasks[u]) && s.tasks[u].subject == s.tasks[t].subject;
      assert TaskOk(s, u);
    }
  }

  /** An eviction does not wait: it goes on if nobody works on its subject, and gives up otherwise. */
  lemma EvictionGoesOnIff(steps: seq<Step>, t: TaskId)
    requires Run(START, steps) && Enabled(End(START, steps), TriesLock(t))
    ensures var s := End(START, steps);
      Apply(s, TriesLock(t)).tasks[t].phase
      == if Taken(s, s.tasks[t].subject) then Over else Evicting(s.tasks[t].phase.lock)
  {
    RunKeepsInv(START, steps);
    HeldMeansTaken(End(START, steps), t);
  }

  /** A waiting task can go on exactly when nobody works on its subject. */
  lemma WaitingTaskGoesOnIff(steps: seq<Step>, t: TaskId)
    requires Run(START, steps) && t in End(START, steps).tasks && End(START, steps).tasks[t].phase.Waiting?
    ensures Enabled(End(START, steps), Locks(t)) <==> !Taken(End(START, steps), End(START, steps).tasks[t].subject)
  {
    RunKeepsInv(START, steps);
    HeldMeansTaken(End(START, steps), t);
  }

  /** Whoever works on the subject, once it unlocks or is dropped a waiting task can go on. */
  lemma FreedLockCanBeTaken(steps: seq<Step>, t: TaskId, u: TaskId)
    requires Run(START, steps) && t in End(START, steps).tasks && u in End(START, steps).tasks
    requires var s := End(START, steps);
      s.tasks[t].phase.Waiting? && Guarded(s.tasks[u]) && s.tasks[u].subject == s.tasks[t].subject
    ensures Enabled(Apply(End(START, steps), Unlocks(u)), Locks(t))
    ensures Enabled(Apply(End(START, steps), IsDropped(u)), Locks(t))
  {
    RunKeepsInv(START, steps);
    var s := End(START, steps);
    assert TaskOk(s, t) && TaskOk(s, u);
  }

  /**
   Single flight: in every interleaving at most one task per subject builds, refreshes,
   logs in or evicts under the lock, although lock objects come and go.
   */
  lemma OneTaskPerSubject(steps: seq<Step>, t: TaskId, u: TaskId)
    requires Run(START, steps)
    requires t in End(START, steps).tasks && u in End(START, steps).tasks
    requires Guarded(End(START, steps).tasks[t]) && Guarded(End(START, steps).tasks[u])
    requires End(START, steps).tasks[t].subject == End(START, steps).tasks[u].subject
    ensures t == u
  {
    RunKeepsInv(START, steps);
    var s := End(START, steps);
    assert TaskOk(s, t) && TaskOk(s, u);
  }

  /** There is never a second lock object in use for a subject. */
  lemma OneLockPerSubject(steps: seq<Step>, t: TaskId, u: TaskId)
    requires Run(START, steps)
    requires t in End(START, steps).tasks && u in End(START, steps).tasks
    requires InUse(End(START, steps).tasks[t]) && InUse(End(START, steps).tasks[u])
    ensures End(START, steps).tasks[t].subject == End(START, steps).tasks[u].subject
       <==> End(START, steps).tasks[t].phase.lock == End(START, steps).tasks[u].phase.lock
  {
    RunKeepsInv(START, steps);
    var s := End(START, steps);
    assert TaskOk(s, t) && TaskOk(s, u);
  }

  lemma RunOfOne(s: Sys, a: Step, rest: seq<Step>)
    requires Enabled(s, a) && Run(Apply(s, a), rest)
    ensures Run(s, [a] + rest) && End(s, [a] + rest) == End(Apply(s, a), rest)
  {
    assert ([a] + rest)[1..] == rest;
  }

  // ---------------------------------------------------------------------------
  // When can an eviction run beside a build?
  // ---------------------------------------------------------------------------

  /** The eviction `t` is removing its subject's backend while another task builds it. */
  predicate Overlaps(s: Sys, t: TaskId) {
    && t in s.tasks && (s.tasks[t].phase.Unguarded? || s.tasks[t].phase.Evicting?)
    && exists u <- s.tasks :: s.tasks[u].subject == s.tasks[t].subject && s.tasks[u].phase.Critical?
  }

  ghost predicate CanOverlap(s: Sys, t: TaskId) {
    exists steps :: Run(s, steps) && Overlaps(End(s, steps), t)
  }

  /** A task that looked into the table and found a lock never removes without it. */
  predicate FoundALock(s: Sys, t: TaskId) {
    t in s.tasks && !s.tasks[t].phase.Unguarded?
  }

  lemma {:induction false} FoundALockStays(s: Sys, t: TaskId, steps: seq<Step>)
    requires FoundALock(s, t) && Run(s, steps)
    ensures FoundALock(End(s, steps), t)
    decreases |steps|
  {
    if steps != [] {
      assert FoundALock(Apply(s, steps[0]), t);
      FoundALockStays(Apply(s, steps[0]), t, steps[1..]);
    }
  }

  lemma GuardedNeverOverlaps(s: Sys, t: TaskId)
    requires Inv(s) && FoundALock(s, t)
    ensures !Overlaps(s, t)
  {
    assert TaskOk(s, t);
    if s.tasks[t].phase.Evicting? {
      forall u | u in s.tasks && s.tasks[u].subject == s.tasks[t].subject ensures !s.tasks[u].phase.Critical? {
        assert TaskOk(s, u);
      }
    }
  }

  lemma {:induction false} UnusedId(used: set<TaskId>) returns (n: TaskId)
    ensures forall t <- used :: t < n
  {
    n := 0;
    if used != {} {
      var t :| t in used;
      n := UnusedId(used - {t});
      n := if t < n then n else t + 1;
      assert forall u <- used :: u == t || u in used - {t};
    }
  }

  lemma BuildJoinsUnguarded(s: Sys, t: TaskId, subject: string) returns (steps: seq<Step>)
    requires Inv(s) && t in s.tasks && s.tasks[t] == Task(subject, Unguarded) && subject !in s.table
    ensures Run(s, steps) && Overlaps(End(s, steps), t)
  {
    var u := UnusedId(s.tasks.Keys);
    assert t in s.tasks.Keys && u !in s.tasks.Keys;
    var s1 := Apply(s, GetsLock(u, subject));
    assert s1.tasks[u] == Task(subject, Waiting(s.nextLock)) && s.nextLock !in s1.held;
    var s2 := Apply(s1, Locks(u));
    assert s2.tasks[u].phase.Critical? && s2.tasks[t] == s.tasks[t];
    RunOfOne(s1, Locks(u), []);
    RunOfOne(s, GetsLock(u, subject), [Locks(u)] + []);
    steps := [GetsLock(u, subject)] + ([Locks(u)] + []);
  }

  /**
   Eviction excludes building only when it found a lock to take. From every state any run
   can reach, an eviction that starts now can come to run beside a build of its subject if
   and only if the table has no lock for the subject at this moment.
   */
  lemma EvictionCanOverlapABuildIff(before: seq<Step>, t: TaskId, subject: string)
    requires Run(START, before) && t !in End(START, before).tasks
    ensures CanOverlap(Apply(End(START, before), StartsEviction(t, subject)), t)
       <==> subject !in End(START, before).table
  {
    RunKeepsInv(START, before);
    var s0 := End(START, before);
    StartsEvictionKeepsInv(s0, t, subject);
    var s := Apply(s0, StartsEviction(t, subject));
    if subject in s0.table {
      forall steps | Run(s, steps) ensures !Overlaps(End(s, steps), t) {
        RunKeepsInv(s, steps);
        FoundALockStays(s, t, steps);
        GuardedNeverOverlaps(End(s, steps), t);
      }
    } else {
      var steps := BuildJoinsUnguarded(s, t, subject);
      assert Run(s, steps) && Overlaps(End(s, steps), t);
    }
  }

  /** After an undisturbed resolve the lock is gone from the table again. */
  lemma UndisturbedResolveLeavesNoLock(s: Sys, t: TaskId)
    requires Inv(s) && Enabled(s, CleansUp(t))
    requires s.tasks[t].subject in s.table && s.table[s.tasks[t].subject] == s.tasks[t].phase.lock
    requires forall u <- s.tasks :: u != t ==> Clone(s.tasks[u]) != Some(s.tasks[t].phase.lock)
    ensures Apply(s, CleansUp(t)).table == s.table - {s.tasks[t].subject}
  {
    var l := s.tasks[t].phase.lock;
    assert Clones(s, l) == {t};
    assert Slots(s, l) == {s.tasks[t].subject};
  }
}
