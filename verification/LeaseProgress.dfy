/**
 What comes of the node lease: renewals renew, releases release, attempts end for a
 reason, and a holder that dies is replaced.
 */
module LeaseProgress {
  import opened Wrappers
  import opened NodeLease

  // ---------------------------------------------------------------------------
  // Release
  // ---------------------------------------------------------------------------

  /** The Lease after its holder has let go: as it was, one version on, and nobody's. */
  predicate LetGo(before: Option<Lease>, after: Option<Lease>) {
    && before.Some? && after.Some? && after.value.holder.None?
    && after.value.version == before.value.version + 1 && after.value.transitions == before.value.transitions
  }

  function ReleaseSteps(s: Sys, t: TaskId): seq<Step> {
    [ReleaseBegins(t)] + ([ReleaseGets(t)] + ([ReleaseSends(t)] + [ServerAnswers(s.nextRequest)]))
  }

  lemma ClearAnswered(s: Sys, r: RequestId)
    requires r in s.net && s.net[r].task in s.tasks && s.net[r].write.Clear? && s.lease.Some?
    requires s.net[r].write.version == s.lease.value.version
    ensures Run(s, [ServerAnswers(r)])
    ensures LetGo(s.lease, End(s, [ServerAnswers(r)]).lease)
    ensures End(s, [ServerAnswers(r)]).tasks == s.tasks && End(s, [ServerAnswers(r)]).live == s.live
  {
    RunOfOne(s, ServerAnswers(r), []);
  }

  lemma HolderReleases(s: Sys, t: TaskId)
    requires Holds(s, t) && s.tasks[t].renewal.Sleeping? && HolderIs(s.lease, s.tasks[t].pod)
    ensures Run(s, ReleaseSteps(s, t))
    ensures var e := End(s, ReleaseSteps(s, t));
      && LetGo(s.lease, e.lease) && e.live == s.live
      && e.tasks == s.tasks[t := s.tasks[t].(phase := Finished(Released), renewal := Off)]
  {
    var s1 := Apply(s, ReleaseBegins(t));
    var s2 := Apply(s1, ReleaseGets(t));
    var s3 := Apply(s2, ReleaseSends(t));
    ClearAnswered(s3, s.nextRequest);
    RunOfOne(s2, ReleaseSends(t), [ServerAnswers(s.nextRequest)]);
    RunOfOne(s1, ReleaseGets(t), [ReleaseSends(t)] + [ServerAnswers(s.nextRequest)]);
    RunOfOne(s, ReleaseBegins(t), [ReleaseGets(t)] + ([ReleaseSends(t)] + [ServerAnswers(s.nextRequest)]));
    assert s3.tasks == s.tasks[t := s.tasks[t].(phase := Finished(Released), renewal := Off)];
  }

  /**
   A release releases: from every reachable state a holder whose renewal rests can stop, read,
   write and be answered, and then the stored Lease names nobody.
   */
  lemma ReleaseFreesTheLease(s: Sys, steps: seq<Step>, t: TaskId)
    requires Init(s) && Run(s, steps)
    requires Holds(End(s, steps), t) && End(s, steps).tasks[t].renewal.Sleeping?
    ensures var e := End(s, steps);
      && Run(e, ReleaseSteps(e, t))
      && LetGo(e.lease, End(e, ReleaseSteps(e, t)).lease)
      && !Holds(End(e, ReleaseSteps(e, t)), t)
  {
    AtMostOneHolder(s, steps, t, t);
    HolderReleases(End(s, steps), t);
  }

  lemma {:induction false} RunsJoin(s: Sys, a: seq<Step>, b: seq<Step>)
    requires Run(s, a) && Run(End(s, a), b)
    ensures Run(s, a + b) && End(s, a + b) == End(End(s, a), b)
    decreases |a|
  {
    if a == [] {
      assert a + b == b;
    } else {
      RunsJoin(Apply(s, a[0]), a[1..], b);
      assert (a + b)[1..] == a[1..] + b;
    }
  }

  /** A task that is about to read, or has yet to begin. */
  predicate Ready(s: Sys, u: TaskId, p: Pod) {
    p in s.live && (u in s.tasks ==> s.tasks[u].pod == p && s.tasks[u].phase.Reading?)
  }

  lemma ReaderTakes(s: Sys, u: TaskId, p: Pod) returns (steps: seq<Step>)
    requires Inv(s) && Ready(s, u, p) && u in s.tasks
    requires s.lease.Some? ==> Vacant(s, s.lease.value.holder)
    ensures Run(s, steps) && Holds(End(s, steps), u) && HolderIs(End(s, steps).lease, p)
  {
    steps := VacantLeaseCanBeTaken(s, u);
    RunKeepsInv(s, steps);
    KeepsItsPod(s, steps, u);
    assert Tenant(End(s, steps), u);
  }

  /** Any ready task of a live pod can take a lease that names no live pod. */
  lemma ReadyTaskTakes(s: Sys, u: TaskId, p: Pod) returns (steps: seq<Step>)
    requires Inv(s) && Ready(s, u, p)
    requires s.lease.Some? ==> Vacant(s, s.lease.value.holder)
    ensures Run(s, steps) && Holds(End(s, steps), u) && HolderIs(End(s, steps).lease, p)
  {
    if u in s.tasks {
      steps := ReaderTakes(s, u, p);
    } else {
      StepKeepsInv(s, AcquireBegins(u, p));
      var rest := ReaderTakes(Apply(s, AcquireBegins(u, p)), u, p);
      RunOfOne(s, AcquireBegins(u, p), rest);
      steps := [AcquireBegins(u, p)] + rest;
    }
  }

  /** What one holder lets go, any ready task of any live pod can have. */
  lemma ReleasedLeaseCanBeTaken(s: Sys, steps: seq<Step>, t: TaskId, u: TaskId, p: Pod) returns (more: seq<Step>)
    requires Init(s) && Run(s, steps)
    requires Holds(End(s, steps), t) && End(s, steps).tasks[t].renewal.Sleeping?
    requires Ready(End(s, steps), u, p)
    ensures Run(End(s, steps), more)
    ensures Holds(End(End(s, steps), more), u) && HolderIs(End(End(s, steps), more).lease, p)
  {
    var e := End(s, steps);
    RunKeepsInv(s, steps);
    AtMostOneHolder(s, steps, t, t);
    HolderReleases(e, t);
    RunKeepsInv(e, ReleaseSteps(e, t));
    var rest := ReadyTaskTakes(End(e, ReleaseSteps(e, t)), u, p);
    RunsJoin(e, ReleaseSteps(e, t), rest);
    more := ReleaseSteps(e, t) + rest;
  }

  lemma {:induction false} KeepsItsPod(s: Sys, steps: seq<Step>, t: TaskId)
    requires Run(s, steps) && t in s.tasks
    ensures t in End(s, steps).tasks && End(s, steps).tasks[t].pod == s.tasks[t].pod
    decreases |steps|
  {
    if steps != [] { KeepsItsPod(Apply(s, steps[0]), steps[1..], t); }
  }

  function RenewalSteps(s: Sys, t: TaskId): seq<Step> {
    [RenewGets(t)] + ([RenewSends(t)] + ([ServerAnswers(s.nextRequest)] + [RenewHears(t)]))
  }

  /** The Lease is one version on and otherwise the same; its holder holds on and has no failure to its name. */
  predicate Renewed(s: Sys, e: Sys, t: TaskId) {
    && s.lease.Some? && e.lease == Some(s.lease.value.(version := s.lease.value.version + 1))
    && Holds(s, t) && Holds(e, t) && e.tasks[t].renewal.Sleeping? && e.tasks[t].failures == 0
    && e.tasks[t].cancelled == s.tasks[t].cancelled
  }

  lemma RenewalAnswered(s: Sys, t: TaskId, r: RequestId)
    requires Holds(s, t) && s.tasks[t].renewal == Awaiting(r) && r in s.net && s.lease.Some?
    requires s.net[r] == Request(t, Renew(s.lease.value.version))
    ensures var rest := [ServerAnswers(r)] + [RenewHears(t)];
      Run(s, rest) && Renewed(s, End(s, rest), t)
  {
    var s1 := Apply(s, ServerAnswers(r));
    assert s1.replies[r] == Ok;
    RunOfOne(s1, RenewHears(t), []);
    RunOfOne(s, ServerAnswers(r), [RenewHears(t)]);
  }

  lemma HolderRenews(s: Sys, t: TaskId)
    requires Holds(s, t) && s.tasks[t].renewal.Sleeping? && HolderIs(s.lease, s.tasks[t].pod)
    ensures Run(s, RenewalSteps(s, t)) && Renewed(s, End(s, RenewalSteps(s, t)), t)
  {
    var s1 := Apply(s, RenewGets(t));
    var s2 := Apply(s1, RenewSends(t));
    RenewalAnswered(s2, t, s.nextRequest);
    RunOfOne(s1, RenewSends(t), [ServerAnswers(s.nextRequest)] + [RenewHears(t)]);
    RunOfOne(s, RenewGets(t), [RenewSends(t)] + ([ServerAnswers(s.nextRequest)] + [RenewHears(t)]));
  }

  /** An undisturbed renewal succeeds, in every run. */
  lemma RenewalRenews(s: Sys, steps: seq<Step>, t: TaskId)
    requires Init(s) && Run(s, steps)
    requires Holds(End(s, steps), t) && End(s, steps).tasks[t].renewal.Sleeping?
    ensures Run(End(s, steps), RenewalSteps(End(s, steps), t))
    ensures Renewed(End(s, steps), End(End(s, steps), RenewalSteps(End(s, steps), t)), t)
  {
    AtMostOneHolder(s, steps, t, t);
    HolderRenews(End(s, steps), t);
  }

  // ---------------------------------------------------------------------------
  // How an attempt to acquire ends
  // ---------------------------------------------------------------------------

  /** The writes a task has sent to acquire. */
  function Sends(steps: seq<Step>, t: TaskId): nat {
    if steps == [] then 0 else (if steps[0] == AcquireSends(t) then 1 else 0) + Sends(steps[1..], t)
  }

  /** While it acquires, a task counts its attempts. */
  function Tried(k: Task): Option<nat> {
    match k.phase
    case Reading(a) => Some(a)
    case Inspecting(a, _) => Some(a)
    case Writing(a, _) => Some(a)
    case Waiting(a, _) => Some(a + 1)
    case _ => None
  }

  function TriedBy(s: Sys, t: TaskId): Option<nat> {
    if t in s.tasks then Tried(s.tasks[t]) else Some(0)
  }

  /** The task whose record a step changes. */
  function Mover(st: Step): Option<TaskId> {
    if st.PodStarts? || st.PodDies? || st.ServerAnswers? || st.ServerRefuses? then None else Some(st.t)
  }

  lemma OthersRest(s: Sys, st: Step, t: TaskId)
    requires Enabled(s, st) && Mover(st) != Some(t)
    ensures t in Apply(s, st).tasks <==> t in s.tasks
    ensures t in s.tasks ==> Apply(s, st).tasks[t] == s.tasks[t]
  {
    if st.ServerAnswers? { assert Answer(s, st.r).tasks == s.tasks; }
  }

  /** Only acquiring goes on from acquiring. */
  lemma MoveCountsSends(s: Sys, st: Step, t: TaskId)
    requires Enabled(s, st) && Mover(st) == Some(t) && TriedBy(Apply(s, st), t).Some?
    ensures TriedBy(s, t).Some?
    ensures TriedBy(Apply(s, st), t).value == TriedBy(s, t).value + if st == AcquireSends(t) then 1 else 0
  {
    match st
    case AcquireBegins(_, _) =>
    case AcquireGets(_) =>
    case AcquireLists(_, _) =>
    case AcquireSends(_) =>
    case AcquireHears(_) =>
    case _ =>
  }

  lemma StepCountsSends(s: Sys, st: Step, t: TaskId)
    requires Enabled(s, st) && TriedBy(Apply(s, st), t).Some?
    ensures TriedBy(s, t).Some?
    ensures TriedBy(Apply(s, st), t).value == TriedBy(s, t).value + if st == AcquireSends(t) then 1 else 0
  {
    if Mover(st) == Some(t) { MoveCountsSends(s, st, t); } else { OthersRest(s, st, t); }
  }

  lemma {:induction false} AttemptsAreSends(s: Sys, steps: seq<Step>, t: TaskId)
    requires Run(s, steps) && TriedBy(End(s, steps), t).Some?
    ensures TriedBy(s, t).Some? && TriedBy(End(s, steps), t).value == TriedBy(s, t).value + Sends(steps, t)
    decreases |steps|
  {
    if steps != [] {
      AttemptsAreSends(Apply(s, steps[0]), steps[1..], t);
      StepCountsSends(s, steps[0], t);
    }
  }

  /** Attempts are numbered from 0 to 3. */
  predicate Numbered(k: Task) {
    Tried(k).Some? ==> Tried(k).value < MAX_ATTEMPTS + if k.phase.Waiting? then 1 else 0
  }

  lemma MoveIsNumbered(s: Sys, st: Step, t: TaskId)
    requires Enabled(s, st) && Mover(st) == Some(t) && (t in s.tasks ==> Numbered(s.tasks[t]))
    ensures t in Apply(s, st).tasks && Numbered(Apply(s, st).tasks[t])
  {
    match st
    case AcquireBegins(_, _) =>
    case AcquireGets(_) =>
    case AcquireLists(_, _) =>
    case AcquireSends(_) =>
    case AcquireHears(_) =>
    case _ =>
  }

  lemma {:induction false} AttemptsAreNumbered(s: Sys, steps: seq<Step>, t: TaskId)
    requires Run(s, steps) && t in End(s, steps).tasks && (t in s.tasks ==> Numbered(s.tasks[t]))
    ensures Numbered(End(s, steps).tasks[t])
    decreases |steps|
  {
    if steps != [] {
      if Mover(steps[0]) == Some(t) { MoveIsNumbered(s, steps[0], t); } else { OthersRest(s, steps[0], t); }
      AttemptsAreNumbered(Apply(s, steps[0]), steps[1..], t);
    }
  }

  /** The step by which a task's attempt to acquire ends. */
  ghost predicate Gives(s: Sys, st: Step, t: TaskId, outcome: Outcome)
  {
    Enabled(s, st) && t in s.tasks && Tried(s.tasks[t]).Some? && Apply(s, st).tasks[t].phase == Finished(outcome)
  }

  lemma GivingUp(s: Sys, st: Step, t: TaskId)
    requires Enabled(s, st) && Mover(st) == Some(t) && t in s.tasks && Tried(s.tasks[t]).Some? && Numbered(s.tasks[t])
    ensures Gives(s, st, t, Busy) <==>
        (st.AcquireLists? && s.tasks[t].phase.held.holder.Some?
         && HolderPodExists(s.tasks[t].phase.held.holder.value, st.listed))
        || (st.AcquireHears? && s.replies[s.tasks[t].phase.request] == Conflict && Tried(s.tasks[t]) == Some(4))
    ensures Gives(s, st, t, ApiError) <==>
        st.AcquireReadFails? || st.AcquireTimesOut?
        || (st.AcquireHears? && s.replies[s.tasks[t].phase.request] == Failed)
  {
    match st
    case AcquireGets(_) =>
    case AcquireLists(_, _) =>
    case AcquireSends(_) =>
    case AcquireHears(_) =>
    case _ =>
  }

  /**
   `Busy` has two reasons and no other: a listing with the holder's own pod in it, or with a
   holder that is no identity, and a fourth write that came too late. Any other way to give
   up is a request that failed.
   */
  lemma BusyMeansHeldOrContended(s: Sys, steps: seq<Step>, st: Step, t: TaskId)
    requires Init(s) && Run(s, steps) && Enabled(End(s, steps), st) && Mover(st) == Some(t)
    requires t in End(s, steps).tasks && Tried(End(s, steps).tasks[t]).Some?
    ensures var e := End(s, steps);
      && (Gives(e, st, t, Busy) <==>
            (st.AcquireLists? && e.tasks[t].phase.held.holder.Some?
             && HolderPodExists(e.tasks[t].phase.held.holder.value, st.listed))
            || (st.AcquireHears? && e.replies[e.tasks[t].phase.request] == Conflict && Sends(steps, t) == 4))
      && (Gives(e, st, t, ApiError) <==>
            st.AcquireReadFails? || st.AcquireTimesOut?
            || (st.AcquireHears? && e.replies[e.tasks[t].phase.request] == Failed))
  {
    AttemptsAreSends(s, steps, t);
    AttemptsAreNumbered(s, steps, t);
    GivingUp(End(s, steps), st, t);
  }

  /** A conflict before the fourth write makes the task look again. */
  lemma ConflictLooksAgain(s: Sys, steps: seq<Step>, t: TaskId)
    requires Init(s) && Run(s, steps) && Enabled(End(s, steps), AcquireHears(t))
    requires End(s, steps).replies[End(s, steps).tasks[t].phase.request] == Conflict
    ensures Enabled(Apply(End(s, steps), AcquireHears(t)), AcquireGets(t)) <==> Sends(steps, t) < 4
  {
    AttemptsAreSends(s, steps, t);
  }

  predicate FinishedAs(s: Sys, t: TaskId, outcome: Outcome) {
    t in s.tasks && s.tasks[t].phase == Finished(outcome)
  }

  /** A request the server refuses ends the attempt with an error, not with `Busy`. */
  lemma RefusedAttemptFails(s: Sys, t: TaskId, r: RequestId)
    requires Runs(s, t) && s.tasks[t].phase.Waiting? && s.tasks[t].phase.request == r && r in s.net
    ensures Run(s, [ServerRefuses(r)] + [AcquireHears(t)])
    ensures FinishedAs(End(s, [ServerRefuses(r)] + [AcquireHears(t)]), t, ApiError)
    ensures End(s, [ServerRefuses(r)] + [AcquireHears(t)]).lease == s.lease
  {
    RunOfOne(Apply(s, ServerRefuses(r)), AcquireHears(t), []);
    RunOfOne(s, ServerRefuses(r), [AcquireHears(t)]);
  }

  // ---------------------------------------------------------------------------
  // The renewal loop and the end of a tenure
  // ---------------------------------------------------------------------------

  predicate LoopOk(k: Task) {
    !k.renewal.Off? <==> RenewalLoopAlive(k)
  }

  lemma MoveKeepsLoop(s: Sys, st: Step, t: TaskId)
    requires Enabled(s, st) && Mover(st) == Some(t) && (t in s.tasks ==> LoopOk(s.tasks[t]))
    ensures t in Apply(s, st).tasks && LoopOk(Apply(s, st).tasks[t])
  {
    match st
    case AcquireBegins(_, _) =>
    case AcquireHears(_) =>
    case RenewGets(_) =>
    case RenewSends(_) =>
    case RenewHears(_) =>
    case RenewFails(_) =>
    case _ =>
  }

  lemma {:induction false} LoopsStayOk(s: Sys, steps: seq<Step>, t: TaskId)
    requires Run(s, steps) && t in End(s, steps).tasks && (t in s.tasks ==> LoopOk(s.tasks[t]))
    ensures LoopOk(End(s, steps).tasks[t])
    decreases |steps|
  {
    if steps != [] {
      if Mover(steps[0]) == Some(t) { MoveKeepsLoop(s, steps[0], t); } else { OthersRest(s, steps[0], t); }
      LoopsStayOk(Apply(s, steps[0]), steps[1..], t);
    }
  }

  /**
   A renewal loop runs beside exactly the tasks that have won the lease and not let go of it:
   the holder, the one that is stopping, and the one whose handle was dropped.
   */
  lemma RenewalRunsIff(s: Sys, steps: seq<Step>, t: TaskId)
    requires Init(s) && Run(s, steps) && t in End(s, steps).tasks
    ensures var k := End(s, steps).tasks[t];
      k.renewal != Off <==> k.phase == Holding || k.phase == Stopping || k.phase == Finished(Dropped)
  {
    LoopsStayOk(s, steps, t);
  }

  /** A release returns whether or not its requests succeed; without its own name in the Lease it sends none. */
  lemma ReleaseReturns(s: Sys, t: TaskId)
    requires Enabled(s, ReleaseGets(t))
    ensures FinishedAs(Apply(s, ReleaseReadFails(t)), t, Released)
    ensures !HolderIs(s.lease, s.tasks[t].pod) ==> FinishedAs(Apply(s, ReleaseGets(t)), t, Released)
    ensures HolderIs(s.lease, s.tasks[t].pod) ==> Enabled(Apply(s, ReleaseGets(t)), ReleaseSends(t))
  {
  }

  lemma SentReleaseReturns(s: Sys, t: TaskId)
    requires Enabled(s, ReleaseSends(t))
    ensures FinishedAs(Apply(s, ReleaseSends(t)), t, Released)
  {
  }

  /** A dropped handle holds nothing, but nothing tells the server. */
  lemma DroppedHandleLeavesTheLease(s: Sys, t: TaskId)
    requires Enabled(s, HandleDropped(t))
    ensures !Holds(Apply(s, HandleDropped(t)), t)
    ensures Apply(s, HandleDropped(t)).lease == s.lease && Apply(s, HandleDropped(t)).net == s.net
  {
  }

  /**
   A holder's pod dies and a new pod starts, of the same name perhaps: a task of the new pod
   can take the lease from the dead one.
   */
  lemma ReplacementTakesOver(s: Sys, steps: seq<Step>, t: TaskId, u: TaskId, q: Pod) returns (more: seq<Step>)
    requires Init(s) && Run(s, steps) && Holds(End(s, steps), t)
    requires q !in End(s, steps).born && '/' !in q.name && u !in End(s, steps).tasks
    ensures Run(End(s, steps), more)
    ensures Holds(End(End(s, steps), more), u) && HolderIs(End(End(s, steps), more).lease, q)
  {
    var e := End(s, steps);
    RunKeepsInv(s, steps);
    AtMostOneHolder(s, steps, t, t);
    assert TaskOk(e, t);
    SplitIdentity(e.tasks[t].pod);
    var dies, starts := PodDies(e.tasks[t].pod), PodStarts(q);
    var e1 := Apply(e, dies);
    var e2 := Apply(e1, starts);
    StepKeepsInv(e, dies);
    StepKeepsInv(e1, starts);
    var rest := ReadyTaskTakes(e2, u, q);
    RunOfOne(e1, starts, rest);
    RunOfOne(e, dies, [starts] + rest);
    more := [dies] + ([starts] + rest);
  }

  /** How a Lease may follow another: created with nothing counted, or counting each new holder. */
  predicate Counted(before: Option<Lease>, after: Option<Lease>) {
    if before.None? then after.Some? ==> after.value.version == 0 && after.value.transitions == 0
    else
      && after.Some?
      && after.value.transitions == before.value.transitions
         + if after.value.holder.Some? && after.value.holder != before.value.holder then 1 else 0
  }

  /** The Lease counts its holders: one more exactly when somebody new is put in. */
  lemma TransitionsCountHolders(s: Sys, steps: seq<Step>, st: Step)
    requires Init(s) && Run(s, steps) && Enabled(End(s, steps), st)
    ensures Counted(End(s, steps).lease, Apply(End(s, steps), st).lease)
  {
    RunKeepsInv(s, steps);
    var e := End(s, steps);
    if st.ServerAnswers? {
      assert RequestOk(e, st.r);
    } else {
      OnlyAnswersWrite(e, st);
    }
  }

  lemma OnlyAnswersWrite(s: Sys, st: Step)
    requires Enabled(s, st) && !st.ServerAnswers?
    ensures Apply(s, st).lease == s.lease
  {
  }
}
