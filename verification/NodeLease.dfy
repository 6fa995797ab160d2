/**
 The node lease: replicas contend for one Kubernetes Lease object per target
 node. A replica reads the Lease, lists the replica pods, and then writes with a
 `resourceVersion` precondition; it never looks at a clock. Every API call is a
 step of its own, requests can outlive the task that sent them, replies can be
 lost and pods can die between any two steps.

 Environment assumptions, stated in `Enabled`:
 - the API server answers each request atomically and refuses a write whose
   version is not the stored one;
 - a new pod never carries the name and uid of an earlier one, and a pod name
   has no '/';
 - `pods()` lists every pod that is alive (it may also list dead ones);
 - only replicas write the Lease and nobody deletes it.
 */
module NodeLease {
  import opened Wrappers

  /** What identifies a replica: `RODER_POD_NAME` and `RODER_POD_UID`. */
  datatype Pod = Pod(name: string, uid: string)

  function Identity(p: Pod): string {
    p.name + "/" + p.uid
  }

  /** `str::split_once('/')`: cut at the first slash, if there is one. */
  function SplitOnce(s: string): Option<Pod> {
    if s == "" then None
    else if s[0] == '/' then Some(Pod("", s[1..]))
    else match SplitOnce(s[1..])
      case None => None
      case Some(p) => Some(Pod([s[0]] + p.name, p.uid))
  }

  /** The program's fencing test: a holder that does not parse counts as alive. */
  predicate HolderPodExists(holder: string, pods: set<Pod>) {
    match SplitOnce(holder)
    case None => true
    case Some(p) => p in pods
  }

  /** A pod's identity splits back into the pod, provided its name has no slash. */
  lemma {:induction false} SplitIdentity(p: Pod)
    requires '/' !in p.name
    ensures SplitOnce(Identity(p)) == Some(p)
    decreases |p.name|
  {
    var s := Identity(p);
    if p.name == "" {
      assert s[1..] == p.uid;
    } else {
      assert s[1..] == Identity(Pod(p.name[1..], p.uid));
      SplitIdentity(Pod(p.name[1..], p.uid));
      assert p.name == [p.name[0]] + p.name[1..];
    }
  }

  /**
   The fencing test answers exactly "is this very pod, name and uid, listed?".
   A recreated pod of the same name has another uid and does not count.
   */
  lemma FencedByNameAndUid(p: Pod, pods: set<Pod>)
    requires '/' !in p.name
    ensures HolderPodExists(Identity(p), pods) <==> p in pods
  {
    SplitIdentity(p);
  }

  /** Why the name must have no slash: two different pods would share an identity. */
  lemma SlashInNameDefeatsFencing()
    ensures Identity(Pod("a/b", "c")) == Identity(Pod("a", "b/c"))
    ensures HolderPodExists(Identity(Pod("a/b", "c")), {Pod("a", "b/c")})
  {
    SplitIdentity(Pod("a", "b/c"));
    assert Identity(Pod("a/b", "c")) == "a/b/c" == Identity(Pod("a", "b/c"));
  }

  // ---------------------------------------------------------------------------
  // State
  // ---------------------------------------------------------------------------

  type TaskId = nat
  type RequestId = nat

  datatype Lease = Lease(version: nat, holder: Option<string>, transitions: int)

  /** The three writes the program sends. `Take` covers create and takeover. */
  datatype Write =
    | Take(seen: Option<Lease>)
    | Renew(version: nat)
    | Clear(version: nat)

  datatype Request = Request(task: TaskId, write: Write)

  datatype Reply = Ok | Conflict | Failed

  datatype Outcome = Busy | ApiError | Released | Dropped

  datatype Phase =
    | Reading(attempt: nat)                              // before get_opt
    | Inspecting(attempt: nat, held: Lease)              // before pods()
    | Writing(attempt: nat, seen: Option<Lease>)         // before create/patch
    | Waiting(attempt: nat, request: RequestId)          // write in flight
    | Holding                                            // acquire returned Ok
    | Stopping                                           // release: renewal asked to stop
    | Clearing(version: nat)                             // release: before its patch
    | Finished(outcome: Outcome)

  /** The renewal loop, which runs beside its task while the lease is held. */
  datatype Renewal = Off | Sleeping | Renewing(version: nat) | Awaiting(request: RequestId)

  datatype Task = Task(pod: Pod, phase: Phase, renewal: Renewal, failures: nat, cancelled: bool)

  /**
   `owner` is a history variable: the task whose winning write put the current
   holder there. No step reads it to decide anything.
   */
  datatype Sys = Sys(
    born: set<Pod>,
    live: set<Pod>,
    lease: Option<Lease>,
    owner: Option<TaskId>,
    tasks: map<TaskId, Task>,
    net: map<RequestId, Request>,
    replies: map<RequestId, Reply>,
    nextRequest: RequestId)

  const MAX_ATTEMPTS := 4
  const MAX_FAILURES := 3

  datatype Step =
    | PodStarts(pod: Pod)
    | PodDies(pod: Pod)
    | AcquireBegins(t: TaskId, pod: Pod)
    | AcquireGets(t: TaskId)
    | AcquireLists(t: TaskId, listed: set<Pod>)
    | AcquireReadFails(t: TaskId)
    | AcquireSends(t: TaskId)
    | AcquireHears(t: TaskId)
    | AcquireTimesOut(t: TaskId)
    | ServerAnswers(r: RequestId)
    | ServerRefuses(r: RequestId)
    | RenewGets(t: TaskId)
    | RenewSends(t: TaskId)
    | RenewHears(t: TaskId)
    | RenewFails(t: TaskId)
    | ReleaseBegins(t: TaskId)
    | ReleaseGets(t: TaskId)
    | ReleaseReadFails(t: TaskId)
    | ReleaseSends(t: TaskId)
    | HandleDropped(t: TaskId)

  /** A task takes a step only while its pod is alive. */
  predicate Runs(s: Sys, t: TaskId) {
    t in s.tasks && s.tasks[t].pod in s.live
  }

  predicate RenewalLoopAlive(k: Task) {
    k.phase.Holding? || k.phase.Stopping? || (k.phase.Finished? && k.phase.outcome == Dropped)
  }

  predicate Enabled(s: Sys, st: Step) {
    match st
    case PodStarts(p) => p !in s.born && '/' !in p.name
    case PodDies(p) => p in s.live
    case AcquireBegins(t, p) => t !in s.tasks && p in s.live
    case AcquireGets(t) => Runs(s, t) && s.tasks[t].phase.Reading?
    case AcquireLists(t, listed) => Runs(s, t) && s.tasks[t].phase.Inspecting? && s.live <= listed
    case AcquireReadFails(t) => Runs(s, t) && (s.tasks[t].phase.Reading? || s.tasks[t].phase.Inspecting?)
    case AcquireSends(t) => Runs(s, t) && s.tasks[t].phase.Writing?
    case AcquireHears(t) => Runs(s, t) && s.tasks[t].phase.Waiting? && s.tasks[t].phase.request in s.replies
    case AcquireTimesOut(t) => Runs(s, t) && s.tasks[t].phase.Waiting?
    case ServerAnswers(r) => r in s.net
    case ServerRefuses(r) => r in s.net
    case RenewGets(t) => Runs(s, t) && s.tasks[t].renewal.Sleeping? && RenewalLoopAlive(s.tasks[t])
    case RenewSends(t) => Runs(s, t) && s.tasks[t].renewal.Renewing?
    case RenewHears(t) => Runs(s, t) && s.tasks[t].renewal.Awaiting? && s.tasks[t].renewal.request in s.replies
    case RenewFails(t) => Runs(s, t) && !s.tasks[t].renewal.Off? && RenewalLoopAlive(s.tasks[t])
    case ReleaseBegins(t) => Runs(s, t) && s.tasks[t].phase.Holding?
    case ReleaseGets(t) => Runs(s, t) && s.tasks[t].phase.Stopping? && s.tasks[t].renewal.Sleeping?
    case ReleaseReadFails(t) => Runs(s, t) && s.tasks[t].phase.Stopping? && s.tasks[t].renewal.Sleeping?
    case ReleaseSends(t) => Runs(s, t) && s.tasks[t].phase.Clearing?
    case HandleDropped(t) => Runs(s, t) && s.tasks[t].phase.Holding?
  }

  function Update(s: Sys, t: TaskId, k: Task): Sys {
    s.(tasks := s.tasks[t := k])
  }

  function Post(s: Sys, t: TaskId, w: Write, k: Task): Sys {
    s.(tasks := s.tasks[t := k], net := s.net[s.nextRequest := Request(t, w)], nextRequest := s.nextRequest + 1)
  }

  /** One more consecutive renewal failure; the third raises the cancel flag. */
  function RenewalFailed(k: Task): Task {
    k.(renewal := Sleeping, failures := k.failures + 1,
       cancelled := k.cancelled || k.failures + 1 >= MAX_FAILURES)
  }

  /** What a task makes of the reply to its create or patch: hold, look again, or give up. */
  function Heard(k: Task, reply: Reply): Task
    requires k.phase.Waiting?
  {
    match reply
    case Ok => k.(phase := Holding, renewal := Sleeping)
    case Conflict =>
      k.(phase := if k.phase.attempt + 1 < MAX_ATTEMPTS then Reading(k.phase.attempt + 1) else Finished(Busy))
    case Failed => k.(phase := Finished(ApiError))
  }

  function HolderIs(lease: Option<Lease>, p: Pod): bool {
    lease.Some? && lease.value.holder == Some(Identity(p))
  }

  /** Does the precondition carried by the write match what is stored? */
  predicate Matches(lease: Option<Lease>, w: Write) {
    match w
    case Take(None) => lease == None
    case Take(Some(seen)) => lease.Some? && lease.value.version == seen.version
    case Renew(v) => lease.Some? && lease.value.version == v
    case Clear(v) => lease.Some? && lease.value.version == v
  }

  /** The stored Lease after a write whose precondition matched. */
  function Written(lease: Option<Lease>, w: Write, writer: Pod): Lease
    requires Matches(lease, w)
  {
    match w
    case Take(None) => Lease(0, Some(Identity(writer)), 0)
    case Take(Some(seen)) =>
      Lease(seen.version + 1, Some(Identity(writer)),
            seen.transitions + (if seen.holder == Some(Identity(writer)) then 0 else 1))
    case Renew(v) => lease.value.(version := v + 1)
    case Clear(v) => lease.value.(version := v + 1, holder := None)
  }

  function Answer(s: Sys, r: RequestId): Sys
    requires r in s.net
  {
    var q := s.net[r];
    var s1 := s.(net := s.net - {r});
    if q.task in s.tasks && Matches(s.lease, q.write) then
      s1.(lease := Some(Written(s.lease, q.write, s.tasks[q.task].pod)),
          owner := (match q.write case Take(_) => Some(q.task) case Renew(_) => s.owner case Clear(_) => None),
          replies := s.replies[r := Ok])
    else
      s1.(replies := s.replies[r := Conflict])
  }

  function Apply(s: Sys, st: Step): Sys
    requires Enabled(s, st)
  {
    match st
    case PodStarts(p) => s.(born := s.born + {p}, live := s.live + {p})
    case PodDies(p) => s.(live := s.live - {p})
    case AcquireBegins(t, p) => Update(s, t, Task(p, Reading(0), Off, 0, false))
    case AcquireGets(t) =>
      var k := s.tasks[t];
      if s.lease.Some? && s.lease.value.holder.Some? then
        Update(s, t, k.(phase := Inspecting(k.phase.attempt, s.lease.value)))
      else
        Update(s, t, k.(phase := Writing(k.phase.attempt, s.lease)))
    case AcquireLists(t, listed) =>
      var k := s.tasks[t];
      if k.phase.held.holder.Some? && HolderPodExists(k.phase.held.holder.value, listed) then
        Update(s, t, k.(phase := Finished(Busy)))
      else
        Update(s, t, k.(phase := Writing(k.phase.attempt, Some(k.phase.held))))
    case AcquireReadFails(t) => Update(s, t, s.tasks[t].(phase := Finished(ApiError)))
    case AcquireSends(t) =>
      var k := s.tasks[t];
      Post(s, t, Take(k.phase.seen), k.(phase := Waiting(k.phase.attempt, s.nextRequest)))
    case AcquireHears(t) => Update(s, t, Heard(s.tasks[t], s.replies[s.tasks[t].phase.request]))
    case AcquireTimesOut(t) => Update(s, t, s.tasks[t].(phase := Finished(ApiError)))
    case ServerAnswers(r) => Answer(s, r)
    case ServerRefuses(r) => s.(net := s.net - {r}, replies := s.replies[r := Failed])
    case RenewGets(t) =>
      var k := s.tasks[t];
      if HolderIs(s.lease, k.pod)
      then Update(s, t, k.(renewal := Renewing(s.lease.value.version)))
      else Update(s, t, RenewalFailed(k))
    case RenewSends(t) =>
      var k := s.tasks[t];
      Post(s, t, Renew(k.renewal.version), k.(renewal := Awaiting(s.nextRequest)))
    case RenewHears(t) =>
      var k := s.tasks[t];
      if s.replies[k.renewal.request] == Ok
      then Update(s, t, k.(renewal := Sleeping, failures := 0))
      else Update(s, t, RenewalFailed(k))
    case RenewFails(t) => Update(s, t, RenewalFailed(s.tasks[t]))
    case ReleaseBegins(t) => Update(s, t, s.tasks[t].(phase := Stopping))
    case ReleaseGets(t) =>
      var k := s.tasks[t];
      if HolderIs(s.lease, k.pod)
      then Update(s, t, k.(phase := Clearing(s.lease.value.version), renewal := Off))
      else Update(s, t, k.(phase := Finished(Released), renewal := Off))
    case ReleaseReadFails(t) => Update(s, t, s.tasks[t].(phase := Finished(Released), renewal := Off))
    case ReleaseSends(t) =>
      var k := s.tasks[t];
      Post(s, t, Clear(k.phase.version), k.(phase := Finished(Released)))
    case HandleDropped(t) => Update(s, t, s.tasks[t].(phase := Finished(Dropped)))
  }

  // ---------------------------------------------------------------------------
  // Invariant
  // ---------------------------------------------------------------------------

  /** A holder string that parses names a pod that exists or once existed. */
  predicate Known(s: Sys, holder: Option<string>) {
    holder.Some? && SplitOnce(holder.value).Some? ==> SplitOnce(holder.value).value in s.born
  }

  /** No live pod is named, now or ever again. */
  predicate Vacant(s: Sys, holder: Option<string>) {
    holder.None? || (SplitOnce(holder.value).Some? &&
                     SplitOnce(holder.value).value in s.born && SplitOnce(holder.value).value !in s.live)
  }

  /** A Lease read earlier is the stored one if the version still matches. */
  predicate Snapshot(s: Sys, seen: Lease) {
    s.lease.Some? && seen.version <= s.lease.value.version
    && (seen.version == s.lease.value.version ==> seen == s.lease.value)
    && Known(s, seen.holder)
  }

  predicate MayTake(s: Sys, seen: Option<Lease>) {
    seen.Some? ==> Snapshot(s, seen.value) && Vacant(s, seen.value.holder)
  }

  /** A release that is still to take effect can only hit its own tenure. */
  predicate MayClear(s: Sys, t: TaskId, version: nat) {
    s.lease.Some? && version <= s.lease.value.version
    && (version == s.lease.value.version ==> s.owner == Some(t))
  }

  /** The task has won the lease and has not yet asked the server to clear it. */
  predicate Tenant(s: Sys, t: TaskId) {
    t in s.tasks &&
    var k := s.tasks[t];
    k.phase.Holding? || k.phase.Stopping?
    || (k.phase.Waiting? && k.phase.request in s.replies && s.replies[k.phase.request] == Ok)
  }

  predicate TaskOk(s: Sys, t: TaskId)
    requires t in s.tasks
  {
    var k := s.tasks[t];
    k.pod in s.born &&
    match k.phase
    case Inspecting(_, held) => Snapshot(s, held) && held.holder.Some?
    case Writing(_, seen) => MayTake(s, seen)
    case Waiting(_, r) =>
      r < s.nextRequest && (r in s.net ==> s.net[r].task == t && s.net[r].write.Take?)
    case Clearing(v) => MayClear(s, t, v)
    case _ => true
  }

  predicate RequestOk(s: Sys, r: RequestId)
    requires r in s.net
  {
    var q := s.net[r];
    r < s.nextRequest && r !in s.replies && q.task in s.tasks &&
    match q.write
    case Take(seen) => MayTake(s, seen)
    case Renew(_) => true
    case Clear(v) => MayClear(s, q.task, v) && s.tasks[q.task].phase.Finished?
  }

  predicate OwnerOk(s: Sys) {
    s.owner.Some? ==> s.owner.value in s.tasks && HolderIs(s.lease, s.tasks[s.owner.value].pod)
  }

  ghost predicate Inv(s: Sys) {
    && s.live <= s.born
    && (forall p <- s.born :: '/' !in p.name)
    && (s.lease.Some? ==> Known(s, s.lease.value.holder))
    && OwnerOk(s)
    && (forall r <- s.replies :: r < s.nextRequest)
    && (forall t <- s.tasks :: TaskOk(s, t))
    && (forall r <- s.net :: RequestOk(s, r))
    && (forall t <- s.tasks :: Tenant(s, t) && s.tasks[t].pod in s.live ==> s.owner == Some(t))
  }

  /** A registry start: any Lease may be left over from earlier pods. */
  ghost predicate Init(s: Sys) {
    && s.live <= s.born
    && (forall p <- s.born :: '/' !in p.name)
    && s.tasks == map[] && s.net == map[] && s.replies == map[] && s.owner == None
    && (s.lease.Some? ==> Known(s, s.lease.value.holder))
  }

  // ---------------------------------------------------------------------------
  // Every step keeps the invariant
  // ---------------------------------------------------------------------------

  /** What a task may do to its own record without disturbing anyone else. */
  ghost predicate OwnMove(s: Sys, t: TaskId, k: Task) {
    && k.pod in s.live && k.pod in s.born
    && (t in s.tasks ==> k.pod == s.tasks[t].pod && (s.tasks[t].phase.Finished? ==> k.phase.Finished?))
    && (forall r <- s.net :: s.net[r].task == t ==> t in s.tasks)
  }

  lemma LocalStepKeepsInv(s: Sys, t: TaskId, k: Task)
    requires Inv(s) && OwnMove(s, t, k)
    requires TaskOk(Update(s, t, k), t)
    requires Tenant(Update(s, t, k), t) ==> s.owner == Some(t)
    ensures Inv(Update(s, t, k))
  {
    var s' := Update(s, t, k);
    forall u | u in s'.tasks ensures TaskOk(s', u) {
      if u != t { assert TaskOk(s, u); }
    }
    forall r | r in s'.net ensures RequestOk(s', r) {
      assert RequestOk(s, r);
    }
    forall u | u in s'.tasks && Tenant(s', u) && s'.tasks[u].pod in s'.live ensures s'.owner == Some(u) {
      if u != t { assert Tenant(s, u); }
    }
  }

  lemma SendKeepsInv(s: Sys, t: TaskId, w: Write, k: Task)
    requires Inv(s) && t in s.tasks && OwnMove(s, t, k)
    requires TaskOk(Post(s, t, w, k), t) && RequestOk(Post(s, t, w, k), s.nextRequest)
    requires Tenant(Post(s, t, w, k), t) ==> s.owner == Some(t)
    ensures Inv(Post(s, t, w, k))
  {
    var s' := Post(s, t, w, k);
    forall u | u in s'.tasks ensures TaskOk(s', u) {
      if u != t { assert TaskOk(s, u); }
    }
    forall r | r in s'.net ensures RequestOk(s', r) {
      if r != s.nextRequest { assert RequestOk(s, r); }
    }
    forall u | u in s'.tasks && Tenant(s', u) && s'.tasks[u].pod in s'.live ensures s'.owner == Some(u) {
      if u != t { assert Tenant(s, u); }
    }
  }

  /** Births and deaths leave every remembered fact standing. */
  lemma PodStepKeepsInv(s: Sys, st: Step)
    requires Inv(s) && Enabled(s, st) && (st.PodStarts? || st.PodDies?)
    ensures Inv(Apply(s, st))
  {
    var s' := Apply(s, st);
    forall u | u in s'.tasks ensures TaskOk(s', u) { assert TaskOk(s, u); }
    forall r | r in s'.net ensures RequestOk(s', r) { assert RequestOk(s, r); }
    forall u | u in s'.tasks && Tenant(s', u) && s'.tasks[u].pod in s'.live ensures s'.owner == Some(u) {
      assert Tenant(s, u) && TaskOk(s, u);
    }
  }

  /** A request leaves the network without touching the Lease. */
  lemma NoEffectKeepsInv(s: Sys, r: RequestId, reply: Reply)
    requires Inv(s) && r in s.net && reply != Ok
    ensures Inv(s.(net := s.net - {r}, replies := s.replies[r := reply]))
  {
    var s' := s.(net := s.net - {r}, replies := s.replies[r := reply]);
    assert RequestOk(s, r);
    forall u | u in s'.tasks ensures TaskOk(s', u) { assert TaskOk(s, u); }
    forall q | q in s'.net ensures RequestOk(s', q) { assert RequestOk(s, q); }
    forall u | u in s'.tasks && Tenant(s', u) && s'.tasks[u].pod in s'.live ensures s'.owner == Some(u) {
      assert Tenant(s, u);
    }
  }

  /**
   While a live pod's task is tenant, no takeover can match: the Lease carries
   that pod's name, and a takeover only ever replaces a vacant holder.
   */
  lemma NoTakeoverFromTenant(s: Sys, r: RequestId, u: TaskId)
    requires Inv(s) && r in s.net && s.net[r].write.Take? && Matches(s.lease, s.net[r].write)
    ensures !(Tenant(s, u) && s.tasks[u].pod in s.live)
  {
    assert RequestOk(s, r);
    if u in s.tasks {
      assert TaskOk(s, u);
      SplitIdentity(s.tasks[u].pod);
    }
  }

  lemma TakeKeepsInv(s: Sys, r: RequestId)
    requires Inv(s) && r in s.net && s.net[r].write.Take? && Matches(s.lease, s.net[r].write)
    ensures Inv(Answer(s, r))
  {
    var s' := Answer(s, r);
    var q := s.net[r];
    assert RequestOk(s, r) && TaskOk(s, q.task);
    SplitIdentity(s.tasks[q.task].pod);
    forall u | u in s'.tasks ensures TaskOk(s', u) { assert TaskOk(s, u); }
    forall p | p in s'.net ensures RequestOk(s', p) { assert RequestOk(s, p); }
    forall u | u in s'.tasks && Tenant(s', u) && s'.tasks[u].pod in s'.live ensures s'.owner == Some(u) {
      assert TaskOk(s, u);
      NoTakeoverFromTenant(s, r, u);
    }
  }

  lemma RenewKeepsInv(s: Sys, r: RequestId)
    requires Inv(s) && r in s.net && s.net[r].write.Renew? && Matches(s.lease, s.net[r].write)
    ensures Inv(Answer(s, r))
  {
    var s' := Answer(s, r);
    assert RequestOk(s, r);
    forall u | u in s'.tasks ensures TaskOk(s', u) { assert TaskOk(s, u); }
    forall p | p in s'.net ensures RequestOk(s', p) { assert RequestOk(s, p); }
    forall u | u in s'.tasks && Tenant(s', u) && s'.tasks[u].pod in s'.live ensures s'.owner == Some(u) {
      assert TaskOk(s, u) && Tenant(s, u);
    }
  }

  lemma ClearKeepsInv(s: Sys, r: RequestId)
    requires Inv(s) && r in s.net && s.net[r].write.Clear? && Matches(s.lease, s.net[r].write)
    ensures Inv(Answer(s, r))
  {
    var s' := Answer(s, r);
    assert RequestOk(s, r);
    forall u | u in s'.tasks ensures TaskOk(s', u) { assert TaskOk(s, u); }
    forall p | p in s'.net ensures RequestOk(s', p) { assert RequestOk(s, p); }
    forall u | u in s'.tasks ensures !(Tenant(s', u) && s'.tasks[u].pod in s'.live) {
      assert TaskOk(s, u) && (Tenant(s', u) ==> Tenant(s, u));
    }
  }

  lemma ServerStepKeepsInv(s: Sys, r: RequestId)
    requires Inv(s) && r in s.net
    ensures Inv(Answer(s, r))
  {
    var q := s.net[r];
    assert RequestOk(s, r);
    if !Matches(s.lease, q.write) {
      NoEffectKeepsInv(s, r, Conflict);
    } else {
      match q.write
      case Take(_) => TakeKeepsInv(s, r);
      case Renew(_) => RenewKeepsInv(s, r);
      case Clear(_) => ClearKeepsInv(s, r);
    }
  }

  lemma SendersAreTasks(s: Sys, t: TaskId)
    requires Inv(s)
    ensures forall r <- s.net :: s.net[r].task == t ==> t in s.tasks
  {
    forall r | r in s.net && s.net[r].task == t ensures t in s.tasks { assert RequestOk(s, r); }
  }

  lemma AcquireReadKeepsInv(s: Sys, st: Step)
    requires Inv(s) && Enabled(s, st) && (st.AcquireBegins? || st.AcquireGets? || st.AcquireReadFails?)
    ensures Inv(Apply(s, st))
  {
    if !st.AcquireBegins? { assert TaskOk(s, st.t); }
    SendersAreTasks(s, st.t);
    LocalStepKeepsInv(s, st.t, Apply(s, st).tasks[st.t]);
  }

  lemma AcquireListsKeepsInv(s: Sys, t: TaskId, listed: set<Pod>)
    requires Inv(s) && Enabled(s, AcquireLists(t, listed))
    ensures Inv(Apply(s, AcquireLists(t, listed)))
  {
    assert TaskOk(s, t);
    SendersAreTasks(s, t);
    LocalStepKeepsInv(s, t, Apply(s, AcquireLists(t, listed)).tasks[t]);
  }

  /** The task that hears of its winning write is the owner already. */
  lemma TenureKeepsInv(s: Sys, t: TaskId)
    requires Inv(s) && Runs(s, t) && s.tasks[t].phase.Waiting?
    requires s.tasks[t].phase.request in s.replies && s.replies[s.tasks[t].phase.request] == Ok
    ensures Inv(Update(s, t, s.tasks[t].(phase := Holding, renewal := Sleeping)))
  {
    assert TaskOk(s, t) && Tenant(s, t);
    SendersAreTasks(s, t);
    LocalStepKeepsInv(s, t, s.tasks[t].(phase := Holding, renewal := Sleeping));
  }

  lemma RefusalKeepsInv(s: Sys, t: TaskId, phase: Phase)
    requires Inv(s) && Runs(s, t) && s.tasks[t].phase.Waiting? && (phase.Reading? || phase.Finished?)
    ensures Inv(Update(s, t, s.tasks[t].(phase := phase)))
  {
    assert TaskOk(s, t);
    SendersAreTasks(s, t);
    LocalStepKeepsInv(s, t, s.tasks[t].(phase := phase));
  }

  lemma HeardKeepsInv(s: Sys, t: TaskId, reply: Reply)
    requires Inv(s) && Runs(s, t) && s.tasks[t].phase.Waiting?
    requires s.tasks[t].phase.request in s.replies && s.replies[s.tasks[t].phase.request] == reply
    ensures Inv(Update(s, t, Heard(s.tasks[t], reply)))
  {
    if reply == Ok {
      TenureKeepsInv(s, t);
    } else {
      RefusalKeepsInv(s, t, Heard(s.tasks[t], reply).phase);
    }
  }

  /** The renewal loop changes nothing the invariant speaks of. */
  lemma RenewalMoveKeepsInv(s: Sys, t: TaskId, k: Task)
    requires Inv(s) && Runs(s, t) && k.pod == s.tasks[t].pod && k.phase == s.tasks[t].phase
    ensures Inv(Update(s, t, k))
  {
    assert TaskOk(s, t) && (Tenant(s, t) ==> s.owner == Some(t));
    SendersAreTasks(s, t);
    LocalStepKeepsInv(s, t, k);
  }

  lemma RenewStepKeepsInv(s: Sys, st: Step)
    requires Inv(s) && Enabled(s, st)
    requires st.RenewGets? || st.RenewHears? || st.RenewFails?
    ensures Inv(Apply(s, st))
  {
    RenewalMoveKeepsInv(s, st.t, Apply(s, st).tasks[st.t]);
  }

  lemma ReleaseStepKeepsInv(s: Sys, st: Step)
    requires Inv(s) && Enabled(s, st)
    requires st.ReleaseBegins? || st.ReleaseGets? || st.ReleaseReadFails? || st.HandleDropped?
    ensures Inv(Apply(s, st))
  {
    assert TaskOk(s, st.t) && Tenant(s, st.t);
    SendersAreTasks(s, st.t);
    LocalStepKeepsInv(s, st.t, Apply(s, st).tasks[st.t]);
  }

  lemma SendStepKeepsInv(s: Sys, st: Step)
    requires Inv(s) && Enabled(s, st) && (st.AcquireSends? || st.RenewSends? || st.ReleaseSends?)
    ensures Inv(Apply(s, st))
  {
    assert TaskOk(s, st.t);
    var k := s.tasks[st.t];
    SendersAreTasks(s, st.t);
    assert Tenant(s, st.t) ==> s.owner == Some(st.t);
    var w := if st.AcquireSends? then Take(k.phase.seen)
             else if st.RenewSends? then Renew(k.renewal.version) else Clear(k.phase.version);
    SendKeepsInv(s, st.t, w, Apply(s, st).tasks[st.t]);
  }

  lemma StepKeepsInv(s: Sys, st: Step)
    requires Inv(s) && Enabled(s, st)
    ensures Inv(Apply(s, st))
  {
    match st
    case PodStarts(_) => PodStepKeepsInv(s, st);
    case PodDies(_) => PodStepKeepsInv(s, st);
    case ServerAnswers(r) => ServerStepKeepsInv(s, r);
    case ServerRefuses(r) => NoEffectKeepsInv(s, r, Failed);
    case AcquireSends(_) => SendStepKeepsInv(s, st);
    case RenewSends(_) => SendStepKeepsInv(s, st);
    case ReleaseSends(_) => SendStepKeepsInv(s, st);
    case RenewGets(_) => RenewStepKeepsInv(s, st);
    case RenewHears(_) => RenewStepKeepsInv(s, st);
    case RenewFails(_) => RenewStepKeepsInv(s, st);
    case ReleaseBegins(_) => ReleaseStepKeepsInv(s, st);
    case ReleaseGets(_) => ReleaseStepKeepsInv(s, st);
    case ReleaseReadFails(_) => ReleaseStepKeepsInv(s, st);
    case HandleDropped(_) => ReleaseStepKeepsInv(s, st);
    case AcquireLists(t, listed) => AcquireListsKeepsInv(s, t, listed);
    case AcquireHears(t) => HeardKeepsInv(s, t, s.replies[s.tasks[t].phase.request]);
    case AcquireTimesOut(t) => RefusalKeepsInv(s, t, Finished(ApiError));
    case _ => AcquireReadKeepsInv(s, st);
  }

  // ---------------------------------------------------------------------------
  // Safety over whole runs
  // ---------------------------------------------------------------------------

  /** Every step of the run is enabled where it is taken. */
  ghost predicate Run(s: Sys, steps: seq<Step>)
    decreases |steps|
  {
    steps == [] || (Enabled(s, steps[0]) && Run(Apply(s, steps[0]), steps[1..]))
  }

  ghost function End(s: Sys, steps: seq<Step>): Sys
    requires Run(s, steps)
    decreases |steps|
  {
    if steps == [] then s else End(Apply(s, steps[0]), steps[1..])
  }

  lemma {:induction false} RunKeepsInv(s: Sys, steps: seq<Step>)
    requires Inv(s) && Run(s, steps)
    ensures Inv(End(s, steps))
    decreases |steps|
  {
    if steps != [] {
      StepKeepsInv(s, steps[0]);
      RunKeepsInv(Apply(s, steps[0]), steps[1..]);
    }
  }

  /** The lease is held: `acquire` returned Ok, release has not begun, the pod lives. */
  predicate Holds(s: Sys, t: TaskId) {
    t in s.tasks && s.tasks[t].phase.Holding? && s.tasks[t].pod in s.live
  }

  /**
   Mutual exclusion in every run: at most one task of all pods holds the node,
   and while it does, the stored Lease carries its pod's identity.
   */
  lemma AtMostOneHolder(s: Sys, steps: seq<Step>, t: TaskId, u: TaskId)
    requires Init(s) && Run(s, steps)
    requires Holds(End(s, steps), t)
    ensures HolderIs(End(s, steps).lease, End(s, steps).tasks[t].pod)
    ensures Holds(End(s, steps), u) ==> t == u
  {
    RunKeepsInv(s, steps);
    var e := End(s, steps);
    assert Tenant(e, t);
    assert Holds(e, u) ==> Tenant(e, u);
  }

  /**
   A write that installs a new owner replaces exactly the version whose holder
   was inspected, and at that instant that holder named no live pod.
   */
  lemma WinnerReplacesWhatItInspected(s: Sys, steps: seq<Step>, r: RequestId)
    requires Init(s) && Run(s, steps)
    requires r in End(s, steps).net
    requires Answer(End(s, steps), r).owner.Some? && End(s, steps).net[r].write.Take?
    requires Answer(End(s, steps), r).replies[r] == Ok
    ensures End(s, steps).net[r].write.seen == End(s, steps).lease
    ensures End(s, steps).lease.Some? ==> Vacant(End(s, steps), End(s, steps).lease.value.holder)
    ensures forall u :: !Holds(End(s, steps), u)
  {
    RunKeepsInv(s, steps);
    var e := End(s, steps);
    assert RequestOk(e, r);
    forall u ensures !Holds(e, u) {
      NoTakeoverFromTenant(e, r, u);
    }
  }

  /**
   A live holder's renewal always finds its own identity, so it never reports a
   lost lease: only failed requests can count towards cancelling its operation.
   */
  lemma RenewalNeverFindsAnotherHolder(s: Sys, steps: seq<Step>, t: TaskId)
    requires Init(s) && Run(s, steps)
    requires Holds(End(s, steps), t) && Enabled(End(s, steps), RenewGets(t))
    ensures Apply(End(s, steps), RenewGets(t)).tasks[t].failures == End(s, steps).tasks[t].failures
    ensures Apply(End(s, steps), RenewGets(t)).tasks[t].renewal == Renewing(End(s, steps).lease.value.version)
  {
    RunKeepsInv(s, steps);
    assert Tenant(End(s, steps), t);
  }

  lemma AnswerGrowsVersion(s: Sys, r: RequestId)
    requires r in s.net && s.lease.Some?
    ensures Answer(s, r).lease == s.lease
         || (Answer(s, r).lease.Some? && Answer(s, r).lease.value.version == s.lease.value.version + 1)
  {
  }

  lemma StepGrowsVersion(s: Sys, st: Step)
    requires Enabled(s, st) && s.lease.Some?
    ensures Apply(s, st).lease == s.lease
         || (Apply(s, st).lease.Some? && Apply(s, st).lease.value.version == s.lease.value.version + 1)
  {
    match st
    case ServerAnswers(r) => AnswerGrowsVersion(s, r);
    case _ =>
  }

  /** The version only grows, so a precondition that failed once never matches later. */
  lemma {:induction false} VersionsOnlyGrow(s: Sys, steps: seq<Step>)
    requires Run(s, steps) && s.lease.Some?
    ensures End(s, steps).lease.Some?
    ensures s.lease.value.version <= End(s, steps).lease.value.version
    ensures s.lease.value.version == End(s, steps).lease.value.version ==> s.lease == End(s, steps).lease
    decreases |steps|
  {
    if steps != [] {
      StepGrowsVersion(s, steps[0]);
      VersionsOnlyGrow(Apply(s, steps[0]), steps[1..]);
    }
  }

  lemma RunOfOne(s: Sys, a: Step, rest: seq<Step>)
    requires Enabled(s, a) && Run(Apply(s, a), rest)
    ensures Run(s, [a] + rest) && End(s, [a] + rest) == End(Apply(s, a), rest)
  {
    assert ([a] + rest)[1..] == rest;
  }

  lemma HearingSucceeds(s: Sys, t: TaskId)
    requires Runs(s, t) && s.tasks[t].phase.Waiting?
    requires s.tasks[t].phase.request in s.replies && s.replies[s.tasks[t].phase.request] == Ok
    ensures Run(s, [AcquireHears(t)]) && Holds(End(s, [AcquireHears(t)]), t)
  {
    RunOfOne(s, AcquireHears(t), []);
  }

  lemma AnswerSucceeds(s: Sys, t: TaskId, r: RequestId)
    requires Runs(s, t) && s.tasks[t].phase.Waiting? && s.tasks[t].phase.request == r
    requires r in s.net && s.net[r].task == t && s.net[r].write.Take? && Matches(s.lease, s.net[r].write)
    ensures var steps := [ServerAnswers(r)] + [AcquireHears(t)];
      Run(s, steps) && Holds(End(s, steps), t)
  {
    HearingSucceeds(Answer(s, r), t);
    RunOfOne(s, ServerAnswers(r), [AcquireHears(t)]);
  }

  /** Sending, answering and hearing back turn a takeover that may match into a tenure. */
  lemma TakeoverSucceeds(s: Sys, t: TaskId) returns (steps: seq<Step>)
    requires Inv(s) && Enabled(s, AcquireSends(t))
    requires Matches(s.lease, Take(s.tasks[t].phase.seen))
    ensures Run(s, steps) && Holds(End(s, steps), t)
  {
    var k := s.tasks[t];
    var s1 := Post(s, t, Take(k.phase.seen), k.(phase := Waiting(k.phase.attempt, s.nextRequest)));
    AnswerSucceeds(s1, t, s.nextRequest);
    var rest := [ServerAnswers(s.nextRequest)] + [AcquireHears(t)];
    RunOfOne(s, AcquireSends(t), rest);
    steps := [AcquireSends(t)] + rest;
  }

  /**
   The protocol is not safe by refusing everybody: a task that reads a Lease whose
   holder is absent or dead does obtain it when nothing interferes.
   */
  lemma VacantLeaseCanBeTaken(s: Sys, t: TaskId) returns (steps: seq<Step>)
    requires Inv(s) && Enabled(s, AcquireGets(t))
    requires s.lease.Some? ==> Vacant(s, s.lease.value.holder)
    ensures Run(s, steps) && Holds(End(s, steps), t)
  {
    StepKeepsInv(s, AcquireGets(t));
    var s1 := Apply(s, AcquireGets(t));
    if s1.tasks[t].phase.Writing? {
      var rest := TakeoverSucceeds(s1, t);
      RunOfOne(s, AcquireGets(t), rest);
      steps := [AcquireGets(t)] + rest;
    } else {
      var rest := InspectedTakeoverSucceeds(s1, t);
      RunOfOne(s, AcquireGets(t), rest);
      steps := [AcquireGets(t)] + rest;
    }
  }

  /** A listing of the live pods shows a dead holder to be dead. */
  lemma InspectedTakeoverSucceeds(s: Sys, t: TaskId) returns (steps: seq<Step>)
    requires Inv(s) && Enabled(s, AcquireLists(t, s.live))
    requires s.lease == Some(s.tasks[t].phase.held) && Vacant(s, s.tasks[t].phase.held.holder)
    ensures Run(s, steps) && Holds(End(s, steps), t)
  {
    var look := AcquireLists(t, s.live);
    StepKeepsInv(s, look);
    var rest := TakeoverSucceeds(Apply(s, look), t);
    RunOfOne(s, look, rest);
    steps := [look] + rest;
  }
}
