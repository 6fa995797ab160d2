/**
 The registry of drain jobs: one event log per job, a cancel flag raced against a
 commit, and a bounded time during which a finished job can still be replayed.
 Every operation runs under the registry's mutex; losing the node lease also sets
 a job's cancel flag, without the mutex.
 */
module DrainJobs {
  import opened Wrappers

  datatype EventKind =
    | Progress(what: string)
    | Done(summary: string)
    | Error(message: string)
    | Cancelled

  datatype Event = Event(seqNo: nat, kind: EventKind)

  predicate IsTerminal(kind: EventKind) {
    !kind.Progress?
  }

  /** `sent` is what the job's broadcast channel has carried. */
  datatype Entry = Entry(
    owner: string,
    target: string,
    events: seq<Event>,
    sent: seq<Event>,
    cancel: bool,
    cancellable: bool,
    done: bool)

  datatype Registry = Registry(entries: map<nat, Entry>, nextId: nat)

  const EMPTY := Registry(map[], 0)

  datatype CancelResult = Accepted | NotFound | NotCancellable

  predicate Busy(r: Registry, target: string) {
    exists id <- r.entries :: !r.entries[id].done && r.entries[id].target == target
  }

  function Created(r: Registry, owner: string, target: string): (Registry, Option<nat>) {
    if Busy(r, target) then (r, None)
    else (Registry(r.entries[r.nextId := Entry(owner, target, [], [], false, true, false)], r.nextId + 1), Some(r.nextId))
  }

  function With(r: Registry, id: nat, e: Entry): Registry {
    r.(entries := r.entries[id := e])
  }

  function Pushed(e: Entry, kind: EventKind): Entry {
    var event := Event(|e.events|, kind);
    e.(events := e.events + [event], sent := e.sent + [event])
  }

  function Emitted(r: Registry, id: nat, kind: EventKind): Registry {
    if id !in r.entries || r.entries[id].done then r else With(r, id, Pushed(r.entries[id], kind))
  }

  function Finished(r: Registry, id: nat, kind: EventKind): Registry {
    if id !in r.entries || r.entries[id].done then r
    else With(r, id, Pushed(r.entries[id], kind).(cancellable := false, done := true))
  }

  function CancelAnswer(r: Registry, owner: string, id: nat): CancelResult {
    if id !in r.entries || r.entries[id].owner != owner then NotFound
    else if !r.entries[id].cancellable then NotCancellable
    else Accepted
  }

  function CancelledBy(r: Registry, owner: string, id: nat): Registry {
    if CancelAnswer(r, owner, id) == Accepted then With(r, id, r.entries[id].(cancel := true)) else r
  }

  /** May this job pass the point of no return? */
  predicate CanCommit(r: Registry, id: nat) {
    id in r.entries && !r.entries[id].done && r.entries[id].cancellable && !r.entries[id].cancel
  }

  function CommittedBy(r: Registry, id: nat): Registry {
    if CanCommit(r, id) then With(r, id, r.entries[id].(cancellable := false)) else r
  }

  datatype Op =
    | Create(owner: string, target: string)
    | Emit(id: nat, kind: EventKind)
    | Finish(id: nat, kind: EventKind)
    | Cancel(owner: string, id: nat)
    | BeginNonCancellable(id: nat)
    | LeaseLost(id: nat)
    | Expire(id: nat)

  /** Expiry is only ever scheduled by `finish`. */
  function Do(r: Registry, op: Op): Registry {
    match op
    case Create(owner, target) => Created(r, owner, target).0
    case Emit(id, kind) => Emitted(r, id, kind)
    case Finish(id, kind) => Finished(r, id, kind)
    case Cancel(owner, id) => CancelledBy(r, owner, id)
    case BeginNonCancellable(id) => CommittedBy(r, id)
    case LeaseLost(id) => if id in r.entries then With(r, id, r.entries[id].(cancel := true)) else r
    case Expire(id) => if id in r.entries && r.entries[id].done then r.(entries := r.entries - {id}) else r
  }

  /** The registry after the first `n` operations of a run. */
  function At(ops: seq<Op>, n: nat): Registry
    requires n <= |ops|
  {
    if n == 0 then EMPTY else Do(At(ops, n - 1), ops[n - 1])
  }

  predicate EntryOk(e: Entry) {
    && e.sent == e.events
    && (forall i | 0 <= i < |e.events| :: e.events[i].seqNo == i)
    && (e.done ==> !e.cancellable && e.events != [])
  }

  ghost predicate Inv(r: Registry) {
    && (forall id <- r.entries :: id < r.nextId && EntryOk(r.entries[id]))
    && (forall a, b | a in r.entries && b in r.entries && !r.entries[a].done && !r.entries[b].done
                      && r.entries[a].target == r.entries[b].target :: a == b)
  }

  lemma DoKeepsInv(r: Registry, op: Op)
    requires Inv(r)
    ensures Inv(Do(r, op))
  {
  }

  /** Unfinished jobs have distinct targets, ids stay below the counter, and every log is numbered by position. */
  lemma {:induction false} RegistryInvariant(ops: seq<Op>, n: nat)
    requires n <= |ops|
    ensures Inv(At(ops, n))
  {
    if n > 0 {
      RegistryInvariant(ops, n - 1);
      DoKeepsInv(At(ops, n - 1), ops[n - 1]);
    }
  }

  /** What never comes back once it has happened to a job, and what only grows. */
  predicate Later(e: Entry, e': Entry) {
    && e'.owner == e.owner && e'.target == e.target
    && e.events <= e'.events
    && (e.cancel ==> e'.cancel)
    && (!e.cancellable ==> !e'.cancellable)
    && (e.done ==> e'.done && e'.events == e.events)
  }

  /** The id was handed out and its job is a later state of `e`, or has been removed. */
  predicate Follows(r: Registry, id: nat, e: Entry) {
    id < r.nextId && (id in r.entries ==> Later(e, r.entries[id]))
  }

  lemma DoFollows(r: Registry, op: Op, id: nat, e: Entry)
    requires Inv(r) && Follows(r, id, e)
    ensures Follows(Do(r, op), id, e) && r.nextId <= Do(r, op).nextId
  {
  }

  /**
   Logs are append-only, flags only move one way, a finished job's log is frozen,
   and an id that was handed out never names another job.
   */
  lemma {:induction false} JobsOnlyMoveForward(ops: seq<Op>, i: nat, j: nat, id: nat)
    requires i <= j <= |ops| && id in At(ops, i).entries
    ensures Follows(At(ops, j), id, At(ops, i).entries[id])
    ensures At(ops, i).nextId <= At(ops, j).nextId
    decreases j
  {
    RegistryInvariant(ops, i);
    if i < j {
      JobsOnlyMoveForward(ops, i, j - 1, id);
      RegistryInvariant(ops, j - 1);
      DoFollows(At(ops, j - 1), ops[j - 1], id, At(ops, i).entries[id]);
    }
  }

  lemma {:induction false} CounterOnlyGrows(ops: seq<Op>, i: nat, j: nat)
    requires i <= j <= |ops|
    ensures At(ops, i).nextId <= At(ops, j).nextId
    decreases j
  {
    if i < j { CounterOnlyGrows(ops, i, j - 1); }
  }

  /** The id given out by the `i`th operation, if it created a job. */
  function NewId(ops: seq<Op>, i: nat): Option<nat>
    requires i < |ops|
  {
    if ops[i].Create? then Created(At(ops, i), ops[i].owner, ops[i].target).1 else None
  }

  /** Ids strictly increase over a run, so none is ever used twice. */
  lemma IdsStrictlyIncrease(ops: seq<Op>, i: nat, j: nat)
    requires i < j < |ops| && NewId(ops, i).Some? && NewId(ops, j).Some?
    ensures NewId(ops, i).value < NewId(ops, j).value
  {
    CounterOnlyGrows(ops, i + 1, j);
  }

  predicate CancelAccepted(ops: seq<Op>, i: nat, id: nat)
    requires i < |ops|
  {
    ops[i].Cancel? && ops[i].id == id && CancelAnswer(At(ops, i), ops[i].owner, id) == Accepted
  }

  predicate CommitSucceeded(ops: seq<Op>, i: nat, id: nat)
    requires i < |ops|
  {
    ops[i] == BeginNonCancellable(id) && CanCommit(At(ops, i), id)
  }

  /**
   The race has one winner: in no run of a job is a cancellation accepted and the
   commit granted, in either order, with the flag also set by lease loss anywhere.
   */
  lemma CancelAndCommitExclude(ops: seq<Op>, i: nat, j: nat, id: nat)
    requires i < |ops| && j < |ops| && CancelAccepted(ops, i, id)
    ensures !CommitSucceeded(ops, j, id)
  {
    if i < j {
      JobsOnlyMoveForward(ops, i + 1, j, id);
    } else if j < i && CommitSucceeded(ops, j, id) {
      JobsOnlyMoveForward(ops, j + 1, i, id);
    }
  }

  /** A job is committed at most once, and after that, or after it finished, no cancellation is accepted. */
  lemma NoCancelAfterCommitOrFinish(ops: seq<Op>, i: nat, j: nat, id: nat)
    requires i < j < |ops| && id in At(ops, i).entries
    requires CommitSucceeded(ops, i, id) || At(ops, i).entries[id].done
    ensures !CancelAccepted(ops, j, id) && !CommitSucceeded(ops, j, id)
  {
    RegistryInvariant(ops, i);
    JobsOnlyMoveForward(ops, i, j, id);
    if CommitSucceeded(ops, i, id) {
      JobsOnlyMoveForward(ops, i + 1, j, id);
    }
  }

  // ---------------------------------------------------------------------------
  // A job is its history
  // ---------------------------------------------------------------------------

  /** What can decide between cancelling and committing a job: its owner, its lease, its end, or the commit itself. */
  predicate Decides(op: Op, owner: string, id: nat) {
    op == Cancel(owner, id) || op == LeaseLost(id) || op == BeginNonCancellable(id) || (op.Finish? && op.id == id)
  }

  /** The job was told to finish after operation `j` and before operation `n`. */
  predicate FinishedBy(ops: seq<Op>, j: nat, n: nat, id: nat)
    requires n <= |ops|
  {
    exists m | j < m < n :: ops[m].Finish? && ops[m].id == id
  }

  predicate ExpiredBy(ops: seq<Op>, j: nat, n: nat, id: nat)
    requires n <= |ops|
  {
    exists m | j < m < n :: ops[m] == Expire(id) && FinishedBy(ops, j, m, id)
  }

  predicate UndecidedBy(ops: seq<Op>, j: nat, n: nat, id: nat)
    requires j < n <= |ops| && ops[j].Create?
  {
    forall m | j < m < n :: !Decides(ops[m], ops[j].owner, id)
  }

  /** Of all that can decide, the commit came first. */
  predicate CommittedFirst(ops: seq<Op>, j: nat, n: nat, id: nat)
    requires j < n <= |ops| && ops[j].Create?
  {
    exists m | j < m < n :: ops[m] == BeginNonCancellable(id) && UndecidedBy(ops, j, m, id)
  }

  function KindsOf(events: seq<Event>): seq<EventKind> {
    seq(|events|, i requires 0 <= i < |events| => events[i].kind)
  }

  /** What the job was told between the two operations, up to its end. */
  function Told(ops: seq<Op>, j: nat, n: nat, id: nat): seq<EventKind>
    requires n <= |ops|
  {
    if n <= j + 1 then []
    else
      var op := ops[n - 1];
      Told(ops, j, n - 1, id)
      + if (op.Emit? || op.Finish?) && op.id == id && !FinishedBy(ops, j, n - 1, id) then [op.kind] else []
  }

  /** The job created by operation `j` is in the table until it expires, as its history says. */
  ghost predicate IsItsHistory(ops: seq<Op>, j: nat, n: nat, id: nat)
    requires j < n <= |ops| && ops[j].Create?
  {
    var r := At(ops, n);
    && (id in r.entries <==> !ExpiredBy(ops, j, n, id))
    && (id in r.entries ==> EntryIsItsHistory(ops, j, n, id, r.entries[id]))
  }

  ghost predicate EntryIsItsHistory(ops: seq<Op>, j: nat, n: nat, id: nat, e: Entry)
    requires j < n <= |ops| && ops[j].Create?
  {
    && e.owner == ops[j].owner && e.target == ops[j].target
    && (e.done <==> FinishedBy(ops, j, n, id))
    && (e.cancellable <==> !FinishedBy(ops, j, n, id) && !CommittedFirst(ops, j, n, id))
    && (e.cancellable ==> (e.cancel <==> !UndecidedBy(ops, j, n, id)))
    && KindsOf(e.events) == Told(ops, j, n, id)
  }

  /** What one more operation adds to the history. */
  lemma HistoryGrows(ops: seq<Op>, j: nat, n: nat, id: nat)
    requires j < n < |ops| && ops[j].Create?
    ensures FinishedBy(ops, j, n + 1, id) <==> FinishedBy(ops, j, n, id) || (ops[n].Finish? && ops[n].id == id)
    ensures ExpiredBy(ops, j, n + 1, id) <==>
      ExpiredBy(ops, j, n, id) || (ops[n] == Expire(id) && FinishedBy(ops, j, n, id))
    ensures UndecidedBy(ops, j, n + 1, id) <==> UndecidedBy(ops, j, n, id) && !Decides(ops[n], ops[j].owner, id)
    ensures CommittedFirst(ops, j, n + 1, id) <==>
      CommittedFirst(ops, j, n, id) || (ops[n] == BeginNonCancellable(id) && UndecidedBy(ops, j, n, id))
  {
  }

  lemma KindsPushed(e: Entry, kind: EventKind)
    ensures KindsOf(Pushed(e, kind).events) == KindsOf(e.events) + [kind]
  {
  }

  lemma OneMoreOfTheHistory(ops: seq<Op>, j: nat, n: nat, id: nat)
    requires j < n < |ops| && ops[j].Create? && id < At(ops, n).nextId
    requires IsItsHistory(ops, j, n, id)
    ensures IsItsHistory(ops, j, n + 1, id)
  {
    HistoryGrows(ops, j, n, id);
    var r := At(ops, n);
    if id in r.entries && (ops[n].Emit? || ops[n].Finish?) { KindsPushed(r.entries[id], ops[n].kind); }
  }

  /**
   Whatever the operations, the state of a job is told by those that named it since it was
   created: who owns it, whether it may still be cancelled, its flag while it may, and its log.
   */
  lemma {:induction false} JobIsItsHistory(ops: seq<Op>, j: nat, n: nat, id: nat)
    requires j < n <= |ops| && NewId(ops, j) == Some(id)
    ensures IsItsHistory(ops, j, n, id) && id < At(ops, n).nextId
  {
    if n > j + 1 {
      JobIsItsHistory(ops, j, n - 1, id);
      CounterOnlyGrows(ops, n - 1, n);
      OneMoreOfTheHistory(ops, j, n - 1, id);
    }
  }

  /** A commit is granted if and only if nothing else decided before: the race goes to the first. */
  lemma CommitGrantedIff(ops: seq<Op>, j: nat, i: nat, id: nat)
    requires j < i < |ops| && NewId(ops, j) == Some(id) && ops[i] == BeginNonCancellable(id)
    ensures CommitSucceeded(ops, i, id) <==> forall m | j < m < i :: !Decides(ops[m], ops[j].owner, id)
  {
    JobIsItsHistory(ops, j, i, id);
    if UndecidedBy(ops, j, i, id) { assert !FinishedBy(ops, j, i, id); }
  }

  /**
   A cancellation is accepted if and only if it comes from the owner, before the end, and no
   commit came before everything else that decides.
   */
  lemma CancelAcceptedIff(ops: seq<Op>, j: nat, i: nat, id: nat)
    requires j < i < |ops| && NewId(ops, j) == Some(id) && ops[i].Cancel? && ops[i].id == id
    ensures CancelAccepted(ops, i, id) <==>
      ops[i].owner == ops[j].owner && !FinishedBy(ops, j, i, id) && !CommittedFirst(ops, j, i, id)
    ensures CancelAnswer(At(ops, i), ops[i].owner, id) == NotFound <==>
      ops[i].owner != ops[j].owner || ExpiredBy(ops, j, i, id)
  {
    JobIsItsHistory(ops, j, i, id);
    if ExpiredBy(ops, j, i, id) {
      var m :| j < m < i && ops[m] == Expire(id) && FinishedBy(ops, j, m, id);
    }
  }

  /** Every job in the table was created. */
  lemma {:induction false} JobsWereCreated(ops: seq<Op>, n: nat, id: nat) returns (j: nat)
    requires n <= |ops| && id in At(ops, n).entries
    ensures j < n && NewId(ops, j) == Some(id)
  {
    if id in At(ops, n - 1).entries {
      j := JobsWereCreated(ops, n - 1, id);
    } else {
      j := n - 1;
    }
  }

  /** Only the owner's cancellation is ever accepted: the one who created the job. */
  lemma AcceptedCancelIsTheOwners(ops: seq<Op>, i: nat, id: nat) returns (j: nat)
    requires i < |ops| && CancelAccepted(ops, i, id)
    ensures j < i && NewId(ops, j) == Some(id) && ops[i].owner == ops[j].owner
  {
    j := JobsWereCreated(ops, i, id);
    CancelAcceptedIff(ops, j, i, id);
  }

  /** A target may have a new job if and only if every earlier one on it was told to finish. */
  lemma CreatedIff(ops: seq<Op>, i: nat)
    requires i < |ops| && ops[i].Create?
    ensures NewId(ops, i).Some? <==>
      forall j | 0 <= j < i && NewId(ops, j).Some? && ops[j].target == ops[i].target ::
        FinishedBy(ops, j, i, NewId(ops, j).value)
  {
    var r := At(ops, i);
    forall j: nat | j < i && NewId(ops, j).Some? && ops[j].target == ops[i].target && NewId(ops, i).Some?
      ensures FinishedBy(ops, j, i, NewId(ops, j).value)
    {
      JobIsItsHistory(ops, j, i, NewId(ops, j).value);
    }
    if Busy(r, ops[i].target) {
      var id :| id in r.entries && !r.entries[id].done && r.entries[id].target == ops[i].target;
      var j := JobsWereCreated(ops, i, id);
      JobIsItsHistory(ops, j, i, id);
    }
  }

  // ---------------------------------------------------------------------------
  // Replay and live delivery
  // ---------------------------------------------------------------------------

  function NewerThan(events: seq<Event>, after: Option<nat>): seq<Event> {
    if events == [] then []
    else
      var last := events[|events| - 1];
      NewerThan(events[..|events| - 1], after) + if after.None? || last.seqNo > after.value then [last] else []
  }

  function FirstNewer(after: Option<nat>): nat {
    match after case None => 0 case Some(n) => n + 1
  }

  lemma NewerThanAppend(events: seq<Event>, last: Event, after: Option<nat>)
    ensures NewerThan(events + [last], after)
         == NewerThan(events, after) + if after.None? || last.seqNo > after.value then [last] else []
  {
    assert (events + [last])[..|events|] == events;
  }

  lemma {:induction false} ReplayUpTo(events: seq<Event>, after: Option<nat>, n: nat)
    requires n <= |events| && forall i | 0 <= i < |events| :: events[i].seqNo == i
    ensures NewerThan(events[..n], after) == if FirstNewer(after) <= n then events[FirstNewer(after)..n] else []
  {
    if n > 0 {
      ReplayUpTo(events, after, n - 1);
      assert events[..n] == events[..n - 1] + [events[n - 1]];
      NewerThanAppend(events[..n - 1], events[n - 1], after);
      if FirstNewer(after) < n {
        assert events[FirstNewer(after)..n] == events[FirstNewer(after)..n - 1] + [events[n - 1]];
      }
    }
  }

  /** `replay_after(n)` is exactly the tail of the log behind event `n`. */
  lemma {:induction false} ReplayIsTheTail(events: seq<Event>, after: Option<nat>)
    requires forall i | 0 <= i < |events| :: events[i].seqNo == i
    ensures NewerThan(events, after)
         == if FirstNewer(after) <= |events| then events[FirstNewer(after)..] else []
  {
    ReplayUpTo(events, after, |events|);
    assert events[..|events|] == events;
  }

  /**
   One progress stream: first the replay, then live events. `next` is the receiver's
   position in the channel, `lastSeq` and `pending` are the stream's own state.
   */
  datatype Stream = Stream(delivered: seq<Event>, lastSeq: Option<nat>, pending: seq<Event>, next: nat, stopped: bool)

  datatype StreamStep = PopPending | Hear | Miss | MissAfterExpiry

  /** Events a job's channel keeps for a slow receiver. */
  const BACKLOG := 256

  /** Subscribing copies the log and attaches the receiver under one lock. */
  function Subscribed(e: Entry): Stream {
    Stream(e.events, if e.events == [] then None else Some(e.events[|e.events| - 1].seqNo), [], |e.sent|, e.done)
  }

  /**
   `Miss` is a lagged receiver: the channel has dropped the oldest events it has not heard.
   If the job has expired by then there is nothing to recover from and the stream ends.
   */
  predicate Possible(e: Entry, s: Stream, st: StreamStep) {
    !s.stopped &&
    match st
    case PopPending => s.pending != []
    case Hear => s.pending == [] && s.next < |e.sent| <= s.next + BACKLOG
    case Miss => s.pending == [] && s.next + BACKLOG < |e.sent|
    case MissAfterExpiry => s.pending == [] && s.next + BACKLOG < |e.sent| && e.done
  }

  function Deliver(s: Stream, event: Event): Stream {
    s.(delivered := s.delivered + [event], lastSeq := Some(event.seqNo), stopped := IsTerminal(event.kind))
  }

  function Advance(e: Entry, s: Stream, st: StreamStep): Stream
    requires Possible(e, s, st)
  {
    match st
    case PopPending => Deliver(s, s.pending[0]).(pending := s.pending[1..])
    case Hear =>
      var event := e.sent[s.next];
      var s1 := s.(next := s.next + 1);
      if s.lastSeq.Some? && event.seqNo <= s.lastSeq.value then s1 else Deliver(s1, event)
    case Miss => s.(next := |e.sent| - BACKLOG, pending := NewerThan(e.events, s.lastSeq))
    case MissAfterExpiry => s.(stopped := true)
  }

  /** What was delivered is a prefix of the log, what is pending continues it, and nothing needed was skipped. */
  predicate StreamOk(e: Entry, s: Stream) {
    && s.delivered <= e.events
    && FirstNewer(s.lastSeq) == |s.delivered|
    && s.pending <= e.events[|s.delivered|..]
    && s.next <= |s.delivered| + |s.pending|
  }

  lemma SubscriptionStartsOk(e: Entry)
    requires EntryOk(e)
    ensures StreamOk(e, Subscribed(e))
  {
  }

  lemma PoppingKeepsOk(e: Entry, s: Stream)
    requires EntryOk(e) && StreamOk(e, s) && Possible(e, s, PopPending)
    ensures StreamOk(e, Advance(e, s, PopPending))
  {
    var n := |s.delivered|;
    assert s.pending[0] == e.events[n..][0] == e.events[n];
    assert s.delivered + [e.events[n]] == e.events[..n + 1];
    assert s.pending[1..] <= e.events[n..][1..] == e.events[n + 1..];
  }

  lemma HearingKeepsOk(e: Entry, s: Stream)
    requires EntryOk(e) && StreamOk(e, s) && Possible(e, s, Hear)
    ensures StreamOk(e, Advance(e, s, Hear))
  {
    var n := |s.delivered|;
    assert e.sent[s.next] == e.events[s.next] && e.events[s.next].seqNo == s.next <= n;
    if s.next == n {
      assert s.delivered + [e.events[n]] == e.events[..n + 1];
    }
  }

  /** Lagging loses nothing: the registry still has everything after the last event given. */
  lemma MissingKeepsOk(e: Entry, s: Stream)
    requires EntryOk(e) && StreamOk(e, s) && Possible(e, s, Miss)
    ensures StreamOk(e, Advance(e, s, Miss))
  {
    ReplayIsTheTail(e.events, s.lastSeq);
    assert NewerThan(e.events, s.lastSeq) == e.events[|s.delivered|..];
  }

  lemma AdvanceKeepsOk(e: Entry, s: Stream, st: StreamStep)
    requires EntryOk(e) && StreamOk(e, s) && Possible(e, s, st)
    ensures StreamOk(e, Advance(e, s, st))
  {
    match st
    case PopPending => PoppingKeepsOk(e, s);
    case Hear => HearingKeepsOk(e, s);
    case Miss => MissingKeepsOk(e, s);
    case MissAfterExpiry =>
  }

  lemma GrowthKeepsOk(e: Entry, e': Entry, s: Stream)
    requires StreamOk(e, s) && Later(e, e')
    ensures StreamOk(e', s)
  {
    assert e.events[|s.delivered|..] <= e'.events[|s.delivered|..];
  }

  /** The log grows and the stream advances, in any order. */
  datatype Tick = LogGrows(entry: Entry) | StreamMoves(step: StreamStep)

  ghost predicate StreamRun(e: Entry, s: Stream, ticks: seq<Tick>)
    decreases |ticks|
  {
    ticks == [] ||
    match ticks[0]
    case LogGrows(e') => EntryOk(e') && Later(e, e') && StreamRun(e', s, ticks[1..])
    case StreamMoves(st) => Possible(e, s, st) && StreamRun(e, Advance(e, s, st), ticks[1..])
  }

  ghost function StreamEnd(e: Entry, s: Stream, ticks: seq<Tick>): (Entry, Stream)
    requires StreamRun(e, s, ticks)
    decreases |ticks|
  {
    if ticks == [] then (e, s)
    else match ticks[0]
      case LogGrows(e') => StreamEnd(e', s, ticks[1..])
      case StreamMoves(st) => StreamEnd(e, Advance(e, s, st), ticks[1..])
  }

  lemma {:induction false} StreamStaysOk(e: Entry, s: Stream, ticks: seq<Tick>)
    requires EntryOk(e) && StreamOk(e, s) && StreamRun(e, s, ticks)
    ensures EntryOk(StreamEnd(e, s, ticks).0)
    ensures StreamOk(StreamEnd(e, s, ticks).0, StreamEnd(e, s, ticks).1)
    decreases |ticks|
  {
    if ticks != [] {
      match ticks[0]
      case LogGrows(e') =>
        GrowthKeepsOk(e, e', s);
        StreamStaysOk(e', s, ticks[1..]);
      case StreamMoves(st) =>
        AdvanceKeepsOk(e, s, st);
        StreamStaysOk(e, Advance(e, s, st), ticks[1..]);
    }
  }

  /**
   From any subscription point, through any growth of the log and any lag of the
   receiver, what a viewer has been given is a prefix of the log: no gap, no
   duplicate, no reordering. Once drained, it is the whole log.
   */
  lemma ViewerSeesThePlainLog(e: Entry, ticks: seq<Tick>)
    requires EntryOk(e) && StreamRun(e, Subscribed(e), ticks)
    ensures var (e', s) := StreamEnd(e, Subscribed(e), ticks);
      s.delivered <= e'.events
      && (s.pending == [] && s.next == |e'.sent| ==> s.delivered == e'.events)
  {
    SubscriptionStartsOk(e);
    StreamStaysOk(e, Subscribed(e), ticks);
  }

  /** A terminal event is the last of a done log, and a done log ends with one. */
  predicate Closed(e: Entry) {
    && (forall i | 0 <= i < |e.events| && IsTerminal(e.events[i].kind) :: e.done && i == |e.events| - 1)
    && (e.done ==> e.events != [] && IsTerminal(e.events[|e.events| - 1].kind))
  }

  /** What the drain task does with its job: progress is emitted, and one terminal event finishes. */
  predicate Orderly(op: Op) {
    && (op.Emit? ==> op.kind.Progress?)
    && (op.Finish? ==> IsTerminal(op.kind))
  }

  lemma DoKeepsClosed(r: Registry, op: Op)
    requires Orderly(op) && forall id <- r.entries :: Closed(r.entries[id])
    ensures forall id <- Do(r, op).entries :: Closed(Do(r, op).entries[id])
  {
  }

  /** In every orderly run the terminal event closes the log. */
  lemma {:induction false} LogsEndWithTheirTerminalEvent(ops: seq<Op>, n: nat)
    requires n <= |ops| && forall op <- ops :: Orderly(op)
    ensures forall id <- At(ops, n).entries :: Closed(At(ops, n).entries[id])
  {
    if n > 0 {
      LogsEndWithTheirTerminalEvent(ops, n - 1);
      assert ops[n - 1] in ops;
      DoKeepsClosed(At(ops, n - 1), ops[n - 1]);
    }
  }

  ghost predicate OrderlyTicks(ticks: seq<Tick>) {
    forall tick <- ticks :: tick.LogGrows? ==> Closed(tick.entry)
  }

  /** What a receiver is behind by, its channel still keeps or the stream has recovered. */
  predicate WithinReach(s: Stream) {
    |s.delivered| + |s.pending| <= s.next + BACKLOG
  }

  /** A stream that stopped without lagging past the end has given a done log whole. */
  predicate StoppedWhole(e: Entry, s: Stream) {
    s.stopped ==> e.done && s.delivered == e.events
  }

  lemma GivingKeepsStoppedWhole(e: Entry, s: Stream, st: StreamStep)
    requires EntryOk(e) && Closed(e) && StreamOk(e, s) && Possible(e, s, st) && st != MissAfterExpiry
    ensures StoppedWhole(e, Advance(e, s, st))
  {
    AdvanceKeepsOk(e, s, st);
    var s' := Advance(e, s, st);
    if s'.stopped {
      var n := |s'.delivered|;
      assert s'.delivered[n - 1] == e.events[n - 1];
    }
  }

  lemma MovingKeepsReach(e: Entry, s: Stream, st: StreamStep)
    requires EntryOk(e) && StreamOk(e, s) && WithinReach(s) && Possible(e, s, st)
    ensures WithinReach(Advance(e, s, st))
  {
    if st.Miss? { ReplayIsTheTail(e.events, s.lastSeq); }
  }

  lemma {:induction false} StoppedStreamStays(e: Entry, s: Stream, ticks: seq<Tick>)
    requires EntryOk(e) && s.stopped && e.done && StreamRun(e, s, ticks)
    ensures StreamEnd(e, s, ticks).1 == s
    ensures StreamEnd(e, s, ticks).0.done && StreamEnd(e, s, ticks).0.events == e.events
    decreases |ticks|
  {
    if ticks != [] { StoppedStreamStays(ticks[0].entry, s, ticks[1..]); }
  }

  lemma {:induction false} WholeIffNeverCut(e: Entry, s: Stream, ticks: seq<Tick>)
    requires EntryOk(e) && Closed(e) && StreamOk(e, s) && WithinReach(s) && StoppedWhole(e, s)
    requires StreamRun(e, s, ticks) && OrderlyTicks(ticks) && StreamEnd(e, s, ticks).1.stopped
    ensures StreamEnd(e, s, ticks).1.delivered == StreamEnd(e, s, ticks).0.events
       <==> StreamMoves(MissAfterExpiry) !in ticks
    ensures StreamEnd(e, s, ticks).0.done
    decreases |ticks|
  {
    if ticks != [] {
      assert ticks == [ticks[0]] + ticks[1..];
      match ticks[0]
      case LogGrows(e') =>
        GrowthKeepsOk(e, e', s);
        WholeIffNeverCut(e', s, ticks[1..]);
      case StreamMoves(st) =>
        var s' := Advance(e, s, st);
        if st.MissAfterExpiry? {
          StoppedStreamStays(e, s', ticks[1..]);
        } else {
          AdvanceKeepsOk(e, s, st);
          MovingKeepsReach(e, s, st);
          GivingKeepsStoppedWhole(e, s, st);
          WholeIffNeverCut(e, s', ticks[1..]);
        }
    }
  }

  /**
   A stream that has ended gave its viewer the whole log if and only if it never lagged past
   the expiry of its job: any other lag, however often, costs nothing.
   */
  lemma EndedStreamIsWholeIff(e: Entry, ticks: seq<Tick>)
    requires EntryOk(e) && Closed(e) && StreamRun(e, Subscribed(e), ticks) && OrderlyTicks(ticks)
    requires StreamEnd(e, Subscribed(e), ticks).1.stopped
    ensures var (e', s) := StreamEnd(e, Subscribed(e), ticks);
      s.delivered == e'.events <==> StreamMoves(MissAfterExpiry) !in ticks
  {
    SubscriptionStartsOk(e);
    WholeIffNeverCut(e, Subscribed(e), ticks);
  }

  predicate LastIsTerminal(events: seq<Event>) {
    events != [] && IsTerminal(events[|events| - 1].kind)
  }

  lemma {:induction false} EndIsClosed(e: Entry, s: Stream, ticks: seq<Tick>)
    requires Closed(e) && StreamRun(e, s, ticks) && OrderlyTicks(ticks)
    ensures Closed(StreamEnd(e, s, ticks).0)
    decreases |ticks|
  {
    if ticks != [] {
      assert ticks[0] in ticks;
      match ticks[0]
      case LogGrows(e') => EndIsClosed(e', s, ticks[1..]);
      case StreamMoves(st) => EndIsClosed(e, Advance(e, s, st), ticks[1..]);
    }
  }

  /** How a viewer tells that its ended stream was not cut: the last event it was given is the terminal one. */
  lemma ViewerKnowsItIsWhole(e: Entry, ticks: seq<Tick>)
    requires EntryOk(e) && Closed(e) && StreamRun(e, Subscribed(e), ticks) && OrderlyTicks(ticks)
    requires StreamEnd(e, Subscribed(e), ticks).1.stopped
    ensures LastIsTerminal(StreamEnd(e, Subscribed(e), ticks).1.delivered) <==> StreamMoves(MissAfterExpiry) !in ticks
  {
    SubscriptionStartsOk(e);
    StreamStaysOk(e, Subscribed(e), ticks);
    WholeIffNeverCut(e, Subscribed(e), ticks);
    EndIsClosed(e, Subscribed(e), ticks);
    var (e', s) := StreamEnd(e, Subscribed(e), ticks);
    if LastIsTerminal(s.delivered) {
      assert e'.events[|s.delivered| - 1] == s.delivered[|s.delivered| - 1];
    }
  }

  /** A stream that has given a terminal event has stopped. */
  predicate StopsInTime(s: Stream) {
    LastIsTerminal(s.delivered) ==> s.stopped
  }

  lemma {:induction false} StreamStopsInTime(e: Entry, s: Stream, ticks: seq<Tick>)
    requires StopsInTime(s) && StreamRun(e, s, ticks)
    ensures StopsInTime(StreamEnd(e, s, ticks).1)
    decreases |ticks|
  {
    if ticks != [] {
      match ticks[0]
      case LogGrows(e') => StreamStopsInTime(e', s, ticks[1..]);
      case StreamMoves(st) => StreamStopsInTime(e, Advance(e, s, st), ticks[1..]);
    }
  }

  lemma OneTickMore(e: Entry, s: Stream, st: StreamStep, rest: seq<Tick>)
    requires Possible(e, s, st) && StreamRun(e, Advance(e, s, st), rest)
    ensures StreamRun(e, s, [StreamMoves(st)] + rest)
    ensures StreamEnd(e, s, [StreamMoves(st)] + rest) == StreamEnd(e, Advance(e, s, st), rest)
  {
    assert ([StreamMoves(st)] + rest)[1..] == rest;
  }

  lemma {:induction false} StreamCanEnd(e: Entry, s: Stream) returns (ticks: seq<Tick>)
    requires EntryOk(e) && Closed(e) && e.done && StreamOk(e, s) && StopsInTime(s) && StoppedWhole(e, s)
    ensures StreamRun(e, s, ticks)
    ensures StreamEnd(e, s, ticks).1.stopped && StreamEnd(e, s, ticks).1.delivered == e.events
    decreases |e.sent| - s.next, |s.pending|
  {
    ticks := [];
    if !s.stopped {
      var st := if s.pending != [] then PopPending else if |e.sent| <= s.next + BACKLOG then Hear else Miss;
      AdvanceKeepsOk(e, s, st);
      GivingKeepsStoppedWhole(e, s, st);
      var rest := StreamCanEnd(e, Advance(e, s, st));
      OneTickMore(e, s, st, rest);
      ticks := [StreamMoves(st)] + rest;
    }
  }

  /** Wherever a stream stands beside a finished log, it can go on to its end, and has then given the whole log. */
  lemma EveryStreamCanEnd(e: Entry, ticks: seq<Tick>) returns (more: seq<Tick>)
    requires EntryOk(e) && Closed(e) && StreamRun(e, Subscribed(e), ticks) && OrderlyTicks(ticks)
    requires StreamEnd(e, Subscribed(e), ticks).0.done && StreamMoves(MissAfterExpiry) !in ticks
    ensures var (e', s) := StreamEnd(e, Subscribed(e), ticks);
      && StreamRun(e', s, more) && StreamEnd(e', s, more).1.stopped
      && StreamEnd(e', s, more).1.delivered == e'.events
  {
    SubscriptionStartsOk(e);
    StreamStaysOk(e, Subscribed(e), ticks);
    StreamStopsInTime(e, Subscribed(e), ticks);
    EndIsClosed(e, Subscribed(e), ticks);
    var (e', s) := StreamEnd(e, Subscribed(e), ticks);
    if s.stopped { EndedStreamIsWholeIff(e, ticks); }
    more := StreamCanEnd(e', s);
  }

  const STEP := Progress("step")

  function Progressed(owner: string, target: string, n: nat): Entry {
    var events := seq(n, i requires 0 <= i < n => Event(i, STEP));
    Entry(owner, target, events, events, false, true, false)
  }

  /** A job that reports more progress than its channel keeps, and is then cancelled. */
  function LongJob(owner: string, target: string): seq<Op> {
    [Create(owner, target)] + seq(BACKLOG, i => Emit(0, STEP)) + [Finish(0, Cancelled)]
  }

  lemma {:induction false} LongJobProgresses(owner: string, target: string, n: nat)
    requires n <= BACKLOG
    ensures At(LongJob(owner, target), n + 1) == Registry(map[0 := Progressed(owner, target, n)], 1)
  {
    var ops := LongJob(owner, target);
    if n == 0 {
      assert ops[0] == Create(owner, target) && At(ops, 0) == EMPTY;
      assert Progressed(owner, target, 0) == Entry(owner, target, [], [], false, true, false);
    } else {
      LongJobProgresses(owner, target, n - 1);
      assert ops[n] == Emit(0, STEP);
      assert Pushed(Progressed(owner, target, n - 1), STEP) == Progressed(owner, target, n);
    }
  }

  /**
   It does happen: a viewer that joins that job at its start, and lags until the job has
   expired, is given nothing.
   */
  lemma ExpiryCanCutAStream(owner: string, target: string)
    ensures var ops := LongJob(owner, target);
      At(ops, 1).entries.Keys == {0} == At(ops, |ops|).entries.Keys
      && var e, done := At(ops, 1).entries[0], At(ops, |ops|).entries[0];
      var ticks := [LogGrows(done), StreamMoves(MissAfterExpiry)];
      EntryOk(e) && Closed(e) && StreamRun(e, Subscribed(e), ticks) && OrderlyTicks(ticks)
      && StreamEnd(e, Subscribed(e), ticks).0 == done && |done.events| == 257
      && StreamEnd(e, Subscribed(e), ticks).1.stopped && StreamEnd(e, Subscribed(e), ticks).1.delivered == []
  {
    var ops := LongJob(owner, target);
    LongJobProgresses(owner, target, 0);
    LongJobProgresses(owner, target, BACKLOG);
    assert |ops| == BACKLOG + 2 && ops[BACKLOG + 1] == Finish(0, Cancelled);
    var e, done := At(ops, 1).entries[0], At(ops, |ops|).entries[0];
    assert done == Pushed(Progressed(owner, target, BACKLOG), Cancelled).(cancellable := false, done := true);
    RegistryInvariant(ops, |ops|);
    assert forall op <- ops :: Orderly(op);
    LogsEndWithTheirTerminalEvent(ops, |ops|);
    ExpiryCutsShort(e, done);
  }

  lemma ExpiryCutsShort(e: Entry, done: Entry)
    requires e.events == [] && e.sent == [] && !e.done && EntryOk(e)
    requires EntryOk(done) && Closed(done) && Later(e, done) && done.done && |done.sent| > BACKLOG
    ensures var ticks := [LogGrows(done), StreamMoves(MissAfterExpiry)];
      StreamRun(e, Subscribed(e), ticks) && OrderlyTicks(ticks)
      && StreamEnd(e, Subscribed(e), ticks).0 == done
      && StreamEnd(e, Subscribed(e), ticks).1.stopped && StreamEnd(e, Subscribed(e), ticks).1.delivered == []
  {
    var grow, miss := LogGrows(done), StreamMoves(MissAfterExpiry);
    var s := Subscribed(e);
    assert [grow, miss][1..] == [miss] && [miss][1..] == [];
    assert StreamRun(done, Advance(done, s, MissAfterExpiry), []);
    assert StreamRun(done, s, [miss]);
    assert StreamEnd(done, s, [miss]) == (done, Advance(done, s, MissAfterExpiry));
  }

  // ---------------------------------------------------------------------------
  // The registry itself
  // ---------------------------------------------------------------------------

  class JobTable {
    var entries: map<nat, Entry>
    var nextId: nat

    ghost function State(): Registry
      reads this
    {
      Registry(entries, nextId)
    }

    constructor ()
      ensures State() == EMPTY
    {
      entries, nextId := map[], 0;
    }

    method CreateFor(owner: string, target: string) returns (id: Option<nat>)
      modifies this
      ensures (State(), id) == Created(old(State()), owner, target)
    {
      var left := entries.Keys;
      while left != {}
        invariant left <= entries.Keys && State() == old(State())
        invariant forall other <- entries :: other !in left ==> entries[other].done || entries[other].target != target
      {
        var other :| other in left;
        if !entries[other].done && entries[other].target == target {
          return None;
        }
        left := left - {other};
      }
      id := Some(nextId);
      entries := entries[nextId := Entry(owner, target, [], [], false, true, false)];
      nextId := nextId + 1;
    }

    /** The caller's newest unfinished job. */
    method Active(owner: string) returns (newest: Option<nat>)
      ensures newest.None? <==> forall id <- entries :: entries[id].done || entries[id].owner != owner
      ensures newest.Some? ==>
                newest.value in entries && !entries[newest.value].done && entries[newest.value].owner == owner
      ensures newest.Some? ==> forall id <- entries ::
                !entries[id].done && entries[id].owner == owner ==> id <= newest.value
    {
      newest := None;
      var left := entries.Keys;
      while left != {}
        invariant left <= entries.Keys
        invariant newest.Some? ==>
                    newest.value in entries && !entries[newest.value].done && entries[newest.value].owner == owner
        invariant forall id <- entries :: id !in left && !entries[id].done && entries[id].owner == owner ==>
                    newest.Some? && id <= newest.value
      {
        var id :| id in left;
        if !entries[id].done && entries[id].owner == owner && (newest.None? || newest.value < id) {
          newest := Some(id);
        }
        left := left - {id};
      }
    }

    /** No event falls between the copied log and the receiver. */
    method Subscribe(owner: string, id: nat) returns (s: Option<Stream>)
      ensures s == if id in entries && entries[id].owner == owner then Some(Subscribed(entries[id])) else None
      ensures Inv(State()) && s.Some? ==> StreamOk(entries[id], s.value) && s.value.delivered == entries[id].events
    {
      if id !in entries || entries[id].owner != owner {
        return None;
      }
      return Some(Subscribed(entries[id]));
    }

    /** Buffered events newer than `after`, for the owner only. */
    method ReplayAfter(owner: string, id: nat, after: Option<nat>) returns (replay: Option<seq<Event>>)
      requires Inv(State())
      ensures replay.Some? <==> id in entries && entries[id].owner == owner
      ensures replay.Some? ==>
                replay.value
                == if FirstNewer(after) <= |entries[id].events| then entries[id].events[FirstNewer(after)..] else []
    {
      if id !in entries || entries[id].owner != owner {
        return None;
      }
      var events := entries[id].events;
      var newer := [];
      for i := 0 to |events|
        invariant newer == NewerThan(events[..i], after)
      {
        assert events[..i + 1][..i] == events[..i];
        if after.None? || events[i].seqNo > after.value {
          newer := newer + [events[i]];
        }
      }
      assert events[..|events|] == events;
      ReplayIsTheTail(events, after);
      return Some(newer);
    }

    /** An accepted cancellation shuts out the commit; a refused one changes nothing. */
    method CancelJob(owner: string, id: nat) returns (answer: CancelResult)
      modifies this
      ensures answer == CancelAnswer(old(State()), owner, id)
      ensures answer == NotFound <==> id !in old(entries) || old(entries)[id].owner != owner
      ensures answer != NotFound ==> (answer == Accepted <==> old(entries)[id].cancellable)
      ensures State() == CancelledBy(old(State()), owner, id)
      ensures old(Inv(State())) ==> Inv(State())
      ensures if answer == Accepted then !CanCommit(State(), id) && entries[id].cancel else State() == old(State())
    {
      if id !in entries || entries[id].owner != owner {
        return NotFound;
      }
      if !entries[id].cancellable {
        return NotCancellable;
      }
      ghost var before := State();
      entries := entries[id := entries[id].(cancel := true)];
      if Inv(before) { DoKeepsInv(before, Cancel(owner, id)); }
      return Accepted;
    }

    /** A granted commit is of an uncancelled job and shuts out cancellation and a second commit. */
    method TryCommit(id: nat) returns (granted: bool)
      modifies this
      ensures granted == CanCommit(old(State()), id)
      ensures State() == CommittedBy(old(State()), id)
      ensures old(Inv(State())) ==> Inv(State())
      ensures granted ==> !old(entries)[id].cancel && !CanCommit(State(), id)
      ensures granted ==> forall owner :: CancelAnswer(State(), owner, id) != Accepted
      ensures !granted ==> State() == old(State())
    {
      if id !in entries {
        return false;
      }
      var e := entries[id];
      if e.done || !e.cancellable || e.cancel {
        return false;
      }
      ghost var before := State();
      entries := entries[id := e.(cancellable := false)];
      if Inv(before) { DoKeepsInv(before, BeginNonCancellable(id)); }
      return true;
    }

    /** Nothing is taken back, a done log stays as it is, and other jobs do not notice. */
    method EmitEvent(id: nat, kind: EventKind)
      modifies this
      ensures State() == Emitted(old(State()), id, kind)
      ensures old(Inv(State())) ==> Inv(State())
      ensures entries.Keys == old(entries.Keys) && forall other <- entries :: other != id ==> entries[other] == old(entries)[other]
      ensures old(Inv(State())) && id in old(entries) ==> Later(old(entries)[id], entries[id])
    {
      if id !in entries || entries[id].done {
        return;
      }
      var e := entries[id];
      var event := Event(|e.events|, kind);
      ghost var before := State();
      entries := entries[id := e.(events := e.events + [event], sent := e.sent + [event])];
      if Inv(before) {
        DoKeepsInv(before, Emit(id, kind));
        DoFollows(before, Emit(id, kind), id, e);
      }
    }

    /** The job is done for good: frozen, not to be cancelled, not to be committed. */
    method FinishJob(id: nat, kind: EventKind)
      modifies this
      ensures State() == Finished(old(State()), id, kind)
      ensures old(Inv(State())) ==> Inv(State())
      ensures old(Inv(State())) && id in old(entries) ==>
        entries[id].done && Later(old(entries)[id], entries[id]) && !CanCommit(State(), id)
      ensures old(Inv(State())) ==> forall owner :: CancelAnswer(State(), owner, id) != Accepted
    {
      if id !in entries || entries[id].done {
        return;
      }
      var e := entries[id];
      var event := Event(|e.events|, kind);
      ghost var before := State();
      entries := entries[id := e.(events := e.events + [event], sent := e.sent + [event],
                                  cancellable := false, done := true)];
      if Inv(before) {
        DoKeepsInv(before, Finish(id, kind));
        DoFollows(before, Finish(id, kind), id, e);
      }
    }
  }
}
