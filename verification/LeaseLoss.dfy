/**
 When does losing touch with the lease cancel an operation? The renewal loop counts
 failures; this says what the count means over a whole run of the protocol.
 */
module LeaseLoss {
  import opened Wrappers
  import opened NodeLease

  /** How a step ends a renewal of the task, if it ends one: true when renewed. */
  function Verdict(s: Sys, st: Step, t: TaskId): Option<bool>
    requires Enabled(s, st)
  {
    match st
    case RenewGets(u) => if u == t && !HolderIs(s.lease, s.tasks[t].pod) then Some(false) else None
    case RenewHears(u) => if u == t then Some(s.replies[s.tasks[t].renewal.request] == Ok) else None
    case RenewFails(u) => if u == t then Some(false) else None
    case _ => None
  }

  function Listed(v: Option<bool>): seq<bool> {
    if v.Some? then [v.value] else []
  }

  /** The renewals of the task in a run, in order. */
  ghost function Verdicts(s: Sys, steps: seq<Step>, t: TaskId): seq<bool>
    requires Run(s, steps)
    decreases |steps|
  {
    if steps == [] then [] else Listed(Verdict(s, steps[0], t)) + Verdicts(Apply(s, steps[0]), steps[1..], t)
  }

  predicate FailedThrice(verdicts: seq<bool>, i: nat)
    requires i + 3 <= |verdicts|
  {
    forall j | i <= j < i + 3 :: !verdicts[j]
  }

  /** Somewhere, three renewals failed with no success in between. */
  predicate ThreeInARow(verdicts: seq<bool>) {
    exists i: nat | i + 3 <= |verdicts| :: FailedThrice(verdicts, i)
  }

  /** Failures since the last success. */
  function Trailing(verdicts: seq<bool>): nat {
    if verdicts == [] || verdicts[|verdicts| - 1] then 0 else 1 + Trailing(verdicts[..|verdicts| - 1])
  }

  lemma {:induction false} TrailingFailures(verdicts: seq<bool>)
    ensures Trailing(verdicts) <= |verdicts|
    ensures forall j | |verdicts| - Trailing(verdicts) <= j < |verdicts| :: !verdicts[j]
    ensures Trailing(verdicts) < |verdicts| ==> verdicts[|verdicts| - Trailing(verdicts) - 1]
  {
    if verdicts != [] && !verdicts[|verdicts| - 1] {
      TrailingFailures(verdicts[..|verdicts| - 1]);
    }
  }

  lemma RunAtTheEnd(verdicts: seq<bool>)
    ensures Trailing(verdicts) >= 3
       <==> |verdicts| >= 3 && FailedThrice(verdicts, |verdicts| - 3)
  {
    TrailingFailures(verdicts);
    var n, k := |verdicts|, Trailing(verdicts);
    if n >= 3 && FailedThrice(verdicts, n - 3) && k < n {
      assert verdicts[n - k - 1];
    }
  }

  lemma RunsBeforeTheEnd(past: seq<bool>, v: bool)
    ensures var all := past + [v];
      ThreeInARow(all) <==> ThreeInARow(past) || (|all| >= 3 && FailedThrice(all, |all| - 3))
  {
    var all := past + [v];
    if ThreeInARow(past) {
      var i: nat :| i + 3 <= |past| && FailedThrice(past, i);
      assert FailedThrice(all, i);
    }
    if ThreeInARow(all) {
      var i: nat :| i + 3 <= |all| && FailedThrice(all, i);
      if i + 3 <= |past| {
        assert forall j | i <= j < i + 3 :: past[j] == all[j];
        assert FailedThrice(past, i);
      }
    }
  }

  lemma OneMoreVerdict(past: seq<bool>, v: bool)
    ensures Trailing(past + [v]) == if v then 0 else Trailing(past) + 1
    ensures ThreeInARow(past + [v]) <==> ThreeInARow(past) || (!v && Trailing(past) + 1 >= 3)
  {
    assert (past + [v])[..|past|] == past;
    RunAtTheEnd(past + [v]);
    RunsBeforeTheEnd(past, v);
  }

  /** The task's record says what its renewals so far came to. */
  predicate Counts(s: Sys, t: TaskId, past: seq<bool>) {
    if t !in s.tasks then past == []
    else s.tasks[t].failures == Trailing(past) && (s.tasks[t].cancelled <==> ThreeInARow(past))
  }

  /** However a renewal of a running loop ends, the next one can begin. */
  lemma NextRenewalFollows(s: Sys, st: Step, t: TaskId)
    requires Enabled(s, st) && Verdict(s, st, t).Some? && RenewalLoopAlive(s.tasks[t])
    ensures Enabled(Apply(s, st), RenewGets(t))
  {
  }

  /** Only the renewal loop touches the count and the flag. */
  lemma OtherStepsLeaveTheRecord(s: Sys, st: Step, t: TaskId)
    requires Enabled(s, st) && t in s.tasks && !st.RenewGets? && !st.RenewHears? && !st.RenewFails?
    ensures t in Apply(s, st).tasks && Verdict(s, st, t).None?
    ensures var k, k' := s.tasks[t], Apply(s, st).tasks[t];
      k'.failures == k.failures && k'.cancelled == k.cancelled
  {
  }

  lemma RecordAfter(s: Sys, st: Step, t: TaskId)
    requires Enabled(s, st) && t in s.tasks
    ensures t in Apply(s, st).tasks
    ensures var v, k, k' := Verdict(s, st, t), s.tasks[t], Apply(s, st).tasks[t];
      && k'.failures == (if v.None? then k.failures else if v.value then 0 else k.failures + 1)
      && k'.cancelled == (k.cancelled || (v == Some(false) && k.failures + 1 >= 3))
  {
    match st
    case RenewGets(_) =>
    case RenewHears(_) =>
    case RenewFails(_) =>
    case _ => OtherStepsLeaveTheRecord(s, st, t);
  }

  lemma FirstRecord(s: Sys, st: Step, t: TaskId)
    requires Enabled(s, st) && t !in s.tasks
    ensures Verdict(s, st, t).None?
    ensures t in Apply(s, st).tasks ==> Apply(s, st).tasks[t].failures == 0 && !Apply(s, st).tasks[t].cancelled
  {
  }

  lemma StepCounts(s: Sys, st: Step, t: TaskId, past: seq<bool>)
    requires Enabled(s, st) && Counts(s, t, past)
    ensures Counts(Apply(s, st), t, past + Listed(Verdict(s, st, t)))
  {
    if t in s.tasks { RecordAfter(s, st, t); } else { FirstRecord(s, st, t); }
    var v := Verdict(s, st, t);
    if v.Some? {
      OneMoreVerdict(past, v.value);
    } else {
      assert past + [] == past;
    }
  }

  lemma VerdictsUnfold(s: Sys, steps: seq<Step>, t: TaskId)
    requires Run(s, steps) && steps != []
    ensures Verdicts(s, steps, t) == Listed(Verdict(s, steps[0], t)) + Verdicts(Apply(s, steps[0]), steps[1..], t)
  {
  }

  lemma Regroup(a: seq<bool>, b: seq<bool>, c: seq<bool>)
    ensures a + b + c == a + (b + c)
  {
  }

  lemma {:induction false} RunCounts(s: Sys, steps: seq<Step>, t: TaskId, past: seq<bool>)
    requires Run(s, steps) && Counts(s, t, past)
    ensures Counts(End(s, steps), t, past + Verdicts(s, steps, t))
    decreases |steps|
  {
    if steps == [] {
      assert past + [] == past;
    } else {
      var v, rest := Listed(Verdict(s, steps[0], t)), Verdicts(Apply(s, steps[0]), steps[1..], t);
      StepCounts(s, steps[0], t, past);
      RunCounts(Apply(s, steps[0]), steps[1..], t, past + v);
      VerdictsUnfold(s, steps, t);
      Regroup(past, v, rest);
    }
  }

  /**
   In every run, the lease cancels a task's operation if and only if three renewals in a
   row failed, at any time in the run; a success in between starts the count again.
   */
  lemma CancelledAfterThreeFailures(s: Sys, steps: seq<Step>, t: TaskId)
    requires Init(s) && Run(s, steps) && t in End(s, steps).tasks
    ensures End(s, steps).tasks[t].cancelled <==> ThreeInARow(Verdicts(s, steps, t))
  {
    RunCounts(s, steps, t, []);
    assert [] + Verdicts(s, steps, t) == Verdicts(s, steps, t);
  }
}
