/**
 The per-subject backend cache: a soft cap enforced by evicting the least recently
 active entries, and an idle reaper. Subscriptions, locks and the clock are taken
 as fixed for the duration of one pass.
 */
module BackendRegistry {

  /** `subscribed` is the answer of `has_active_subscribers` for the entry's backend. */
  datatype Entry = Entry(tokens: string, lastActive: int, subscribed: bool)

  /** `clones` counts the tasks that have cloned the lock object besides the table. */
  datatype BuildLock = BuildLock(held: bool, clones: nat)

  predicate Held(locks: map<string, BuildLock>, subject: string) {
    subject in locks && locks[subject].held
  }

  /** The same locks are held. */
  ghost predicate SameHeld(after: map<string, BuildLock>, before: map<string, BuildLock>) {
    forall s :: Held(after, s) == Held(before, s)
  }

  function Evictable(entries: map<string, Entry>, locks: map<string, BuildLock>): set<string> {
    set s | s in entries && !entries[s].subscribed && !Held(locks, s)
  }

  function Min(a: int, b: int): int {
    if a <= b then a else b
  }

  function Excess(entries: map<string, Entry>, cap: nat): nat {
    if |entries| > cap then |entries| - cap else 0
  }

  /** No entry that could have been evicted instead was less recently active. */
  predicate LeastRecent(entries: map<string, Entry>, victims: set<string>, evictable: set<string>)
    requires victims <= evictable <= entries.Keys
  {
    forall v, k | v in victims && k in evictable - victims :: entries[v].lastActive <= entries[k].lastActive
  }

  predicate SortedByActivity(entries: map<string, Entry>, order: seq<string>)
    requires forall s <- order :: s in entries
  {
    forall i, j | 0 <= i < j < |order| :: entries[order[i]].lastActive <= entries[order[j]].lastActive
  }

  lemma SubsetSize(a: set<string>, b: set<string>)
    requires a <= b
    ensures |a| <= |b| && (|a| == |b| ==> a == b)
  {
    var rest := b - a;
    assert b == a + rest;
  }

  lemma RemainingSize(entries: map<string, Entry>, gone: set<string>)
    requires gone <= entries.Keys
    ensures |entries - gone| == |entries| - |gone|
  {
    assert (entries - gone).Keys == entries.Keys - gone;
  }

  /** The victims so far are the least recent evictable ones and not more than the excess. */
  ghost predicate Trimmed(entries: map<string, Entry>, victims: set<string>, evictable: set<string>, cap: nat) {
    && victims <= evictable <= entries.Keys
    && LeastRecent(entries, victims, evictable)
    && |victims| <= Excess(entries, cap)
    && |entries - victims| == |entries| - |victims|
  }

  /** Evicting the oldest of what is left extends the oldest of everything. */
  lemma OneMoreVictim(entries: map<string, Entry>, victims: set<string>, victim: set<string>, evictable: set<string>, cap: nat)
    requires Trimmed(entries, victims, evictable, cap) && |entries - victims| > cap
    requires victim <= evictable - victims && |victim| == 1
    requires LeastRecent(entries - victims, victim, evictable - victims)
    ensures Trimmed(entries, victims + victim, evictable, cap)
    ensures (entries - victims) - victim == entries - (victims + victim)
    ensures |entries - (victims + victim)| == |entries - victims| - 1
  {
    assert victims * victim == {};
    assert evictable - (victims + victim) == (evictable - victims) - victim;
    forall v, k | v in victims + victim && k in evictable - (victims + victim)
      ensures entries[v].lastActive <= entries[k].lastActive
    {
      if v in victim {
        assert (entries - victims)[v].lastActive <= (entries - victims)[k].lastActive;
      }
    }
    RemainingSize(entries, victims + victim);
  }

  /** A round that evicts the oldest evictable entry left, or finds none. */
  lemma RoundKeepsTrimmed(
    entries: map<string, Entry>, victims: set<string>, victim: set<string>, evictable: set<string>, cap: nat)
    requires Trimmed(entries, victims, evictable, cap) && |entries - victims| > cap
    requires victim <= evictable - victims && |victim| <= 1 && (victim == {} ==> evictable - victims == {})
    requires LeastRecent(entries - victims, victim, evictable - victims)
    ensures Trimmed(entries, victims + victim, evictable, cap)
    ensures (entries - victims) - victim == entries - (victims + victim)
    ensures (evictable - victims) - victim == evictable - (victims + victim)
    ensures if victim == {} then victims == evictable
            else |entries - (victims + victim)| == |entries - victims| - 1
  {
    if victim == {} {
      assert victims + victim == victims;
    } else {
      OneMoreVictim(entries, victims, victim, evictable, cap);
    }
  }

  lemma EvictableLeft(entries: map<string, Entry>, before: map<string, BuildLock>, after: map<string, BuildLock>, gone: set<string>)
    requires SameHeld(after, before)
    ensures Evictable(entries - gone, after) == Evictable(entries, before) - gone
  {
  }

  lemma EnoughTrimmed(entries: map<string, Entry>, victims: set<string>, evictable: set<string>, cap: nat)
    requires Trimmed(entries, victims, evictable, cap)
    requires |entries - victims| <= cap || victims == evictable
    ensures |victims| == Min(Excess(entries, cap), |evictable|)
  {
    SubsetSize(victims, evictable);
  }

  /** What is still over the cap after a pass cannot be evicted. */
  lemma OverCapMeansInUse(entries: map<string, Entry>, locks: map<string, BuildLock>, victims: set<string>, cap: nat)
    requires victims <= Evictable(entries, locks) && |entries - victims| > cap
    requires |victims| == Min(Excess(entries, cap), |Evictable(entries, locks)|)
    ensures forall s <- entries - victims :: entries[s].subscribed || Held(locks, s)
  {
    RemainingSize(entries, victims);
    SubsetSize(victims, Evictable(entries, locks));
  }

  /** Between the two, no more went than had to, and those the least recently active of all that could. */
  ghost predicate FewestLeastRecent(
    full: map<string, Entry>, left: map<string, Entry>, locks: map<string, BuildLock>, cap: nat)
  {
    var gone := full.Keys - left.Keys;
    && left == full - gone
    && (forall v <- gone :: !full[v].subscribed && !Held(locks, v))
    && (|left| < cap ==> gone == {}) && (|left| == cap ==> |full| == cap + |gone|)
    && (forall v, k | v in gone && k in left && !full[k].subscribed && !Held(locks, k) ::
          full[v].lastActive <= full[k].lastActive)
  }

  lemma TrimmedIsFewest(full: map<string, Entry>, locks: map<string, BuildLock>, victims: set<string>, cap: nat)
    requires victims <= Evictable(full, locks) && LeastRecent(full, victims, Evictable(full, locks))
    requires |victims| == Min(Excess(full, cap), |Evictable(full, locks)|)
    ensures FewestLeastRecent(full, full - victims, locks, cap)
  {
    RemainingSize(full, victims);
    assert full.Keys - (full - victims).Keys == victims;
  }

  /** An entry whose lock is held is never among the victims; nothing else changes for those that stay. */
  lemma EntrantStays(
    before: map<string, Entry>, subject: string, entry: Entry, locks: map<string, BuildLock>, victims: set<string>, cap: nat)
    requires Held(locks, subject) && victims <= Evictable(before[subject := entry], locks)
    requires |victims| == Min(Excess(before[subject := entry], cap), |Evictable(before[subject := entry], locks)|)
    ensures var left := before[subject := entry] - victims;
      && subject in left && left[subject] == entry
      && (forall s <- left :: s == subject || (s in before && left[s] == before[s]))
      && (forall s <- before :: s !in left ==> !before[s].subscribed && !Held(locks, s))
      && (|left| <= cap || forall s <- left :: left[s].subscribed || Held(locks, s))
  {
    var full := before[subject := entry];
    if |full - victims| > cap { OverCapMeansInUse(full, locks, victims, cap); }
  }

  class Registry {
    const cap: nat
    var entries: map<string, Entry>
    var buildLocks: map<string, BuildLock>

    constructor (cap: nat)
      ensures this.cap == cap && entries == map[] && buildLocks == map[]
    {
      this.cap := cap;
      entries, buildLocks := map[], map[];
    }

    /** Evict unless the subject's build lock is held; tidy up a lock nobody else has cloned. */
    method EvictLocked(subject: string) returns (removed: bool)
      modifies this
      ensures removed <==> subject in old(entries) && !Held(old(buildLocks), subject)
      ensures entries == if Held(old(buildLocks), subject) then old(entries) else old(entries) - {subject}
      ensures SameHeld(buildLocks, old(buildLocks))
      ensures buildLocks == if subject in old(buildLocks) && old(buildLocks)[subject] == BuildLock(false, 0)
                            then old(buildLocks) - {subject} else old(buildLocks)
    {
      if subject in buildLocks && buildLocks[subject].held {
        return false;
      }
      removed := subject in entries;
      entries := entries - {subject};
      if subject in buildLocks && buildLocks[subject].clones == 0 {
        buildLocks := buildLocks - {subject};
      }
    }

    /** Every cached subject, oldest activity first. */
    method Candidates() returns (order: seq<string>)
      ensures forall s :: s in order <==> s in entries
      ensures SortedByActivity(entries, order)
    {
      order := [];
      var left := entries.Keys;
      while left != {}
        invariant left <= entries.Keys
        invariant forall s :: s in order <==> s in entries && s !in left
        invariant SortedByActivity(entries, order)
        invariant forall s, k | s in order && k in left :: entries[s].lastActive <= entries[k].lastActive
      {
        var oldest :| oldest in left;
        var others := left - {oldest};
        while others != {}
          invariant oldest in left && others <= left
          invariant forall k | k in left && k !in others :: entries[oldest].lastActive <= entries[k].lastActive
        {
          var k :| k in others;
          if entries[k].lastActive < entries[oldest].lastActive { oldest := k; }
          others := others - {k};
        }
        order := order + [oldest];
        left := left - {oldest};
      }
    }

    /** One scan of the cap loop: evict the oldest entry that can be evicted, if there is one. */
    method EvictOldest() returns (victim: set<string>)
      modifies this
      ensures entries == old(entries) - victim
      ensures SameHeld(buildLocks, old(buildLocks))
      ensures victim <= Evictable(old(entries), old(buildLocks)) && |victim| <= 1
      ensures victim == {} ==> Evictable(old(entries), old(buildLocks)) == {}
      ensures LeastRecent(old(entries), victim, Evictable(old(entries), old(buildLocks)))
    {
      var order := Candidates();
      victim := {};
      for i := 0 to |order|
        invariant entries == old(entries) && buildLocks == old(buildLocks)
        invariant forall j | 0 <= j < i :: order[j] !in Evictable(entries, buildLocks)
      {
        var subject := order[i];
        if entries[subject].subscribed { continue; }
        var removed := EvictLocked(subject);
        if removed {
          victim := {subject};
          forall k | k in Evictable(old(entries), old(buildLocks)) && k != subject
            ensures old(entries)[subject].lastActive <= old(entries)[k].lastActive
          {
            assert k in order;
            var j :| 0 <= j < |order| && order[j] == k;
            assert i < j;
          }
          return;
        }
        assert subject in entries && buildLocks == old(buildLocks);
      }
      assert forall s <- Evictable(entries, buildLocks) :: s in order;
    }

    /** One round of the cap loop, seen from the entries it started with. */
    method TrimOnce(ghost all: map<string, Entry>, ghost evictable: set<string>, ghost victims: set<string>)
      returns (victim: set<string>)
      requires entries == all - victims && |entries| > cap && Trimmed(all, victims, evictable, cap)
      requires Evictable(entries, buildLocks) == evictable - victims
      modifies this
      ensures entries == all - (victims + victim) && Trimmed(all, victims + victim, evictable, cap)
      ensures Evictable(entries, buildLocks) == evictable - (victims + victim)
      ensures if victim == {} then victims == evictable else |entries| == |old(entries)| - 1
      ensures SameHeld(buildLocks, old(buildLocks))
    {
      victim := EvictOldest();
      EvictableLeft(old(entries), old(buildLocks), buildLocks, victim);
      RoundKeepsTrimmed(all, victims, victim, evictable, cap);
    }

    /**
     The soft cap: exactly min(excess, number evictable) entries go, the least recently
     active evictable ones; subscribed entries and subjects being built always stay.
     */
    method EnforceCap() returns (victims: set<string>)
      modifies this
      ensures entries == old(entries) - victims
      ensures victims <= Evictable(old(entries), old(buildLocks))
      ensures |victims| == Min(Excess(old(entries), cap), |Evictable(old(entries), old(buildLocks))|)
      ensures LeastRecent(old(entries), victims, Evictable(old(entries), old(buildLocks)))
      ensures SameHeld(buildLocks, old(buildLocks))
    {
      ghost var all, evictable := entries, Evictable(entries, buildLocks);
      victims := {};
      assert entries - victims == entries;
      while |entries| > cap
        invariant entries == all - victims && Trimmed(all, victims, evictable, cap)
        invariant Evictable(entries, buildLocks) == evictable - victims
        invariant SameHeld(buildLocks, old(buildLocks))
        decreases |entries|
      {
        var victim := TrimOnce(all, evictable, victims);
        if victim == {} {
          break;
        }
        victims := victims + victim;
      }
      EnoughTrimmed(all, victims, evictable, cap);
    }

    /** A new entry is admitted whatever the cap says, and never evicts itself: its lock is held. */
    method Insert(subject: string, entry: Entry)
      requires Held(buildLocks, subject)
      modifies this
      ensures subject in entries && entries[subject] == entry
      ensures forall s <- entries :: s == subject || (s in old(entries) && entries[s] == old(entries)[s])
      ensures forall s <- old(entries) :: s !in entries ==> !old(entries)[s].subscribed && !Held(old(buildLocks), s)
      ensures |entries| <= cap || forall s <- entries :: entries[s].subscribed || Held(buildLocks, s)
      ensures FewestLeastRecent(old(entries)[subject := entry], entries, old(buildLocks), cap)
    {
      entries := entries[subject := entry];
      ghost var full := entries;
      var victims := EnforceCap();
      TrimmedIsFewest(full, old(buildLocks), victims, cap);
      EntrantStays(old(entries), subject, entry, old(buildLocks), victims, cap);
    }

    /** The idle reaper drops exactly the idle entries that nobody watches or builds. */
    method ReapPass(now: int, idle: nat)
      modifies this
      ensures entries == old(entries) - set s | s in Evictable(old(entries), old(buildLocks))
                                               && now - old(entries)[s].lastActive >= idle
      ensures SameHeld(buildLocks, old(buildLocks))
    {
      var candidates := set s | s in entries && now - entries[s].lastActive >= idle;
      ghost var evictable := Evictable(entries, buildLocks);
      var left := candidates;
      while left != {}
        invariant left <= candidates
        invariant entries == old(entries) - ((candidates - left) * evictable)
        invariant SameHeld(buildLocks, old(buildLocks))
      {
        var s :| s in left;
        ghost var done := candidates - left;
        left := left - {s};
        assert candidates - left == done + {s};
        if !entries[s].subscribed {
          var _ := EvictLocked(s);
        }
      }
      assert candidates - {} == candidates;
    }
  }
}
