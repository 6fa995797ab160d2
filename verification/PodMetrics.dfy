/**
 The pod usage cache and the per-pod metrics history, refreshed by each scrape of
 the metrics server. A pod survives short gaps: it is dropped only after its
 fourth consecutive absence.
 */
module PodMetrics {
  import opened Wrappers

  const MAX_HISTORY_POINTS := 240
  const MAX_MISSES := 3

  datatype Usage = Usage(cpu: real, mem: real, prevCpu: Option<real>, prevMem: Option<real>, misses: nat)

  datatype Point = Point(time: nat, cpu: real, mem: real)

  datatype Sample = Sample(cpu: real, mem: real)

  datatype Scrape = Scrape(time: nat, pods: map<string, Sample>)

  datatype Caches = Caches(usage: map<string, Usage>, history: map<string, seq<Point>>)

  const DEFAULT := Usage(0.0, 0.0, None, None, 0)
  const EMPTY := Caches(map[], map[])

  /** A byte counter that stops at its maximum. */
  function SaturatingInc(n: nat): nat {
    if n >= 255 then 255 else n + 1
  }

  function Aged(u: Usage): Usage {
    u.(misses := SaturatingInc(u.misses), prevCpu := Some(u.cpu), prevMem := Some(u.mem))
  }

  function Observed(u: Usage, s: Sample): Usage {
    var u1 := u.(misses := 0, cpu := s.cpu, mem := s.mem);
    if u1.prevCpu.Some? && u1.prevMem.Some? then u1 else u1.(prevCpu := Some(s.cpu), prevMem := Some(s.mem))
  }

  function LastPoints(points: seq<Point>): seq<Point> {
    if |points| > MAX_HISTORY_POINTS then points[|points| - MAX_HISTORY_POINTS..] else points
  }

  function AgedOf(usage: map<string, Usage>, k: string): Usage {
    if k in usage then Aged(usage[k]) else DEFAULT
  }

  function PointsOf(history: map<string, seq<Point>>, k: string): seq<Point> {
    if k in history then history[k] else []
  }

  /** Every entry aged, and the pods in `seen` brought up to date. */
  function MergedUsage(c: Caches, s: Scrape, seen: set<string>): map<string, Usage>
    requires seen <= s.pods.Keys
  {
    map k | k in c.usage.Keys + seen ::
      if k in seen then Observed(AgedOf(c.usage, k), s.pods[k]) else AgedOf(c.usage, k)
  }

  function MergedHistory(c: Caches, s: Scrape, seen: set<string>): map<string, seq<Point>>
    requires seen <= s.pods.Keys
  {
    map k | k in c.history.Keys + seen ::
      if k in seen then LastPoints(PointsOf(c.history, k) + [Point(s.time, s.pods[k].cpu, s.pods[k].mem)])
      else c.history[k]
  }

  /** An empty answer is ignored: no metrics server, no news. */
  function AfterScrape(c: Caches, s: Scrape): Caches {
    if s.pods == map[] then c
    else
      var merged, points := MergedUsage(c, s, s.pods.Keys), MergedHistory(c, s, s.pods.Keys);
      var usage := map k | k in merged && merged[k].misses <= MAX_MISSES :: merged[k];
      Caches(usage, map k | k in points && k in usage :: points[k])
  }

  function After(scrapes: seq<Scrape>): Caches {
    if scrapes == [] then EMPTY else AfterScrape(After(scrapes[..|scrapes| - 1]), scrapes[|scrapes| - 1])
  }

  // ---------------------------------------------------------------------------
  // What the caches mean, said of the scrapes alone
  // ---------------------------------------------------------------------------

  predicate SeenIn(scrapes: seq<Scrape>, k: string, lo: nat, hi: nat)
    requires lo <= hi <= |scrapes|
  {
    exists i :: lo <= i < hi && k in scrapes[i].pods
  }

  /** The pod is in one of the four scrapes from `lo` on. */
  predicate SeenWithinFour(scrapes: seq<Scrape>, k: string, lo: nat)
    requires lo + 4 <= |scrapes|
  {
    SeenIn(scrapes, k, lo, lo + 4)
  }

  /** The pod is in one of the last four scrapes. */
  predicate Recent(scrapes: seq<Scrape>, k: string) {
    SeenIn(scrapes, k, if |scrapes| > 3 then |scrapes| - 4 else 0, |scrapes|)
  }

  /** Consecutive scrapes at the end that omit the pod. */
  function Omissions(scrapes: seq<Scrape>, k: string): nat {
    if scrapes == [] || k in scrapes[|scrapes| - 1].pods then 0
    else 1 + Omissions(scrapes[..|scrapes| - 1], k)
  }

  /** The pod's samples in a stretch of scrapes, oldest first. */
  function Samples(scrapes: seq<Scrape>, k: string): seq<Point> {
    if scrapes == [] then []
    else
      var last := scrapes[|scrapes| - 1];
      Samples(scrapes[..|scrapes| - 1], k)
      + if k in last.pods then [Point(last.time, last.pods[k].cpu, last.pods[k].mem)] else []
  }

  /**
   The pod was admitted by scrape `a` and never dropped since: it is in that scrape,
   in none of the four before it, and no later stretch of four omits it.
   */
  ghost predicate AdmittedAt(scrapes: seq<Scrape>, k: string, a: nat) {
    && a < |scrapes| && k in scrapes[a].pods
    && (forall i | 0 <= i < a && a <= i + 4 :: k !in scrapes[i].pods)
    && (forall i: nat | a <= i && i + 4 <= |scrapes| :: SeenWithinFour(scrapes, k, i))
  }

  lemma SeenInPrefix(scrapes: seq<Scrape>, k: string, lo: nat, hi: nat)
    requires lo <= hi < |scrapes|
    ensures SeenIn(scrapes, k, lo, hi) <==> SeenIn(scrapes[..|scrapes| - 1], k, lo, hi)
  {
    var init := scrapes[..|scrapes| - 1];
    assert forall i | 0 <= i < |init| :: init[i] == scrapes[i];
  }

  lemma {:induction false} OmissionsAreTheGap(scrapes: seq<Scrape>, k: string)
    ensures Omissions(scrapes, k) <= |scrapes|
    ensures !SeenIn(scrapes, k, |scrapes| - Omissions(scrapes, k), |scrapes|)
    ensures Omissions(scrapes, k) < |scrapes| ==> k in scrapes[|scrapes| - Omissions(scrapes, k) - 1].pods
    ensures Recent(scrapes, k) <==> Omissions(scrapes, k) < |scrapes| && Omissions(scrapes, k) <= 3
  {
    var n := |scrapes|;
    if n > 0 && k !in scrapes[n - 1].pods {
      var init := scrapes[..n - 1];
      OmissionsAreTheGap(init, k);
      assert forall i | 0 <= i < n - 1 :: init[i] == scrapes[i];
    }
    var o := Omissions(scrapes, k);
    assert forall i | n - o <= i < n :: k !in scrapes[i].pods;
    if o < n {
      assert k in scrapes[n - o - 1].pods;
    }
  }

  lemma LastPointsAreTheNewest(points: seq<Point>)
    ensures |LastPoints(points)| == if |points| < 240 then |points| else 240
    ensures LastPoints(points) == points[|points| - |LastPoints(points)|..]
  {
  }

  lemma LastPointsAbsorb(points: seq<Point>, p: Point)
    ensures LastPoints(LastPoints(points) + [p]) == LastPoints(points + [p])
  {
  }

  lemma SamplesGrow(scrapes: seq<Scrape>, k: string, a: nat)
    requires a < |scrapes|
    ensures Samples(scrapes[a..], k)
         == Samples(scrapes[a..|scrapes| - 1], k)
            + var last := scrapes[|scrapes| - 1];
              if k in last.pods then [Point(last.time, last.pods[k].cpu, last.pods[k].mem)] else []
  {
    assert scrapes[a..][..|scrapes[a..]| - 1] == scrapes[a..|scrapes| - 1];
  }

  /** A pod seen again while still kept, or missed while still recent, keeps its admission. */
  lemma AdmissionStands(scrapes: seq<Scrape>, k: string, a: nat)
    requires scrapes != [] && AdmittedAt(scrapes[..|scrapes| - 1], k, a) && Recent(scrapes, k)
    ensures AdmittedAt(scrapes, k, a)
  {
    var n := |scrapes|;
    var init := scrapes[..n - 1];
    forall i: nat | a <= i && i + 4 <= n ensures SeenWithinFour(scrapes, k, i) {
      if i + 4 < n {
        assert SeenWithinFour(init, k, i);
        SeenInPrefix(scrapes, k, i, i + 4);
      }
    }
  }

  /** What the two caches hold about one pod. */
  datatype Entry = Entry(misses: nat, points: seq<Point>)

  /**
   The usage entry repeats the newest point of the history; its previous values are
   the point before, unless the pod is new or missed the latest scrape (no trend).
   */
  predicate Mirrors(u: Usage, points: seq<Point>) {
    && points != []
    && var now := points[|points| - 1];
    && var prior := if u.misses == 0 && |points| > 1 then points[|points| - 2] else now;
    && u.cpu == now.cpu && u.mem == now.mem && u.prevCpu == Some(prior.cpu) && u.prevMem == Some(prior.mem)
  }

  predicate Consistent(c: Caches) {
    && c.usage.Keys == c.history.Keys
    && forall k <- c.usage :: Mirrors(c.usage[k], c.history[k])
  }

  function EntryOf(c: Caches, k: string): Option<Entry>
    requires Consistent(c)
  {
    if k in c.usage then assert k in c.history; Some(Entry(c.usage[k].misses, c.history[k])) else None
  }

  function PointIn(s: Scrape, k: string): Option<Point> {
    if k in s.pods then Some(Point(s.time, s.pods[k].cpu, s.pods[k].mem)) else None
  }

  function NextEntry(e: Option<Entry>, p: Option<Point>): Option<Entry> {
    if p.Some? then Some(Entry(0, LastPoints((if e.Some? then e.value.points else []) + [p.value])))
    else if e.Some? && e.value.misses < MAX_MISSES then Some(Entry(e.value.misses + 1, e.value.points))
    else None
  }

  lemma SamplesKeepMirrors(u: Usage, points: seq<Point>, p: Point)
    requires Mirrors(u, points)
    ensures Mirrors(Aged(u), points) || u.misses >= 255
    ensures Mirrors(Observed(Aged(u), Sample(p.cpu, p.mem)), LastPoints(points + [p]))
    ensures Mirrors(Observed(DEFAULT, Sample(p.cpu, p.mem)), LastPoints([p]))
  {
  }

  lemma ScrapeOfOnePod(c: Caches, s: Scrape, k: string)
    requires c.usage.Keys == c.history.Keys && s.pods != map[]
    ensures var r := AfterScrape(c, s);
      && (k in r.usage <==> k in s.pods || (k in c.usage && c.usage[k].misses < MAX_MISSES))
      && (k in r.history <==> k in r.usage)
      && (k in r.usage ==>
            if k in s.pods then
              && r.usage[k] == Observed(AgedOf(c.usage, k), s.pods[k])
              && r.history[k] == LastPoints(PointsOf(c.history, k) + [PointIn(s, k).value])
            else r.usage[k] == Aged(c.usage[k]) && r.history[k] == c.history[k])
  {
  }

  lemma ScrapeKeepsMirrors(c: Caches, s: Scrape, k: string)
    requires Consistent(c) && s.pods != map[]
    requires k in AfterScrape(c, s).usage && k in AfterScrape(c, s).history
    ensures Mirrors(AfterScrape(c, s).usage[k], AfterScrape(c, s).history[k])
  {
    ScrapeOfOnePod(c, s, k);
    if k in c.usage {
      assert k in c.history && Mirrors(c.usage[k], c.history[k]);
      SamplesKeepMirrors(c.usage[k], c.history[k], if k in s.pods then PointIn(s, k).value else Point(0, 0.0, 0.0));
    } else {
      assert k !in c.history;
    }
  }

  lemma ScrapeStaysConsistent(c: Caches, s: Scrape)
    requires Consistent(c) && s.pods != map[]
    ensures Consistent(AfterScrape(c, s))
  {
    var r := AfterScrape(c, s);
    forall x: string ensures x in r.usage.Keys <==> x in r.history.Keys {
      ScrapeOfOnePod(c, s, x);
    }
    assert r.usage.Keys == r.history.Keys;
    forall x | x in r.usage ensures Mirrors(r.usage[x], r.history[x]) {
      assert x in r.usage.Keys && x in r.history;
      ScrapeKeepsMirrors(c, s, x);
    }
  }

  lemma NextOfOnePod(c: Caches, s: Scrape, r: Caches, k: string)
    requires Consistent(c) && Consistent(r)
    requires k in r.usage <==> k in s.pods || (k in c.usage && c.usage[k].misses < MAX_MISSES)
    requires k in r.usage ==> k in r.history
    requires k in s.pods ==>
      && r.usage[k] == Observed(AgedOf(c.usage, k), s.pods[k])
      && r.history[k] == LastPoints(PointsOf(c.history, k) + [PointIn(s, k).value])
    requires k in r.usage && k !in s.pods ==>
      r.usage[k] == Aged(c.usage[k]) && k in c.history && r.history[k] == c.history[k]
    ensures EntryOf(r, k) == NextEntry(EntryOf(c, k), PointIn(s, k))
  {
    assert k in c.usage <==> k in c.history by {
      assert k in c.usage.Keys <==> k in c.history.Keys;
    }
  }

  /** An answered scrape treats every pod by itself, and the two caches stay consistent. */
  lemma ScrapeActsOnEachPod(c: Caches, s: Scrape, k: string)
    requires Consistent(c) && s.pods != map[]
    ensures Consistent(AfterScrape(c, s))
    ensures EntryOf(AfterScrape(c, s), k) == NextEntry(EntryOf(c, k), PointIn(s, k))
  {
    ScrapeStaysConsistent(c, s);
    ScrapeOfOnePod(c, s, k);
    assert k in c.usage.Keys <==> k in c.history.Keys;
    NextOfOnePod(c, s, AfterScrape(c, s), k);
  }

  /** An entry, said in terms of the scrapes only. */
  ghost predicate Describes(e: Option<Entry>, scrapes: seq<Scrape>, k: string, a: nat) {
    && (e.Some? <==> Recent(scrapes, k))
    && (e.Some? ==>
          && e.value.misses == Omissions(scrapes, k)
          && AdmittedAt(scrapes, k, a)
          && e.value.points == LastPoints(Samples(scrapes[a..], k)))
  }

  lemma SeenNow(scrapes: seq<Scrape>, k: string, e: Option<Entry>, a: nat) returns (a': nat)
    requires scrapes != [] && k in scrapes[|scrapes| - 1].pods
    requires Describes(e, scrapes[..|scrapes| - 1], k, a)
    ensures Describes(NextEntry(e, PointIn(scrapes[|scrapes| - 1], k)), scrapes, k, a')
  {
    var n := |scrapes|;
    var init, p := scrapes[..n - 1], PointIn(scrapes[n - 1], k).value;
    OmissionsAreTheGap(scrapes, k);
    if e.Some? {
      a' := a;
      AdmissionStands(scrapes, k, a);
      SamplesGrow(scrapes, k, a);
      assert scrapes[a..n - 1] == init[a..];
      LastPointsAbsorb(Samples(init[a..], k), p);
    } else {
      a' := n - 1;
      SamplesGrow(scrapes, k, n - 1);
      assert scrapes[n - 1..n - 1] == [];
      forall i | 0 <= i < n - 1 && n - 1 <= i + 4 ensures k !in scrapes[i].pods {
        assert init[i] == scrapes[i];
        assert !Recent(init, k);
      }
    }
  }

  lemma MissedNow(scrapes: seq<Scrape>, k: string, e: Option<Entry>, a: nat)
    requires scrapes != [] && k !in scrapes[|scrapes| - 1].pods
    requires Describes(e, scrapes[..|scrapes| - 1], k, a)
    ensures Describes(NextEntry(e, None), scrapes, k, a)
  {
    var n := |scrapes|;
    var init := scrapes[..n - 1];
    OmissionsAreTheGap(init, k);
    OmissionsAreTheGap(scrapes, k);
    if Recent(scrapes, k) {
      AdmissionStands(scrapes, k, a);
      SamplesGrow(scrapes, k, a);
      assert scrapes[a..n - 1] == init[a..];
    }
  }

  /**
   Over every sequence of answered scrapes: usage and history list the same pods, those
   in one of the last four scrapes; `misses` is the run of omissions at the end; and the
   history is the last 240 samples since the pod was last admitted, which the usage
   entry repeats.
   */
  lemma {:induction false} CachesFollowTheScrapes(scrapes: seq<Scrape>, k: string) returns (a: nat)
    requires forall s <- scrapes :: s.pods != map[]
    ensures Consistent(After(scrapes)) && Describes(EntryOf(After(scrapes), k), scrapes, k, a)
  {
    a := 0;
    if scrapes != [] {
      var init, last := scrapes[..|scrapes| - 1], scrapes[|scrapes| - 1];
      a := CachesFollowTheScrapes(init, k);
      assert last in scrapes;
      var e := EntryOf(After(init), k);
      ScrapeActsOnEachPod(After(init), last, k);
      if k in last.pods { a := SeenNow(scrapes, k, e, a); } else { MissedNow(scrapes, k, e, a); }
    }
  }

  lemma KeptIffFewOmissions(scrapes: seq<Scrape>, k: string)
    requires forall s <- scrapes :: s.pods != map[]
    ensures k in After(scrapes).usage <==> Omissions(scrapes, k) < |scrapes| && Omissions(scrapes, k) <= 3
  {
    var a := CachesFollowTheScrapes(scrapes, k);
    OmissionsAreTheGap(scrapes, k);
  }

  /** A kept pod is dropped by a scrape exactly when it is its fourth omission in a row. */
  lemma DroppedOnTheFourthMiss(scrapes: seq<Scrape>, k: string)
    requires scrapes != [] && (forall s <- scrapes :: s.pods != map[])
    requires k in After(scrapes[..|scrapes| - 1]).usage
    ensures k !in After(scrapes).usage <==> Omissions(scrapes, k) == 4
  {
    KeptIffFewOmissions(scrapes[..|scrapes| - 1], k);
    KeptIffFewOmissions(scrapes, k);
  }

  function Answered(scrapes: seq<Scrape>): seq<Scrape> {
    if scrapes == [] then []
    else
      var last := scrapes[|scrapes| - 1];
      Answered(scrapes[..|scrapes| - 1]) + if last.pods == map[] then [] else [last]
  }

  lemma AnsweredSplits(scrapes: seq<Scrape>)
    requires scrapes != []
    ensures var init, last := scrapes[..|scrapes| - 1], scrapes[|scrapes| - 1];
      After(Answered(scrapes)) == AfterScrape(After(Answered(init)), last)
  {
    var init, last := scrapes[..|scrapes| - 1], scrapes[|scrapes| - 1];
    var all := Answered(scrapes);
    if last.pods == map[] {
      assert all == Answered(init);
    } else {
      assert all == Answered(init) + [last] && all[..|all| - 1] == Answered(init);
    }
  }

  /** Unanswered scrapes leave no trace. */
  lemma {:induction false} EmptyAnswersDoNotCount(scrapes: seq<Scrape>)
    ensures After(scrapes) == After(Answered(scrapes))
    ensures forall s <- Answered(scrapes) :: s.pods != map[]
  {
    if scrapes != [] {
      var init, last := scrapes[..|scrapes| - 1], scrapes[|scrapes| - 1];
      EmptyAnswersDoNotCount(init);
      AnsweredSplits(scrapes);
    }
  }

  lemma OneMoreUsage(c: Caches, s: Scrape, seen: set<string>, k: string)
    requires seen <= s.pods.Keys && k in s.pods && k !in seen
    ensures var m := MergedUsage(c, s, seen);
      MergedUsage(c, s, seen + {k}) == m[k := Observed(if k in m then m[k] else DEFAULT, s.pods[k])]
  {
  }

  lemma OneMoreHistory(c: Caches, s: Scrape, seen: set<string>, k: string)
    requires seen <= s.pods.Keys && k in s.pods && k !in seen
    ensures var m, p := MergedHistory(c, s, seen), s.pods[k];
      MergedHistory(c, s, seen + {k}) == m[k := LastPoints(PointsOf(m, k) + [Point(s.time, p.cpu, p.mem)])]
  {
  }

  class Enrichment {
    var usage: map<string, Usage>
    var history: map<string, seq<Point>>

    ghost function State(): Caches
      reads this
    {
      Caches(usage, history)
    }

    constructor ()
      ensures State() == EMPTY
    {
      usage, history := map[], map[];
    }

    /** Drop points from the front until the history is short enough. */
    static method Bounded(all: seq<Point>) returns (points: seq<Point>)
      ensures points == LastPoints(all)
    {
      points := all;
      while |points| > MAX_HISTORY_POINTS
        invariant |points| <= |all| && points == all[|all| - |points|..]
        invariant |all| > MAX_HISTORY_POINTS ==> |points| >= MAX_HISTORY_POINTS
        invariant |all| <= MAX_HISTORY_POINTS ==> points == all
      {
        points := points[1..];
      }
    }

    /** One pod of a scrape: its new sample, and its bounded history. */
    method Observe(k: string, time: nat, sample: Sample)
      modifies this
      ensures usage == old(usage)[k := Observed(if k in old(usage) then old(usage)[k] else DEFAULT, sample)]
      ensures history
           == old(history)[k := LastPoints(PointsOf(old(history), k) + [Point(time, sample.cpu, sample.mem)])]
    {
      usage := usage[k := Observed(if k in usage then usage[k] else DEFAULT, sample)];
      var points := if k in history then history[k] else [];
      points := points + [Point(time, sample.cpu, sample.mem)];
      points := Bounded(points);
      history := history[k := points];
    }

    method Refresh(s: Scrape)
      modifies this
      ensures State() == AfterScrape(old(State()), s)
    {
      if s.pods == map[] {
        return;
      }
      ghost var before := State();
      usage := map k | k in usage :: Aged(usage[k]);
      var left := s.pods.Keys;
      assert usage == MergedUsage(before, s, {}) && history == MergedHistory(before, s, {});
      while left != {}
        invariant left <= s.pods.Keys
        invariant usage == MergedUsage(before, s, s.pods.Keys - left)
        invariant history == MergedHistory(before, s, s.pods.Keys - left)
      {
        var k :| k in left;
        OneMoreUsage(before, s, s.pods.Keys - left, k);
        OneMoreHistory(before, s, s.pods.Keys - left, k);
        assert s.pods.Keys - (left - {k}) == s.pods.Keys - left + {k};
        left := left - {k};
        Observe(k, s.time, s.pods[k]);
      }
      assert s.pods.Keys - left == s.pods.Keys;
      usage := map k | k in usage && usage[k].misses <= MAX_MISSES :: usage[k];
      history := map k | k in history && k in usage :: history[k];
    }
  }
}
