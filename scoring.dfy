/**
 * `score_tasks`: every task of a normalized batch gets a weighted sum of its four signals,
 * reduced by 15% when the task lies on a dependency cycle and scaled to 0..100; the scored
 * tasks are then ranked by score (highest first), then by due date (earliest first, a missing
 * date last), then by importance (highest first).
 */
module Scoring {
  import opened Wrappers
  import opened Calendar
  import opened Strategy
  import opened Signals
  import opened Normalize
  import opened Graph
  import Seqs

  /** The importance reported for a task without one. */
  const DefaultImportance: int := 5

  /** The fraction of the score a task on a cycle loses. */
  const CyclePenalty: real := 0.15

  /** The signal values behind a score, as the explanation line reports them (before rounding). */
  datatype Explanation = Explanation(
    urgency: real,
    importance: real,
    quickwin: real,
    dependents: nat,
    blocker: real,
    cyclePenalty: real,
    strategy: string)

  /** One entry of the ranked list. */
  datatype ScoredTask = ScoredTask(
    id: int,
    title: string,
    dueDate: Option<Date>,
    estimatedHours: Option<real>,
    importance: int,
    dependencies: seq<int>,
    dependents: nat,
    score: real,
    explanation: Explanation)

  /** Weights that can be mixed: none negative, summing to exactly 1. */
  predicate IsWeighting(w: Weights) {
    w.urgency >= 0.0 && w.importance >= 0.0 && w.quickwin >= 0.0 && w.blocker >= 0.0 && Sum(w) == 1.0
  }

  /** Whatever name is requested, the weights used are one row of the strategy table. */
  lemma ResolvedWeighting(strategy: string)
    ensures IsWeighting(Resolve(strategy).0)
    ensures Resolve(strategy).0.blocker > 0.0 && Resolve(strategy).0.urgency > 0.0
  {
    ResolveFallsBackToSmartBalance(strategy);
    match Lookup(StrategyKey(strategy))
    case Some(s) =>
    case None =>
  }

  /** `t.estimated_hours or 0`. */
  function HoursOrZero(t: NormalizedTask): real {
    t.estimatedHours.GetOr(0.0)
  }

  /** `max_hours`: the largest estimate in the batch, and never below 1. */
  function MaxHours(tasks: seq<NormalizedTask>): (m: real)
    ensures m >= 1.0
    ensures forall t :: t in tasks ==> HoursOrZero(t) <= m
    ensures m == 1.0 || exists t :: t in tasks && HoursOrZero(t) == m
  {
    if tasks == [] then 1.0
    else
      var rest := MaxHours(tasks[..|tasks| - 1]);
      var h := HoursOrZero(tasks[|tasks| - 1]);
      assert tasks == tasks[..|tasks| - 1] + [tasks[|tasks| - 1]];
      if h > rest then h else rest
  }

  /** The weighted sum of the four signals. */
  function Base(w: Weights, u: real, im: real, qw: real, bl: real): real {
    w.urgency * u + w.importance * im + w.quickwin * qw + w.blocker * bl
  }

  /** A weighted signal lies between 0 and its weight; `p` names the product. */
  lemma ScaledSignal(weight: real, signal: real) returns (p: real)
    requires weight >= 0.0 && 0.0 <= signal <= 1.0
    ensures p == weight * signal
    ensures 0.0 <= p <= weight
  {
    p := weight * signal;
    assert weight - p == weight * (1.0 - signal);
  }

  /** A weighting of signals in [0, 1] is again in [0, 1]. */
  lemma BaseInUnit(w: Weights, u: real, im: real, qw: real, bl: real)
    requires IsWeighting(w)
    requires 0.0 <= u <= 1.0 && 0.0 <= im <= 1.0 && 0.0 <= qw <= 1.0 && 0.0 <= bl <= 1.0
    ensures 0.0 <= Base(w, u, im, qw, bl) <= 1.0
  {
    var pu := ScaledSignal(w.urgency, u);
    var pi := ScaledSignal(w.importance, im);
    var pq := ScaledSignal(w.quickwin, qw);
    var pb := ScaledSignal(w.blocker, bl);
    assert Base(w, u, im, qw, bl) == pu + pi + pq + pb;
  }

  /**
   * The loop body of `score_tasks` for task `t`: its signals, its downstream count and whether it
   * lies on a cycle give the entry, whose score is `100 * base * (1 - penalty)`.
   */
  function ScoreTask(t: NormalizedTask, w: Weights, key: string, today: Date, maxHours: real,
                     downstream: nat, inCycle: bool, log1p: real -> real): (r: ScoredTask)
    requires maxHours > 0.0 ==> log1p(maxHours) != 0.0
    ensures r.id == t.id && r.title == t.title && r.dueDate == t.dueDate
    ensures r.estimatedHours == t.estimatedHours && r.dependencies == t.dependencies
    ensures r.importance == t.importance.GetOr(DefaultImportance)
    ensures r.dependents == downstream && r.explanation.strategy == key
    ensures r.explanation.cyclePenalty == (if inCycle then CyclePenalty else 0.0)
  {
    var u := Urgency(t.dueDate, today);
    var im := Importance(t.importance);
    var qw := QuickWin(t.estimatedHours, maxHours, log1p);
    var bl := BlockerScore(downstream, BlockerCap);
    var penalty := if inCycle then CyclePenalty else 0.0;
    var final := Base(w, u, im, qw, bl) * (1.0 - penalty);
    ScoredTask(t.id, t.title, t.dueDate, t.estimatedHours, t.importance.GetOr(DefaultImportance),
               t.dependencies, downstream, final * 100.0,
               Explanation(u, im, qw, downstream, bl, penalty, key))
  }

  /**
   * The score is 100 times the weighted signals for a task off every cycle and 85 times it for
   * a task on one; the weighted signals lie in [0, 1], so every score lies in [0, 100].
   */
  lemma ScoreTaskBounds(t: NormalizedTask, w: Weights, key: string, today: Date, maxHours: real,
                        downstream: nat, inCycle: bool, log1p: real -> real)
    requires maxHours > 0.0 ==> log1p(maxHours) != 0.0
    requires IsWeighting(w)
    requires t.importance.Some? ==> ImportanceMin <= t.importance.value <= ImportanceMax
    ensures var r := ScoreTask(t, w, key, today, maxHours, downstream, inCycle, log1p);
      var e := r.explanation;
      var base := Base(w, e.urgency, e.importance, e.quickwin, e.blocker);
      && 0.0 <= base <= 1.0
      && r.score == (if inCycle then 85.0 * base else 100.0 * base)
      && 0.0 <= r.score <= 100.0
  {
    var r := ScoreTask(t, w, key, today, maxHours, downstream, inCycle, log1p);
    var e := r.explanation;
    BaseInUnit(w, e.urgency, e.importance, e.quickwin, e.blocker);
  }

  /** The score is the weighted sum of the explained signals, scaled by the cycle factor and by 100. */
  lemma ScoreIsScaledBase(t: NormalizedTask, w: Weights, key: string, today: Date, maxHours: real,
                          downstream: nat, inCycle: bool, log1p: real -> real)
    requires maxHours > 0.0 ==> log1p(maxHours) != 0.0
    ensures var r := ScoreTask(t, w, key, today, maxHours, downstream, inCycle, log1p);
      var e := r.explanation;
      r.score == Base(w, e.urgency, e.importance, e.quickwin, e.blocker) * (1.0 - e.cyclePenalty) * 100.0
  {
  }

  /** Multiplying by a positive factor keeps a strict order; `plo` and `phi` name the products. */
  lemma ScaleStrict(c: real, lo: real, hi: real) returns (plo: real, phi: real)
    requires c > 0.0 && lo < hi
    ensures plo == c * lo && phi == c * hi
    ensures plo < phi
  {
    plo, phi := c * lo, c * hi;
    assert phi - plo == c * (hi - lo);
  }

  /** A larger weighted sum gives a strictly larger score, on or off a cycle. */
  lemma ScoreFollowsBase(b1: real, b2: real, penalty: real)
    requires b1 < b2 && (penalty == 0.0 || penalty == CyclePenalty)
    ensures b1 * (1.0 - penalty) * 100.0 < b2 * (1.0 - penalty) * 100.0
  {
    var f1, f2 := ScaleStrict(1.0 - penalty, b1, b2);
    assert b1 * (1.0 - penalty) == f1 && b2 * (1.0 - penalty) == f2;
    var s1, s2 := ScaleStrict(100.0, f1, f2);
    assert f1 * 100.0 == s1 && f2 * 100.0 == s2;
  }

  /** Raising the urgency signal raises the weighted sum when its weight is positive. */
  lemma BaseStrictInUrgency(w: Weights, u1: real, u2: real, im: real, qw: real, bl: real)
    requires w.urgency > 0.0 && u1 < u2
    ensures Base(w, u1, im, qw, bl) < Base(w, u2, im, qw, bl)
  {
    var p1, p2 := ScaleStrict(w.urgency, u1, u2);
    var rest := w.importance * im + w.quickwin * qw + w.blocker * bl;
    assert Base(w, u1, im, qw, bl) == p1 + rest && Base(w, u2, im, qw, bl) == p2 + rest;
  }

  /** Raising the blocker signal raises the weighted sum when its weight is positive. */
  lemma BaseStrictInBlocker(w: Weights, u: real, im: real, qw: real, bl1: real, bl2: real)
    requires w.blocker > 0.0 && bl1 < bl2
    ensures Base(w, u, im, qw, bl1) < Base(w, u, im, qw, bl2)
  {
    var p1, p2 := ScaleStrict(w.blocker, bl1, bl2);
    var rest := w.urgency * u + w.importance * im + w.quickwin * qw;
    assert Base(w, u, im, qw, bl1) == rest + p1 && Base(w, u, im, qw, bl2) == rest + p2;
  }

  /**
   * More downstream tasks (up to the saturation count) give a strictly higher score, other
   * things equal, whenever the blocker weight is positive, as it is in every strategy.
   */
  lemma MoreDependentsScoreHigher(t1: NormalizedTask, t2: NormalizedTask, w: Weights, key: string,
                                  today: Date, maxHours: real, d1: nat, d2: nat, inCycle: bool,
                                  log1p: real -> real)
    requires maxHours > 0.0 ==> log1p(maxHours) != 0.0
    requires w.blocker > 0.0
    requires t1.dueDate == t2.dueDate && t1.importance == t2.importance
    requires t1.estimatedHours == t2.estimatedHours
    requires d1 < d2 <= BlockerCap
    ensures ScoreTask(t1, w, key, today, maxHours, d1, inCycle, log1p).score
          < ScoreTask(t2, w, key, today, maxHours, d2, inCycle, log1p).score
  {
    var e1 := ScoreTask(t1, w, key, today, maxHours, d1, inCycle, log1p).explanation;
    var e2 := ScoreTask(t2, w, key, today, maxHours, d2, inCycle, log1p).explanation;
    BlockerScoreMonotone(d1, d2);
    BaseStrictInBlocker(w, e1.urgency, e1.importance, e1.quickwin, e1.blocker, e2.blocker);
    var b1 := Base(w, e1.urgency, e1.importance, e1.quickwin, e1.blocker);
    var b2 := Base(w, e2.urgency, e2.importance, e2.quickwin, e2.blocker);
    ScoreFollowsBase(b1, b2, e1.cyclePenalty);
  }

  /**
   * A higher urgency gives a strictly higher score, other things equal, whenever the urgency
   * weight is positive, as it is in every strategy.
   */
  lemma MoreUrgentScoresHigher(t1: NormalizedTask, t2: NormalizedTask, w: Weights, key: string,
                               today1: Date, today2: Date, maxHours: real, downstream: nat,
                               inCycle: bool, log1p: real -> real)
    requires maxHours > 0.0 ==> log1p(maxHours) != 0.0
    requires w.urgency > 0.0
    requires t1.importance == t2.importance && t1.estimatedHours == t2.estimatedHours
    requires Urgency(t1.dueDate, today1) > Urgency(t2.dueDate, today2)
    ensures ScoreTask(t2, w, key, today2, maxHours, downstream, inCycle, log1p).score
          < ScoreTask(t1, w, key, today1, maxHours, downstream, inCycle, log1p).score
  {
    var e1 := ScoreTask(t1, w, key, today1, maxHours, downstream, inCycle, log1p).explanation;
    var e2 := ScoreTask(t2, w, key, today2, maxHours, downstream, inCycle, log1p).explanation;
    BaseStrictInUrgency(w, e2.urgency, e1.urgency, e1.importance, e1.quickwin, e1.blocker);
    var b1 := Base(w, e1.urgency, e1.importance, e1.quickwin, e1.blocker);
    var b2 := Base(w, e2.urgency, e2.importance, e2.quickwin, e2.blocker);
    ScoreFollowsBase(b2, b1, e1.cyclePenalty);
  }

  /** Lying on a cycle costs a task exactly 15% of its score. */
  lemma CyclePenaltyCosts15Percent(t: NormalizedTask, w: Weights, key: string, today: Date,
                                   maxHours: real, downstream: nat, log1p: real -> real)
    requires maxHours > 0.0 ==> log1p(maxHours) != 0.0
    ensures ScoreTask(t, w, key, today, maxHours, downstream, true, log1p).score
         == 0.85 * ScoreTask(t, w, key, today, maxHours, downstream, false, log1p).score
  {
  }

  /** The due-date sort key: the date itself, or 9999-12-31 when there is none. */
  function DueKey(r: ScoredTask): (k: Date)
    ensures r.dueDate.Some? ==> k == r.dueDate.value
    ensures r.dueDate.None? ==> k == LastDate
  {
    r.dueDate.GetOr(LastDate)
  }

  /**
   * The importance sort key, `x["importance"] or 5`: Python's `or` replaces a falsy 0 by the
   * default, and keeps every other value.
   */
  function ImportanceKey(r: ScoredTask): (k: int)
    ensures k != 0
    ensures r.importance != 0 ==> k == r.importance
    ensures r.importance == 0 ==> k == DefaultImportance
  {
    if r.importance == 0 then DefaultImportance else r.importance
  }

  /**
   * `a` may be listed before `b`: a higher score, or an equal score and an earlier due date, or
   * both equal and an importance key at least as high.
   */
  predicate RanksBefore(a: ScoredTask, b: ScoredTask) {
    || a.score > b.score
    || (a.score == b.score && DueKey(a) < DueKey(b))
    || (a.score == b.score && DueKey(a) == DueKey(b) && ImportanceKey(a) >= ImportanceKey(b))
  }

  /**
   * With score and due date equal, an entry of importance 0 sorts as importance 5: ahead of an
   * entry of importance 3 and behind one of importance 7.
   */
  lemma ZeroImportanceSortsAsDefault(a: ScoredTask, b: ScoredTask, c: ScoredTask)
    requires a.score == b.score == c.score && DueKey(a) == DueKey(b) == DueKey(c)
    requires a.importance == 0 && b.importance == 3 && c.importance == 7
    ensures RanksBefore(a, b) && !RanksBefore(b, a)
    ensures RanksBefore(c, a) && !RanksBefore(a, c)
  {
  }

  /**
   * With equal scores, an entry without a due date sorts as 9999-12-31: behind any entry dated
   * earlier, whatever the importances.
   */
  lemma UndatedSortsAfterDated(a: ScoredTask, b: ScoredTask)
    requires a.score == b.score && a.dueDate.Some? && a.dueDate.value < LastDate && b.dueDate.None?
    ensures RanksBefore(a, b) && !RanksBefore(b, a)
  {
  }

  lemma RanksBeforeTotal(a: ScoredTask, b: ScoredTask)
    ensures RanksBefore(a, b) || RanksBefore(b, a)
  {
  }

  lemma RanksBeforeTransitive(a: ScoredTask, b: ScoredTask, c: ScoredTask)
    requires RanksBefore(a, b) && RanksBefore(b, c)
    ensures RanksBefore(a, c)
  {
  }

  /** Listed in ranking order. */
  predicate Ranked(s: seq<ScoredTask>) {
    forall i, j :: 0 <= i < j < |s| ==> RanksBefore(s[i], s[j])
  }

  /**
   * The state of an insertion step: apart from position `j`, the first `i + 1` entries are
   * ranked, and the entry at `j` ranks before every entry after it.
   */
  predicate RankedExcept(s: seq<ScoredTask>, i: int, j: int) {
    && 0 <= j <= i < |s|
    && (forall k, l :: 0 <= k < l <= i && k != j && l != j ==> RanksBefore(s[k], s[l]))
    && (forall l :: j < l <= i ==> RanksBefore(s[j], s[l]))
  }

  /** Swapping an entry with an out-of-order left neighbour moves the gap one step left. */
  lemma SwapLeft(s: seq<ScoredTask>, i: int, j: int)
    requires RankedExcept(s, i, j) && j > 0 && !RanksBefore(s[j - 1], s[j])
    ensures RankedExcept(s[j - 1 := s[j]][j := s[j - 1]], i, j - 1)
  {
    var t := s[j - 1 := s[j]][j := s[j - 1]];
    RanksBeforeTotal(s[j - 1], s[j]);
    forall l | j - 1 < l <= i ensures RanksBefore(t[j - 1], t[l]) {
      if l > j {
        RanksBeforeTransitive(s[j], s[j - 1], s[l]);
      }
    }
  }

  /** An entry that ranks after its left neighbour closes the gap: the prefix is ranked. */
  lemma GapClosed(s: seq<ScoredTask>, i: int, j: int)
    requires RankedExcept(s, i, j) && (j == 0 || RanksBefore(s[j - 1], s[j]))
    ensures Ranked(s[..i + 1])
  {
    forall k | 0 <= k < j ensures RanksBefore(s[k], s[j]) {
      if k < j - 1 {
        RanksBeforeTransitive(s[k], s[j - 1], s[j]);
      }
    }
  }

  /**
   * One insertion step of the in-place sort: the entry at `i` moves left past every entry that
   * must follow it, so the first `i + 1` entries end up ranked.
   */
  method InsertInto(a: array<ScoredTask>, i: int)
    requires 0 <= i < a.Length && Ranked(a[..i])
    modifies a
    ensures Ranked(a[..i + 1])
    ensures multiset(a[..]) == multiset(old(a[..]))
    ensures a[i + 1..] == old(a[i + 1..])
  {
    var j := i;
    while j > 0 && !RanksBefore(a[j - 1], a[j])
      invariant RankedExcept(a[..], i, j)
      invariant multiset(a[..]) == multiset(old(a[..]))
      invariant forall k :: i < k < a.Length ==> a[k] == old(a[k])
    {
      SwapLeft(a[..], i, j);
      SwapAdjacent(a, j);
      j := j - 1;
    }
    GapClosed(a[..], i, j);
  }

  /** Exchanging two neighbours keeps the multiset of a sequence. */
  lemma SwapPermutes(s: seq<ScoredTask>, x: nat)
    requires x + 1 < |s|
    ensures multiset(s[x := s[x + 1]][x + 1 := s[x]]) == multiset(s)
  {
    var pre, post := s[..x], s[x + 2..];
    assert s == pre + [s[x], s[x + 1]] + post;
    assert s[x := s[x + 1]][x + 1 := s[x]] == pre + [s[x + 1], s[x]] + post;
    assert multiset([s[x], s[x + 1]]) == multiset([s[x + 1], s[x]]);
  }

  /** Exchange the entry at `j` with its left neighbour. */
  method SwapAdjacent(a: array<ScoredTask>, j: int)
    requires 0 < j < a.Length
    modifies a
    ensures a[..] == old(a[..])[j - 1 := old(a[j])][j := old(a[j - 1])]
    ensures multiset(a[..]) == multiset(old(a[..]))
  {
    SwapPermutes(a[..], j - 1);
    a[j - 1], a[j] := a[j], a[j - 1];
  }

  /** `scored.sort(key=_sort_key)`: rank the entries in place. */
  method SortByRank(a: array<ScoredTask>)
    modifies a
    ensures Ranked(a[..])
    ensures multiset(a[..]) == multiset(old(a[..]))
  {
    var i := 0;
    while i < a.Length
      invariant 0 <= i <= a.Length
      invariant Ranked(a[..i])
      invariant multiset(a[..]) == multiset(old(a[..]))
    {
      InsertInto(a, i);
      i := i + 1;
    }
    assert a[..a.Length] == a[..];
  }

  /** `log1p` is positive from 1 on, so the quick-win ratio never divides by zero. */
  ghost predicate PositiveFromOne(log1p: real -> real) {
    forall x: real :: x >= 1.0 ==> log1p(x) > 0.0
  }

  /**
   * The entry `score_tasks` builds for task `t` of the batch: its downstream count is taken over
   * the reverse adjacency of the batch and its penalty from the reported cycles.
   */
  ghost function Entry(tasks: seq<NormalizedTask>, t: NormalizedTask, strategy: string, today: Date,
                       log1p: real -> real, cycles: seq<seq<int>>): ScoredTask
    requires PositiveFromOne(log1p)
  {
    ScoreTask(t, Resolve(strategy).0, StrategyKey(strategy), today, MaxHours(tasks),
              |Downstream(Reverse(tasks), t.id)|, InCycle(cycles, t.id), log1p)
  }

  /** The entries of the first `n` tasks of the batch, in input order, before ranking. */
  ghost function Entries(tasks: seq<NormalizedTask>, n: nat, strategy: string, today: Date,
                         log1p: real -> real, cycles: seq<seq<int>>): (r: seq<ScoredTask>)
    requires n <= |tasks| && PositiveFromOne(log1p)
  {
    Seqs.MapUpTo((_, t) => Entry(tasks, t, strategy, today, log1p, cycles), tasks, n)
  }

  /** The entry of a task, from its downstream count and its cycle membership as computed. */
  lemma EntryFromParts(tasks: seq<NormalizedTask>, t: NormalizedTask, strategy: string, today: Date,
                       log1p: real -> real, cycles: seq<seq<int>>, downstream: nat, inCycle: bool)
    requires PositiveFromOne(log1p)
    requires downstream == |Downstream(Reverse(tasks), t.id)| && (inCycle <==> InCycle(cycles, t.id))
    ensures ScoreTask(t, Resolve(strategy).0, StrategyKey(strategy), today, MaxHours(tasks), downstream, inCycle, log1p)
         == Entry(tasks, t, strategy, today, log1p, cycles)
  {
  }

  /**
   * The scoring loop of `score_tasks`: one entry per task, in input order, from the resolved
   * weights, the batch's maximum estimate, its reverse adjacency and the ids on cycles.
   */
  method ScoreEach(tasks: seq<NormalizedTask>, ghost strategy: string, today: Date, log1p: real -> real,
                   ghost cycles: seq<seq<int>>, weights: Weights, key: string, maxHours: real,
                   reverse: map<int, seq<int>>, cycleSet: set<int>)
    returns (scored: seq<ScoredTask>)
    requires PositiveFromOne(log1p)
    requires weights == Resolve(strategy).0 && key == StrategyKey(strategy)
    requires maxHours == MaxHours(tasks) && reverse == Reverse(tasks)
    requires forall x :: x in cycleSet <==> InCycle(cycles, x)
    ensures scored == Entries(tasks, |tasks|, strategy, today, log1p, cycles)
  {
    scored := [];
    var i := 0;
    while i < |tasks|
      invariant 0 <= i <= |tasks| && |scored| == i
      invariant scored == Entries(tasks, i, strategy, today, log1p, cycles)
    {
      var t := tasks[i];
      var downstream := DownstreamBlockCount(t.id, reverse);
      var entry := ScoreTask(t, weights, key, today, maxHours, downstream, t.id in cycleSet, log1p);
      EntryFromParts(tasks, t, strategy, today, log1p, cycles, downstream, t.id in cycleSet);
      scored := scored + [entry];
      i := i + 1;
    }
  }

  /**
   * `score_tasks`: resolve the strategy, build the graph, find the cycles, score every task and
   * rank the entries. The result is a ranked permutation of the batch's entries; the cycles are
   * closed walks of dependency edges (none for an acyclic batch); the strategy reported is the
   * normalised request, known or not.
   */
  method ScoreTasks(tasks: seq<NormalizedTask>, strategy: string, today: Date, log1p: real -> real)
    returns (ranked: seq<ScoredTask>, cycles: seq<seq<int>>, strategyUsed: string)
    requires PositiveFromOne(log1p)
    ensures strategyUsed == StrategyKey(strategy)
    ensures forall c :: c in cycles ==> IsClosedWalk(ById(tasks), c)
    ensures Acyclic(ById(tasks)) ==> cycles == []
    ensures |ranked| == |tasks|
    ensures multiset(ranked) == multiset(Entries(tasks, |tasks|, strategy, today, log1p, cycles))
    ensures Ranked(ranked)
  {
    var resolved := Resolve(strategy);
    var weights, key := resolved.0, resolved.1;
    ResolveFallsBackToSmartBalance(strategy);

    var byId, forward, reverse := BuildGraph(tasks);
    ReverseMapIsReverse(tasks, reverse);
    cycles := DetectCycles(byId, Ids(tasks));
    var cycleSet := CycleNodes(cycles);
    var maxHours := MaxHours(tasks);

    var scored := ScoreEach(tasks, strategy, today, log1p, cycles, weights, key, maxHours, reverse, cycleSet);

    ranked := SortedCopy(scored);
    strategyUsed := key;
  }

  /** The list `scored` sorted in place: a ranked permutation of it. */
  method SortedCopy(scored: seq<ScoredTask>) returns (ranked: seq<ScoredTask>)
    ensures |ranked| == |scored|
    ensures multiset(ranked) == multiset(scored)
    ensures Ranked(ranked)
  {
    var a := new ScoredTask[|scored|](k requires 0 <= k < |scored| => scored[k]);
    assert a[..] == scored;
    SortByRank(a);
    ranked := a[..];
    assert |ranked| == |multiset(ranked)| == |multiset(scored)| == |scored|;
  }

  /** Entry `k` of the list is the entry of task `k`. */
  lemma EntriesAt(tasks: seq<NormalizedTask>, n: nat, strategy: string, today: Date,
                  log1p: real -> real, cycles: seq<seq<int>>, k: nat)
    requires k < n <= |tasks| && PositiveFromOne(log1p)
    ensures |Entries(tasks, n, strategy, today, log1p, cycles)| == n
    ensures Entries(tasks, n, strategy, today, log1p, cycles)[k] == Entry(tasks, tasks[k], strategy, today, log1p, cycles)
  {
    Seqs.MapUpToAt((_, t) => Entry(tasks, t, strategy, today, log1p, cycles), tasks, n, k);
  }

  /**
   * With importances in 1..10, as `normalize_tasks` produces them, every entry scores between 0
   * and 100.
   */
  lemma EntriesScoreInRange(tasks: seq<NormalizedTask>, strategy: string, today: Date,
                            log1p: real -> real, cycles: seq<seq<int>>)
    requires PositiveFromOne(log1p)
    requires forall t :: t in tasks && t.importance.Some? ==> ImportanceMin <= t.importance.value <= ImportanceMax
    ensures forall k :: 0 <= k < |tasks| ==> 0.0 <= Entries(tasks, |tasks|, strategy, today, log1p, cycles)[k].score <= 100.0
  {
    forall k | 0 <= k < |tasks|
      ensures 0.0 <= Entries(tasks, |tasks|, strategy, today, log1p, cycles)[k].score <= 100.0
    {
      EntriesAt(tasks, |tasks|, strategy, today, log1p, cycles, k);
      EntryScoreInRange(tasks, tasks[k], strategy, today, log1p, cycles);
    }
  }

  lemma EntryScoreInRange(tasks: seq<NormalizedTask>, t: NormalizedTask, strategy: string,
                          today: Date, log1p: real -> real, cycles: seq<seq<int>>)
    requires PositiveFromOne(log1p)
    requires t.importance.Some? ==> ImportanceMin <= t.importance.value <= ImportanceMax
    ensures 0.0 <= Entry(tasks, t, strategy, today, log1p, cycles).score <= 100.0
  {
    ResolvedWeighting(strategy);
    ScoreTaskBounds(t, Resolve(strategy).0, StrategyKey(strategy), today, MaxHours(tasks),
                    |Downstream(Reverse(tasks), t.id)|, InCycle(cycles, t.id), log1p);
  }

  /**
   * The holiday scenario: due on 3 October 2025 seen from 1 October (the 2nd is a holiday)
   * outscores due on 7 November 2025 seen from 5 November, other things equal, under any strategy.
   */
  lemma HolidayTaskOutscores(t1: NormalizedTask, t2: NormalizedTask, strategy: string, maxHours: real,
                             downstream: nat, inCycle: bool, log1p: real -> real)
    requires maxHours > 0.0 ==> log1p(maxHours) != 0.0
    requires t1.dueDate == Some(Ordinal(2025, 10, 3)) && t2.dueDate == Some(Ordinal(2025, 11, 7))
    requires t1.importance == t2.importance && t1.estimatedHours == t2.estimatedHours
    ensures var w := Resolve(strategy).0;
      var key := StrategyKey(strategy);
      ScoreTask(t2, w, key, Ordinal(2025, 11, 5), maxHours, downstream, inCycle, log1p).score
        < ScoreTask(t1, w, key, Ordinal(2025, 10, 1), maxHours, downstream, inCycle, log1p).score
  {
    HolidayRaisesUrgency();
    ResolvedWeighting(strategy);
    MoreUrgentScoresHigher(t1, t2, Resolve(strategy).0, StrategyKey(strategy), Ordinal(2025, 10, 1),
                           Ordinal(2025, 11, 5), maxHours, downstream, inCycle, log1p);
  }

  /**
   * The bottleneck scenario: a task that two others depend on outscores a task nothing depends
   * on, other things equal, under any strategy.
   */
  lemma BottleneckOutscores(t1: NormalizedTask, t2: NormalizedTask, strategy: string, today: Date,
                            maxHours: real, inCycle: bool, log1p: real -> real)
    requires maxHours > 0.0 ==> log1p(maxHours) != 0.0
    requires t1.dueDate == t2.dueDate && t1.importance == t2.importance
    requires t1.estimatedHours == t2.estimatedHours
    ensures var w := Resolve(strategy).0;
      var key := StrategyKey(strategy);
      ScoreTask(t2, w, key, today, maxHours, 0, inCycle, log1p).score
        < ScoreTask(t1, w, key, today, maxHours, 2, inCycle, log1p).score
  {
    ResolvedWeighting(strategy);
    MoreDependentsScoreHigher(t2, t1, Resolve(strategy).0, StrategyKey(strategy), today, maxHours,
                              0, 2, inCycle, log1p);
  }

  /**
   * An overdue task and a task due today, otherwise alike, get the same score: both urgencies are
   * at the cap of 1. The overdue one is still listed first, by the due-date tie-break alone.
   */
  lemma OverduePairTiesOnScore(a: NormalizedTask, b: NormalizedTask, w: Weights, key: string,
                               today: Date, maxHours: real, downstream: nat, inCycle: bool,
                               log1p: real -> real)
    requires maxHours > 0.0 ==> log1p(maxHours) != 0.0
    requires a.dueDate == Some(today - 1) && b.dueDate == Some(today)
    requires a.importance == b.importance && a.estimatedHours == b.estimatedHours
    ensures var ra := ScoreTask(a, w, key, today, maxHours, downstream, inCycle, log1p);
      var rb := ScoreTask(b, w, key, today, maxHours, downstream, inCycle, log1p);
      && ra.explanation.urgency == rb.explanation.urgency == 1.0
      && ra.score == rb.score
      && RanksBefore(ra, rb) && !RanksBefore(rb, ra)
  {
  }

  /**
   * Under smart_balance, a task of importance 2 that five tasks depend on scores below a task of
   * importance 8 that nothing depends on, other things equal: the blocker signal saturates at 8
   * dependents and carries a weight of 0.10, too little to make up 0.35 x 6/9 of importance.
   */
  lemma LowImportanceBlockerStillLoses(a: NormalizedTask, b: NormalizedTask, today: Date,
                                       maxHours: real, inCycle: bool, log1p: real -> real)
    requires maxHours > 0.0 ==> log1p(maxHours) != 0.0
    requires a.importance == Some(2) && b.importance == Some(8)
    requires a.dueDate == b.dueDate && a.estimatedHours == b.estimatedHours
    ensures var w := Table(SmartBalance);
      ScoreTask(a, w, "smart_balance", today, maxHours, 5, inCycle, log1p).score
        < ScoreTask(b, w, "smart_balance", today, maxHours, 0, inCycle, log1p).score
  {
    var w := Table(SmartBalance);
    var ra := ScoreTask(a, w, "smart_balance", today, maxHours, 5, inCycle, log1p);
    var rb := ScoreTask(b, w, "smart_balance", today, maxHours, 0, inCycle, log1p);
    var ea, eb := ra.explanation, rb.explanation;
    assert ea.urgency == eb.urgency && ea.quickwin == eb.quickwin;
    assert ea.importance == 1.0 / 9.0 && eb.importance == 7.0 / 9.0;
    assert ea.blocker == 5.0 / 8.0 && eb.blocker == 0.0;
    var ba := Base(w, ea.urgency, ea.importance, ea.quickwin, ea.blocker);
    var bb := Base(w, eb.urgency, eb.importance, eb.quickwin, eb.blocker);
    SmartBalanceBlockerGap(ea.urgency, ea.quickwin);
    ScoreIsScaledBase(a, w, "smart_balance", today, maxHours, 5, inCycle, log1p);
    ScoreIsScaledBase(b, w, "smart_balance", today, maxHours, 0, inCycle, log1p);
    ScoreFollowsBase(ba, bb, ea.cyclePenalty);
  }

  /** Under smart_balance, importance 2 with five dependents weighs less than importance 8 with none. */
  lemma SmartBalanceBlockerGap(u: real, qw: real)
    ensures Base(Table(SmartBalance), u, 1.0 / 9.0, qw, 5.0 / 8.0)
          < Base(Table(SmartBalance), u, 7.0 / 9.0, qw, 0.0)
  {
    var w := Table(SmartBalance);
    assert w.importance == 0.35 && w.blocker == 0.10;
  }
}
