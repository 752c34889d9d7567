/**
 * The ARDA random-injection feature selector (Algorithms 1 and 3 of the
 * ARDA paper): real features are ranked together with injected random
 * features, a feature is kept when it beats every random feature often
 * enough, and a sweep over ascending thresholds keeps the last selection
 * whose accuracy did not drop.
 *
 * Importance scores, their argsort, the train/test split and the forest's
 * accuracy are inputs: each ranking round and each sweep step is handed
 * its outcome instead of drawing it.
 */
module Arda {

  datatype Result<T> = Success(value: T) | Failure(error: string)

  /**
   * One ranking round: the importance score of every column of the widened
   * matrix, and `scores.argsort()[::-1]`, the column indices by descending
   * score (ties in whatever order the sort left them).
   */
  datatype Ranking = Ranking(scores: seq<real>, order: seq<nat>)

  /** `rk.order` lists `width` distinct column indices of a `width`-column matrix. */
  predicate RankedBy(rk: Ranking, width: nat)
  {
    && |rk.scores| == width
    && |rk.order| == width
    && (forall p :: 0 <= p < width ==> rk.order[p] < width)
    && (forall p, q :: 0 <= p < q < width ==> rk.order[p] != rk.order[q])
  }

  /** What the argsort adds: every column is listed, by descending score. */
  ghost predicate SortedByScore(rk: Ranking)
    requires RankedBy(rk, |rk.scores|)
  {
    && (forall c :: 0 <= c < |rk.scores| ==> c in rk.order)
    && (forall p, q :: 0 <= p < q < |rk.order| ==> rk.scores[rk.order[p]] >= rk.scores[rk.order[q]])
  }

  /** `math.ceil(x)` */
  function Ceil(x: real): (n: int)
    ensures x <= n as real < x + 1.0
  {
    var f := x.Floor;
    if f as real == x then f else f + 1
  }

  /**
   * Number of random columns `gen_features` appends to a matrix with `d`
   * columns: `range(math.ceil(eta * d))`, which is empty when the ceiling
   * is not positive.
   */
  function GeneratedCount(eta: real, d: nat): (n: nat)
    ensures eta * d as real <= 0.0 ==> n == 0
    ensures eta * d as real > 0.0 ==> eta * d as real <= n as real < eta * d as real + 1.0
  {
    if eta * d as real <= 0.0 then 0 else Ceil(eta * d as real)
  }

  /** The mask of `select_features`: the generated columns are those from index `d` on. */
  function InjectionMask(width: nat, d: nat): (mask: seq<bool>)
  {
    seq(width, i => i >= d)
  }

  /** A mask of `width` columns marks every column from `d` on and no other. */
  lemma {:induction false} MaskCounts(width: nat, d: nat)
    ensures multiset(InjectionMask(width, d))[true] == if width >= d then width - d else 0
    ensures multiset(InjectionMask(width, d))[false] == if width >= d then d else width
  {
    if width == 0 {
      assert InjectionMask(0, d) == [];
    } else {
      MaskCounts(width - 1, d);
      assert InjectionMask(width, d) == InjectionMask(width - 1, d) + [width - 1 >= d];
    }
  }

  /**
   * On the matrix `gen_features` builds, the mask marks exactly the generated
   * columns: as many as were appended, and the `d` real columns stay unmarked.
   */
  lemma InjectionMaskMarksGenerated(eta: real, d: nat)
    ensures var mask := InjectionMask(d + GeneratedCount(eta, d), d);
      multiset(mask)[true] == GeneratedCount(eta, d) && multiset(mask)[false] == d
  {
    MaskCounts(d + GeneratedCount(eta, d), d);
  }

  /**
   * Position in `order` of the first generated column, or `|order|` when
   * every ranked column is real.
   */
  function FirstGenerated(order: seq<nat>, mask: seq<bool>): (n: nat)
    requires forall p :: 0 <= p < |order| ==> order[p] < |mask|
    ensures n <= |order|
    ensures forall p :: 0 <= p < n ==> !mask[order[p]]
    ensures n < |order| ==> mask[order[n]]
  {
    if order == [] || mask[order[0]] then 0
    else 1 + FirstGenerated(order[1..], mask)
  }

  /** Column `c` is ranked ahead of every generated column in round `rk`. */
  predicate Ahead(rk: Ranking, mask: seq<bool>, c: nat)
    requires RankedBy(rk, |mask|)
  {
    c in rk.order[..FirstGenerated(rk.order, mask)]
  }

  /**
   * `_bin_count_ranking`: walk the columns by descending importance and add
   * one to the bin of every real column met before the first generated one.
   */
  method BinCountRanking(rk: Ranking, mask: seq<bool>, binSize: nat) returns (bins: seq<nat>)
    requires RankedBy(rk, |mask|)
    requires forall c :: 0 <= c < |mask| && !mask[c] ==> c < binSize
    ensures |bins| == binSize
    ensures forall c :: 0 <= c < binSize ==> bins[c] == if Ahead(rk, mask, c) then 1 else 0
  {
    var n := FirstGenerated(rk.order, mask);
    var counts := new nat[binSize](_ => 0);
    var p := 0;
    while p < |rk.order|
      invariant p <= n
      invariant forall c :: 0 <= c < binSize ==> counts[c] == if c in rk.order[..p] then 1 else 0
    {
      var c := rk.order[p];
      if mask[c] {
        break;
      }
      assert c !in rk.order[..p];
      assert forall x :: x in rk.order[..p + 1] <==> x in rk.order[..p] || x == c;
      counts[c] := counts[c] + 1;
      p := p + 1;
    }
    assert p == n;
    bins := counts[..];
  }

  /**
   * What a bin means in terms of the scores: a real column whose score beats
   * every generated column's score is counted, and a counted column is real
   * and scores at least as high as every generated column. In particular,
   * when the top-ranked column is generated nothing is counted.
   */
  lemma AheadMeansOutscoring(rk: Ranking, mask: seq<bool>, c: nat)
    requires RankedBy(rk, |mask|) && SortedByScore(rk) && c < |mask|
    ensures !mask[c] && (forall g :: 0 <= g < |mask| && mask[g] ==> rk.scores[c] > rk.scores[g])
      ==> Ahead(rk, mask, c)
    ensures Ahead(rk, mask, c) ==>
      !mask[c] && forall g :: 0 <= g < |mask| && mask[g] ==> rk.scores[c] >= rk.scores[g]
    ensures |mask| > 0 && mask[rk.order[0]] ==> !Ahead(rk, mask, c)
  {
    var order := rk.order;
    var n := FirstGenerated(order, mask);
    assert c in order;
    var p :| 0 <= p < |order| && order[p] == c;
    if Ahead(rk, mask, c) {
      var p' :| 0 <= p' < n && order[..n][p'] == c;
      assert p' == p;
      forall g | 0 <= g < |mask| && mask[g]
        ensures rk.scores[c] >= rk.scores[g]
      {
        assert g in order;
        var q :| 0 <= q < |order| && order[q] == g;
        assert q >= n;
      }
    } else if !mask[c] {
      assert p >= n;
      assert n != p;
      assert rk.scores[order[n]] >= rk.scores[c];
    }
  }

  /** Number of rounds in which column `c` was ranked ahead of every generated column. */
  function TimesAhead(rounds: seq<Ranking>, mask: seq<bool>, c: nat): nat
    requires forall r :: 0 <= r < |rounds| ==> RankedBy(rounds[r], |mask|)
  {
    if rounds == [] then 0
    else
      var last := |rounds| - 1;
      TimesAhead(rounds[..last], mask, c) + (if Ahead(rounds[last], mask, c) then 1 else 0)
  }

  /**
   * After `k` rounds every count lies in `[0, k]`, and a generated column
   * (index `d` or more under the injection mask) is never counted.
   */
  lemma {:induction false} TimesAheadBounded(rounds: seq<Ranking>, width: nat, d: nat, c: nat)
    requires forall r :: 0 <= r < |rounds| ==> RankedBy(rounds[r], width)
    ensures TimesAhead(rounds, InjectionMask(width, d), c) <= |rounds|
    ensures c >= d ==> TimesAhead(rounds, InjectionMask(width, d), c) == 0
  {
    var mask := InjectionMask(width, d);
    if rounds != [] {
      var last := |rounds| - 1;
      TimesAheadBounded(rounds[..last], width, d, c);
    }
  }

  /**
   * `np.arange(d)[counts / k > tau]`: the indices, ascending, whose count
   * divided by `k` exceeds `tau`. With `k == 0` every quotient is NaN and
   * nothing is selected.
   */
  function FrequentIndices(counts: seq<nat>, k: nat, tau: real): (r: seq<nat>)
    ensures forall x: nat :: x in r <==> x < |counts| && Frequent(counts[x], k, tau)
    ensures forall p, q :: 0 <= p < q < |r| ==> r[p] < r[q]
  {
    if counts == [] then []
    else
      var n := |counts| - 1;
      var rest := FrequentIndices(counts[..n], k, tau);
      assert forall x: nat :: x < n ==> counts[..n][x] == counts[x];
      assert forall x: nat :: x in rest ==> x < n;
      if Frequent(counts[n], k, tau) then
        var r := rest + [n];
        assert forall x: nat :: x in r <==> x in rest || x == n;
        assert forall p :: 0 <= p < |rest| ==> r[p] == rest[p] && rest[p] in rest;
        r
      else rest
  }

  /** `count / k > tau`, false when `k == 0` (a NaN quotient). */
  predicate Frequent(count: nat, k: nat, tau: real)
  {
    k > 0 && count as real / k as real > tau
  }

  /**
   * The outcome of `select_features` on a matrix with `d` columns, given the
   * `k` ranking rounds of the widened matrix: the real columns, ascending,
   * ranked ahead of every generated column in more than a `tau` fraction of
   * the rounds.
   */
  function Selection(d: nat, eta: real, rounds: seq<Ranking>, tau: real): (r: seq<nat>)
    requires forall i :: 0 <= i < |rounds| ==> RankedBy(rounds[i], d + GeneratedCount(eta, d))
    ensures forall c: nat :: c in r <==>
      c < d && Frequent(TimesAhead(rounds, InjectionMask(d + GeneratedCount(eta, d), d), c), |rounds|, tau)
    ensures forall p, q :: 0 <= p < q < |r| ==> r[p] < r[q]
  {
    FrequentIndices(Tally(rounds, InjectionMask(d + GeneratedCount(eta, d), d), d), |rounds|, tau)
  }

  /** The count of every real column after all the rounds. */
  function Tally(rounds: seq<Ranking>, mask: seq<bool>, d: nat): seq<nat>
    requires forall r :: 0 <= r < |rounds| ==> RankedBy(rounds[r], |mask|)
  {
    seq(d, c requires 0 <= c => TimesAhead(rounds, mask, c))
  }

  /**
   * The counting loop of `select_features`: add up the bins of every round
   * into one count per real column.
   */
  method CountRounds(rounds: seq<Ranking>, mask: seq<bool>, d: nat) returns (counts: seq<nat>)
    requires forall r :: 0 <= r < |rounds| ==> RankedBy(rounds[r], |mask|)
    requires forall c :: 0 <= c < |mask| && !mask[c] ==> c < d
    ensures counts == Tally(rounds, mask, d)
  {
    var tally := new nat[d](_ => 0);
    for r := 0 to |rounds|
      invariant forall c :: 0 <= c < d ==> tally[c] == TimesAhead(rounds[..r], mask, c)
    {
      var bins := BinCountRanking(rounds[r], mask, d);
      assert rounds[..r + 1][..r] == rounds[..r];
      forall c | 0 <= c < d {
        tally[c] := tally[c] + bins[c];
      }
    }
    assert rounds[..|rounds|] == rounds;
    counts := tally[..];
  }

  /**
   * `select_features`: widen the matrix with the generated columns, count
   * over the rounds how often each real column beats them all, and keep the
   * columns whose frequency exceeds `tau`. When no column is generated,
   * `gen_features` yields a one-dimensional empty array and the
   * concatenation with the two-dimensional matrix raises a ValueError.
   */
  method SelectFeatures(d: nat, eta: real, rounds: seq<Ranking>, tau: real) returns (r: Result<seq<nat>>)
    requires forall i :: 0 <= i < |rounds| ==> RankedBy(rounds[i], d + GeneratedCount(eta, d))
    ensures GeneratedCount(eta, d) == 0 ==> r.Failure?
    ensures GeneratedCount(eta, d) > 0 ==> r == Success(Selection(d, eta, rounds, tau))
  {
    if GeneratedCount(eta, d) == 0 {
      return Failure("ValueError: all the input arrays must have same number of dimensions");
    }
    var width := d + GeneratedCount(eta, d);
    var mask := InjectionMask(width, d);
    var counts := CountRounds(rounds, mask, d);
    var selected := FrequentIndices(counts, |rounds|, tau);
    return Success(selected);
  }

  predicate Ascending(s: seq<real>)
  {
    forall i, j :: 0 <= i < j < |s| ==> s[i] <= s[j]
  }

  /** Insertion of `x` in front of the first element of `s` not below it. */
  function Insert(x: real, s: seq<real>): seq<real>
  {
    if s == [] || x <= s[0] then [x] + s
    else [s[0]] + Insert(x, s[1..])
  }

  /** Inserting into an ascending list keeps it ascending. */
  lemma {:induction false} InsertKeepsAscending(x: real, s: seq<real>)
    requires Ascending(s)
    ensures Ascending(Insert(x, s))
    ensures Insert(x, s)[0] == x || (s != [] && Insert(x, s)[0] == s[0])
  {
    var r := Insert(x, s);
    if s == [] || x <= s[0] {
      forall i, j | 0 <= i < j < |r|
        ensures r[i] <= r[j]
      {
        if i > 0 {
          assert r[i] == s[i - 1] && r[j] == s[j - 1];
        }
      }
    } else {
      var rest := Insert(x, s[1..]);
      InsertKeepsAscending(x, s[1..]);
      assert s[0] <= rest[0];
      forall i, j | 0 <= i < j < |r|
        ensures r[i] <= r[j]
      {
        assert r[j] == rest[j - 1];
        if i > 0 {
          assert r[i] == rest[i - 1];
        } else if j > 1 {
          assert rest[0] <= rest[j - 1];
        }
      }
    }
  }

  /** Inserting adds exactly `x`. */
  lemma {:induction false} InsertAddsOne(x: real, s: seq<real>)
    ensures multiset(Insert(x, s)) == multiset(s) + multiset{x}
  {
    if s != [] && x > s[0] {
      InsertAddsOne(x, s[1..]);
      assert s == [s[0]] + s[1..];
    }
  }

  /** `sorted(T)`: the thresholds in ascending order. */
  function SortedThresholds(t: seq<real>): (r: seq<real>)
    ensures Ascending(r)
    ensures multiset(r) == multiset(t)
  {
    if t == [] then []
    else
      var rest := SortedThresholds(t[1..]);
      InsertKeepsAscending(t[0], rest);
      InsertAddsOne(t[0], rest);
      assert t == [t[0]] + t[1..];
      Insert(t[0], rest)
  }

  /**
   * What each step of the threshold sweep is given, indexed by the step's
   * position in the sorted thresholds:
   * - rounds(j): the `k` ranking rounds `select_features` sees on that
   *   step's training split;
   * - trainRows(j): the number of rows of that step's training split;
   * - accuracy(j, cols): the test accuracy of the forest fitted on those
   *   columns at that step.
   */
  datatype Trials = Trials(
    rounds: nat -> seq<Ranking>,
    trainRows: nat -> nat,
    accuracy: (nat, seq<nat>) -> real)

  /** A threshold sweep of a `d`-column matrix over the thresholds `T`, in the given order. */
  datatype Sweep = Sweep(d: nat, eta: real, k: nat, thresholds: seq<real>, trials: Trials)

  /** Every step's rounds are `k` genuine rankings of the widened matrix. */
  predicate WellFormed(s: Sweep)
  {
    forall j :: 0 <= j < |s.thresholds| ==>
      |s.trials.rounds(j)| == s.k &&
      forall i :: 0 <= i < s.k ==> RankedBy(s.trials.rounds(j)[i], s.d + GeneratedCount(s.eta, s.d))
  }

  /** What one step of the sweep comes to. */
  datatype Step = Step(selection: seq<nat>, trainRows: nat, accuracy: real)

  /** The steps of a sweep, one per sorted threshold. */
  function Steps(s: Sweep): (steps: seq<Step>)
    requires WellFormed(s)
    ensures |steps| == |s.thresholds|
  {
    var ts := SortedThresholds(s.thresholds);
    assert |ts| == |multiset(ts)| == |s.thresholds|;
    seq(|ts|, j requires 0 <= j < |ts| =>
      var sel := Selection(s.d, s.eta, s.trials.rounds(j), ts[j]);
      Step(sel, s.trials.trainRows(j), s.trials.accuracy(j, sel)))
  }

  /** Step `j` selects by the `j`-th smallest threshold; its selection is ascending real columns. */
  lemma StepAt(s: Sweep, j: nat)
    requires WellFormed(s) && j < |s.thresholds|
    ensures var ts := SortedThresholds(s.thresholds);
      var step := Steps(s)[j];
      && j < |ts|
      && step.selection == Selection(s.d, s.eta, s.trials.rounds(j), ts[j])
      && step.accuracy == s.trials.accuracy(j, step.selection)
      && step.trainRows == s.trials.trainRows(j)
      && (forall p, q :: 0 <= p < q < |step.selection| ==> step.selection[p] < step.selection[q])
      && (forall c :: c in step.selection ==> c < s.d)
  {
    var ts := SortedThresholds(s.thresholds);
    assert |ts| == |multiset(ts)| == |s.thresholds|;
  }

  /** The accuracy step `j` must reach: 0 at first, then the previous step's. */
  function Bar(steps: seq<Step>, j: nat): real
    requires j <= |steps|
  {
    if j == 0 then 0.0 else steps[j - 1].accuracy
  }

  /** Step `j` keeps the sweep going: it selected something, had training rows, and did not lose accuracy. */
  predicate Accepts(steps: seq<Step>, j: nat)
    requires j < |steps|
  {
    steps[j].selection != [] && steps[j].trainRows > 0 && steps[j].accuracy >= Bar(steps, j)
  }

  /** The number of leading steps that are accepted. */
  function AcceptedSteps(steps: seq<Step>): (m: nat)
    ensures m <= |steps|
    ensures forall j :: 0 <= j < m ==> Accepts(steps, j)
    ensures m < |steps| ==> !Accepts(steps, m)
  {
    AcceptedFrom(steps, 0)
  }

  function AcceptedFrom(steps: seq<Step>, from: nat): (m: nat)
    requires from <= |steps|
    requires forall j :: 0 <= j < from ==> Accepts(steps, j)
    ensures from <= m <= |steps|
    ensures forall j :: 0 <= j < m ==> Accepts(steps, j)
    ensures m < |steps| ==> !Accepts(steps, m)
    decreases |steps| - from
  {
    if from == |steps| || !Accepts(steps, from) then from else AcceptedFrom(steps, from + 1)
  }

  /** The result of a sweep: the selection of the last accepted step, or nothing. */
  function SweepResult(steps: seq<Step>): seq<nat>
  {
    var m := AcceptedSteps(steps);
    if m == 0 then [] else steps[m - 1].selection
  }

  /**
   * The accepted steps form a chain of non-decreasing accuracies starting at
   * or above 0.
   */
  lemma {:induction false} AcceptedAccuraciesNonDecreasing(steps: seq<Step>, i: nat, j: nat)
    requires i <= j < AcceptedSteps(steps)
    ensures 0.0 <= steps[i].accuracy <= steps[j].accuracy
    decreases j
  {
    assert Accepts(steps, j);
    if i < j {
      AcceptedAccuraciesNonDecreasing(steps, i, j - 1);
    } else if j > 0 {
      AcceptedAccuraciesNonDecreasing(steps, j - 1, j - 1);
    }
  }

  /**
   * The sweep returns nothing exactly when its first step is not accepted;
   * otherwise it returns the selection of the last accepted step, whose
   * accuracy is the highest of all accepted steps.
   */
  lemma SweepResultIsLastAccepted(steps: seq<Step>)
    ensures SweepResult(steps) == [] <==> |steps| == 0 || !Accepts(steps, 0)
    ensures SweepResult(steps) != [] ==>
      var m := AcceptedSteps(steps);
      && SweepResult(steps) == steps[m - 1].selection
      && (forall j :: 0 <= j < m ==> steps[j].accuracy <= steps[m - 1].accuracy)
      && (m < |steps| ==> !Accepts(steps, m))
  {
    var m := AcceptedSteps(steps);
    if m > 0 {
      assert Accepts(steps, m - 1);
      forall j | 0 <= j < m
        ensures steps[j].accuracy <= steps[m - 1].accuracy
      {
        AcceptedAccuraciesNonDecreasing(steps, j, m - 1);
      }
    }
  }

  /** The sweep stops at an unaccepted step `j` reached with all earlier steps accepted. */
  lemma StopsAt(steps: seq<Step>, j: nat)
    requires j <= AcceptedSteps(steps) && j < |steps|
    ensures Accepts(steps, j) <==> j < AcceptedSteps(steps)
    ensures !Accepts(steps, j) ==> SweepResult(steps) == if j == 0 then [] else steps[j - 1].selection
  {
  }

  /** A sweep returns ascending columns of its matrix. */
  lemma SweepResultColumns(s: Sweep)
    requires WellFormed(s)
    ensures var r := SweepResult(Steps(s));
      (forall p, q :: 0 <= p < q < |r| ==> r[p] < r[q]) && (forall c :: c in r ==> c < s.d)
  {
    var m := AcceptedSteps(Steps(s));
    if m > 0 {
      StepAt(s, m - 1);
    }
  }

  /**
   * One step of the sweep: select with the `j`-th smallest threshold, and
   * stop when nothing is selected, when the training split is empty, or
   * when the accuracy falls below the last accepted one. `failed` reports
   * the ValueError of a selection that generates no column.
   */
  method SweepStep(s: Sweep, ts: seq<real>, j: nat, lastAccuracy: real)
    returns (failed: bool, stop: bool, indices: seq<nat>, accuracy: real)
    requires WellFormed(s) && ts == SortedThresholds(s.thresholds) && j < |s.thresholds|
    requires j <= AcceptedSteps(Steps(s)) && lastAccuracy == Bar(Steps(s), j)
    ensures failed <==> GeneratedCount(s.eta, s.d) == 0
    ensures !failed ==> (stop <==> j == AcceptedSteps(Steps(s)))
    ensures !failed && stop ==> SweepResult(Steps(s)) == if j == 0 then [] else Steps(s)[j - 1].selection
    ensures !failed && !stop ==> indices == Steps(s)[j].selection && accuracy == Steps(s)[j].accuracy
  {
    ghost var steps := Steps(s);
    StepAt(s, j);
    var selected := SelectFeatures(s.d, s.eta, s.trials.rounds(j), ts[j]);
    if selected.Failure? {
      return true, true, [], 0.0;
    }
    failed := false;
    indices := selected.value;
    StopsAt(steps, j);
    if |indices| == 0 || s.trials.trainRows(j) == 0 {
      return false, true, indices, 0.0;
    }
    accuracy := s.trials.accuracy(j, indices);
    stop := accuracy < lastAccuracy;
  }

  /**
   * `wrapper_algo`: reject mismatched row counts, then sweep the thresholds;
   * the columns it returns are real ones.
   */
  method WrapperAlgo(rows: nat, targetRows: nat, s: Sweep) returns (r: Result<seq<nat>>)
    requires WellFormed(s)
    ensures rows != targetRows ==> r.Failure?
    ensures rows == targetRows && |s.thresholds| > 0 && GeneratedCount(s.eta, s.d) == 0 ==> r.Failure?
    ensures rows == targetRows && (|s.thresholds| == 0 || GeneratedCount(s.eta, s.d) > 0) ==>
      r == Success(SweepResult(Steps(s)))
    ensures r.Success? ==> forall c :: c in r.value ==> c < s.d
  {
    if rows != targetRows {
      return Failure("Criterion/feature 'y' should have the same amount of rows as 'A'");
    }
    SweepResultColumns(s);
    r := SweepThresholds(s);
  }

  /**
   * The loop of `wrapper_algo`: sweep the thresholds in ascending order,
   * keeping the last selection whose accuracy did not drop; the first step
   * that stops the sweep leaves the previous selection (nothing, on the
   * first step). A selection that generates no column raises, so with at
   * least one threshold the sweep then fails.
   */
  method SweepThresholds(s: Sweep) returns (r: Result<seq<nat>>)
    requires WellFormed(s)
    ensures |s.thresholds| > 0 && GeneratedCount(s.eta, s.d) == 0 ==> r.Failure?
    ensures |s.thresholds| == 0 || GeneratedCount(s.eta, s.d) > 0 ==> r == Success(SweepResult(Steps(s)))
  {
    var ts := SortedThresholds(s.thresholds);
    ghost var steps := Steps(s);
    var lastAccuracy := 0.0;
    var lastIndices: seq<nat> := [];
    var j := 0;
    while j < |ts|
      invariant |ts| == |steps|
      invariant j <= AcceptedSteps(steps)
      invariant lastAccuracy == Bar(steps, j)
      invariant lastIndices == if j == 0 then [] else steps[j - 1].selection
      invariant j > 0 ==> GeneratedCount(s.eta, s.d) > 0
    {
      var failed, stop, indices, accuracy := SweepStep(s, ts, j, lastAccuracy);
      if failed {
        return Failure("ValueError: all the input arrays must have same number of dimensions");
      }
      if stop {
        return Success(lastIndices);
      }
      lastAccuracy := accuracy;
      lastIndices := indices;
      j := j + 1;
    }
    assert j == AcceptedSteps(steps);
    assert SweepResult(steps) == lastIndices;
    return Success(lastIndices);
  }
}
