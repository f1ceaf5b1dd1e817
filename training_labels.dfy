/**
 * Training labels: 0 (price goes up, BUY), 1 (price goes down, SELL) and 2 (HOLD), derived
 * from the sma_10 column, and the repairs that try to make all three classes appear.
 */
module TrainingLabels {
  import opened Common
  import opened TrainingFeatures

  /** Every label is one of the three classes. */
  predicate IsLabels(y: seq<int>)
  {
    forall i :: 0 <= i < |y| ==> 0 <= y[i] <= 2
  }

  /** The distinct labels of y (the keys of numpy's `unique`). */
  function Distinct(y: seq<int>): set<int>
  {
    set i | 0 <= i < |y| :: y[i]
  }

  predicate HasAllClasses(y: seq<int>)
  {
    0 in y && 1 in y && 2 in y
  }

  /** For labels, "fewer than three distinct values" means some class is missing. */
  lemma FewerThanThreeIffMissing(y: seq<int>)
    requires IsLabels(y)
    ensures |Distinct(y)| < 3 <==> !HasAllClasses(y)
  {
    var d := Distinct(y);
    if HasAllClasses(y) {
      var i0, i1, i2 :| 0 <= i0 < |y| && y[i0] == 0 && 0 <= i1 < |y| && y[i1] == 1 && 0 <= i2 < |y| && y[i2] == 2;
      assert {0, 1, 2} <= d;
      assert |{0, 1, 2}| == 3;
      SubsetCardinality({0, 1, 2}, d);
    } else {
      var c :| 0 <= c <= 2 && c !in y;
      assert d <= {0, 1, 2} - {c};
      assert |{0, 1, 2} - {c}| == 2;
      SubsetCardinality(d, {0, 1, 2} - {c});
    }
  }

  lemma SubsetCardinality(a: set<int>, b: set<int>)
    requires a <= b
    ensures |a| <= |b|
  {
    assert b == a + (b - a);
  }

  /**
   * The label of one row from the sma_10 change to the next row, in percent: above the
   * threshold is 0, below its negative is 1, anything else (and a zero base) is 2.
   */
  function InitialLabel(base: real, next: real, threshold: real): (cls: int)
    ensures 0 <= cls <= 2
  {
    if base == 0.0 then 2
    else
      var change := (next - base) / base * 100.0;
      if change > threshold then 0
      else if change < -threshold then 1
      else 2
  }

  /**
   * With a positive base, 0 means the next value rose by more than threshold percent and
   * 1 means it fell by more than threshold percent (and did not also count as a rise).
   */
  lemma LabelMeaning(base: real, next: real, threshold: real)
    requires base > 0.0
    ensures InitialLabel(base, next, threshold) == 0 <==> next * 100.0 > base * (100.0 + threshold)
    ensures InitialLabel(base, next, threshold) == 1 <==>
      next * 100.0 < base * (100.0 - threshold) && next * 100.0 <= base * (100.0 + threshold)
  {
    var change := (next - base) / base * 100.0;
    assert change * base == (next - base) * 100.0;
    assert (next - base) * 100.0 == next * 100.0 - base * 100.0;
    assert base * (100.0 + threshold) == base * 100.0 + threshold * base;
    assert base * (100.0 - threshold) == base * 100.0 - threshold * base;
    ScaledComparison(change, threshold, base);
    ScaledComparison(change, -threshold, base);
  }

  /** With a non-negative threshold, a change of exactly ±threshold percent is labelled 2. */
  lemma LabelAtExactThreshold(base: real, next: real, threshold: real)
    requires base > 0.0 && threshold >= 0.0
    requires next * 100.0 == base * (100.0 + threshold) || next * 100.0 == base * (100.0 - threshold)
    ensures InitialLabel(base, next, threshold) == 2
  {
    LabelMeaning(base, next, threshold);
  }

  /** Comparing c with t is comparing c * b with t * b, for a positive b. */
  lemma ScaledComparison(c: real, t: real, b: real)
    requires b > 0.0
    ensures c > t <==> c * b > t * b
    ensures c < t <==> c * b < t * b
  {
    if c > t {
      assert (c - t) * b > 0.0;
    } else if c < t {
      assert (t - c) * b > 0.0;
    }
  }

  /** The labels of the rows but the last, each from its own and the next row's sma_10. */
  function PairLabels(rows: seq<FeatureRow>, threshold: real): (ls: seq<int>)
    ensures |ls| == if rows == [] then 0 else |rows| - 1
    ensures forall i :: 0 <= i < |ls| ==> ls[i] == InitialLabel(rows[i].sma10, rows[i + 1].sma10, threshold)
  {
    if rows == [] then []
    else seq(|rows| - 1, i requires 0 <= i < |rows| - 1 => InitialLabel(rows[i].sma10, rows[i + 1].sma10, threshold))
  }

  /** The labels before rebalancing: the pair labels followed by a final 2. */
  function InitialLabels(rows: seq<FeatureRow>, threshold: real): (ls: seq<int>)
    ensures IsLabels(ls)
    ensures |ls| == Max(|rows|, 1) && ls[|ls| - 1] == 2
  {
    PairLabels(rows, threshold) + [2]
  }

  /** How many rows rebalancing may overwrite: max(1, n // 5). */
  function HoldQuota(n: nat): (q: nat)
    ensures q >= 1 && (n >= 5 ==> q * 5 <= n)
  {
    Max(1, n / 5)
  }

  /** The sort key of a row, |price_change|, with infinity above every number. */
  predicate KeyLe(a: Pct, b: Pct)
  {
    match (a, b)
    case (_, Infinite) => true
    case (Infinite, Finite(_)) => false
    case (Finite(x), Finite(y)) => (if x < 0.0 then -x else x) <= (if y < 0.0 then -y else y)
  }

  /**
   * `order` is what `argsort` of |price_change| may return: every row exactly once, by
   * non-decreasing key. The order among equal keys is left open.
   */
  predicate IsArgsort(order: seq<int>, rows: seq<FeatureRow>)
  {
    && |order| == |rows|
    && (forall k :: 0 <= k < |order| ==> 0 <= order[k] < |rows|)
    && (forall i :: 0 <= i < |rows| ==> i in order)
    && (forall j, k :: 0 <= j < k < |order| ==> order[j] != order[k])
    && (forall j, k :: 0 <= j < k < |order| ==> KeyLe(rows[order[j]].priceChange, rows[order[k]].priceChange))
  }

  /** The rows rebalancing picks: the first max(1, n // 5) entries of the argsort. */
  function Chosen(order: seq<int>, n: nat): (c: seq<int>)
    ensures |c| <= HoldQuota(n) && |c| <= |order| && c == order[..|c|]
  {
    order[..Min(HoldQuota(n), |order|)]
  }

  /** y with every in-range index listed in idxs overwritten by 2. */
  function HoldAt(y: seq<int>, idxs: seq<int>): (r: seq<int>)
    ensures |r| == |y|
    ensures forall i :: 0 <= i < |y| ==> r[i] == if i in idxs then 2 else y[i]
  {
    seq(|y|, i requires 0 <= i < |y| => if i in idxs then 2 else y[i])
  }

  /** The labels `_create_targets` returns. */
  function Targets(rows: seq<FeatureRow>, threshold: real, order: seq<int>): seq<int>
  {
    var init := InitialLabels(rows, threshold);
    if |Distinct(init)| < 3 then HoldAt(init, Chosen(order, |rows|)) else init
  }

  /** `_create_targets`: label each row in a loop, then rebalance if a class is missing. */
  method CreateTargets(rows: seq<FeatureRow>, threshold: real, order: seq<int>) returns (targets: seq<int>)
    requires IsArgsort(order, rows)
    ensures targets == Targets(rows, threshold, order)
  {
    targets := [];
    var i := 0;
    while i < |rows| - 1
      invariant 0 <= i <= Max(|rows| - 1, 0)
      invariant targets == PairLabels(rows, threshold)[..i]
    {
      targets := targets + [InitialLabel(rows[i].sma10, rows[i + 1].sma10, threshold)];
      i := i + 1;
    }
    assert targets == PairLabels(rows, threshold);
    targets := targets + [2];
    var init := targets;
    if |set j | 0 <= j < |targets| :: targets[j]| < 3 {
      assert Distinct(init) == set j | 0 <= j < |targets| :: targets[j];
      var hold := order[..Min(HoldQuota(|rows|), |order|)];
      var k := 0;
      while k < |hold|
        invariant 0 <= k <= |hold|
        invariant targets == HoldAt(init, hold[..k])
      {
        HoldAtStep(init, hold, k);
        if hold[k] < |targets| {
          targets := targets[hold[k] := 2];
        }
        k := k + 1;
      }
      assert hold[..k] == hold;
    }
  }

  /** Extending the overwritten indices by one entry overwrites one more label. */
  lemma HoldAtStep(y: seq<int>, idxs: seq<int>, k: int)
    requires 0 <= k < |idxs|
    ensures var before := HoldAt(y, idxs[..k]);
      HoldAt(y, idxs[..k + 1]) == if 0 <= idxs[k] < |y| then before[idxs[k] := 2] else before
  {
    var before, after := HoldAt(y, idxs[..k]), HoldAt(y, idxs[..k + 1]);
    assert idxs[..k + 1] == idxs[..k] + [idxs[k]];
    forall i | 0 <= i < |y|
      ensures after[i] == if i == idxs[k] then 2 else before[i]
    {
      assert (i in idxs[..k + 1]) <==> (i in idxs[..k] || i == idxs[k]);
    }
  }

  /** For a non-empty table there is one label per row, and the last one is 2. */
  lemma TargetsShape(rows: seq<FeatureRow>, threshold: real, order: seq<int>)
    requires rows != []
    ensures var t := Targets(rows, threshold, order);
      |t| == |rows| && t[|t| - 1] == 2 && IsLabels(t)
  {
  }

  /**
   * Rebalancing happens only when a class is missing, only writes 2, and only at the
   * chosen rows: so it can never add a missing 0 or 1.
   */
  lemma RebalanceOnlyWritesHold(rows: seq<FeatureRow>, threshold: real, order: seq<int>)
    ensures var init, t := InitialLabels(rows, threshold), Targets(rows, threshold, order);
      && (HasAllClasses(init) ==> t == init)
      && |t| == |init|
      && (forall i :: 0 <= i < |t| && t[i] != init[i] ==> t[i] == 2 && i in Chosen(order, |rows|))
      && (0 in t ==> 0 in init)
      && (1 in t ==> 1 in init)
  {
    var init, t := InitialLabels(rows, threshold), Targets(rows, threshold, order);
    FewerThanThreeIffMissing(init);
    forall c | c != 2 && c in t ensures c in init {
      var i :| 0 <= i < |t| && t[i] == c;
    }
  }

  /** The rows rebalancing picks have a |price_change| no larger than any row it leaves alone. */
  lemma RebalancePicksSmallestChanges(rows: seq<FeatureRow>, order: seq<int>, i: int, j: int)
    requires IsArgsort(order, rows)
    requires i in Chosen(order, |rows|)
    requires 0 <= j < |rows| && j !in Chosen(order, |rows|)
    ensures KeyLe(rows[i].priceChange, rows[j].priceChange)
  {
    var c := Chosen(order, |rows|);
    var a :| 0 <= a < |c| && c[a] == i;
    assert j in order;
    var b :| 0 <= b < |order| && order[b] == j;
  }

  /** A small early change in the sense of the first pre-fit repair: |price_change| < 0.1. */
  predicate SmallChange(p: Pct)
  {
    p.Finite? && -0.1 < p.value < 0.1
  }

  /** y with every label from index `from` on replaced by 2. */
  function HoldSuffix(y: seq<int>, from: int): (r: seq<int>)
    ensures |r| == |y|
    ensures forall i :: 0 <= i < |y| ==> r[i] == if i >= from then 2 else y[i]
  {
    seq(|y|, i requires 0 <= i < |y| => if i >= from then 2 else y[i])
  }

  /** The rows among the first min(10, n) whose change is small, in order. */
  function EarlySmallRows(rows: seq<FeatureRow>): (ix: seq<int>)
    ensures forall k :: 0 <= k < |ix| ==> 0 <= ix[k] < Min(10, |rows|) && SmallChange(rows[ix[k]].priceChange)
    ensures forall i :: 0 <= i < Min(10, |rows|) && SmallChange(rows[i].priceChange) ==> i in ix
  {
    SmallRowsBelow(rows, Min(10, |rows|))
  }

  /** The rows below m whose change is small, in order. */
  function SmallRowsBelow(rows: seq<FeatureRow>, m: nat): (ix: seq<int>)
    requires m <= |rows|
    ensures forall k :: 0 <= k < |ix| ==> 0 <= ix[k] < m && SmallChange(rows[ix[k]].priceChange)
    ensures forall i :: 0 <= i < m && SmallChange(rows[i].priceChange) ==> i in ix
  {
    if m == 0 then []
    else
      var before := SmallRowsBelow(rows, m - 1);
      var ix := before + (if SmallChange(rows[m - 1].priceChange) then [m - 1] else []);
      assert forall k :: 0 <= k < |before| ==> ix[k] == before[k];
      ix
  }

  /** The loop collecting the early rows with a small change. */
  method CollectEarlySmallRows(rows: seq<FeatureRow>) returns (holdIndices: seq<int>)
    ensures holdIndices == EarlySmallRows(rows)
  {
    holdIndices := [];
    var i := 0;
    while i < Min(10, |rows|)
      invariant 0 <= i <= Min(10, |rows|)
      invariant holdIndices == SmallRowsBelow(rows, i)
    {
      if SmallChange(rows[i].priceChange) {
        holdIndices := holdIndices + [i];
      }
      i := i + 1;
    }
  }

  /**
   * The two pre-fit repairs of `train_model`. If a class is missing and no early row has a
   * small change, the last five labels become 2; then, if a class is still missing, the
   * last three labels become 2.
   */
  function PreFitLabels(rows: seq<FeatureRow>, targets: seq<int>): seq<int>
  {
    var n := |rows|;
    var y := if |Distinct(targets)| < 3 && EarlySmallRows(rows) == [] then HoldSuffix(targets, Max(0, n - 5)) else targets;
    if |Distinct(y)| < 3 then HoldSuffix(y, Max(0, |y| - 3)) else y
  }

  /** Both pre-fit repairs only ever write 2: they never add a missing 0 or 1. */
  lemma PreFitOnlyWritesHold(rows: seq<FeatureRow>, targets: seq<int>)
    ensures var y := PreFitLabels(rows, targets);
      && |y| == |targets|
      && (forall i :: 0 <= i < |y| && y[i] != targets[i] ==> y[i] == 2)
      && (0 in y ==> 0 in targets)
      && (1 in y ==> 1 in targets)
  {
    var y := PreFitLabels(rows, targets);
    forall c | c != 2 && c in y ensures c in targets {
      var i :| 0 <= i < |y| && y[i] == c;
    }
  }

  /**
   * Row 0 always has a zero change, so for a non-empty table the first repair never
   * overwrites anything: only the second one can.
   */
  lemma FirstPreFitRepairIsDead(klines: seq<MarketMonitor.Candle>, targets: seq<int>)
    requires klines != []
    ensures var rows := PrepareFeatures(klines);
      && EarlySmallRows(rows) != []
      && PreFitLabels(rows, targets) ==
        if |Distinct(targets)| < 3 then HoldSuffix(targets, Max(0, |targets| - 3)) else targets
  {
    var rows := PrepareFeatures(klines);
    assert SmallChange(rows[0].priceChange);
    assert 0 in EarlySmallRows(rows);
  }

  /** The loop `for i in range(from, len(a)): a[i] = 2`. */
  method HoldFrom(a: array<int>, from: int)
    modifies a
    ensures a[..] == HoldSuffix(old(a[..]), from)
  {
    var i := Max(0, from);
    while i < a.Length
      invariant Max(0, from) <= i
      invariant forall k :: 0 <= k < a.Length ==>
        a[k] == if from <= k < i then 2 else old(a[k])
    {
      a[i] := 2;
      i := i + 1;
    }
  }

  /**
   * The post-fit repair, applied one step after the other: a missing 0 is written at
   * index 0, a missing 1 at index min(1, n-1), and a missing 2 at the last index.
   */
  function PostFitRepair(y: seq<int>): (r: seq<int>)
    requires |y| > 0
    ensures |r| == |y|
  {
    var y1 := if 0 !in y then y[0 := 0] else y;
    var y2 := if 1 !in y1 then y1[Min(1, |y1| - 1) := 1] else y1;
    if 2 !in y2 then y2[|y2| - 1 := 2] else y2
  }

  /** The post-fit repair on the training labels' array, in place. */
  method RepairFittedLabels(a: array<int>)
    requires a.Length > 0
    modifies a
    ensures a[..] == PostFitRepair(old(a[..]))
  {
    if 0 !in a[..] {
      a[0] := 0;
    }
    if 1 !in a[..] {
      a[Min(1, a.Length - 1)] := 1;
    }
    if 2 !in a[..] {
      a[a.Length - 1] := 2;
    }
  }

  /**
   * The post-fit repair touches at most indices 0, min(1, n-1) and n-1, writes only
   * labels, and always leaves a 2 behind.
   */
  lemma PostFitRepairFrame(y: seq<int>)
    requires |y| > 0 && IsLabels(y)
    ensures var r := PostFitRepair(y);
      && IsLabels(r)
      && 2 in r
      && (forall i :: 0 <= i < |y| && i != 0 && i != Min(1, |y| - 1) && i != |y| - 1 ==> r[i] == y[i])
  {
    var y1 := if 0 !in y then y[0 := 0] else y;
    var y2 := if 1 !in y1 then y1[Min(1, |y1| - 1) := 1] else y1;
    var r := PostFitRepair(y);
    if 2 !in y2 {
      assert r[|y| - 1] == 2;
    }
  }

  /** The post-fit repair can lose a class: [2, 0, 2] becomes [2, 1, 2], which has no 0. */
  lemma PostFitRepairCanLoseClass()
    ensures PostFitRepair([2, 0, 2]) == [2, 1, 2]
    ensures 0 !in PostFitRepair([2, 0, 2])
  {
    assert 1 !in [2, 0, 2];
    assert [2, 0, 2][1 := 1] == [2, 1, 2];
  }

  /** When only label 2 was present and there are at least three labels, all three classes result. */
  lemma PostFitRepairOfOnlyHold(y: seq<int>)
    requires |y| >= 3 && forall i :: 0 <= i < |y| ==> y[i] == 2
    ensures HasAllClasses(PostFitRepair(y))
  {
    var y1 := y[0 := 0];
    assert 0 !in y;
    assert 1 !in y1;
    var y2 := y1[1 := 1];
    assert y2[0] == 0 && y2[1] == 1 && y2[2] == 2;
  }

  /** `[v] * k`. */
  function Repeat(v: int, k: nat): (r: seq<int>)
    ensures |r| == k && forall i :: 0 <= i < k ==> r[i] == v
  {
    seq(k, i => v)
  }

  /** How many times c occurs in y. */
  function Count(y: seq<int>, c: int): nat
  {
    if y == [] then 0 else (if y[0] == c then 1 else 0) + Count(y[1..], c)
  }

  lemma {:induction false} CountAppend(x: seq<int>, y: seq<int>, c: int)
    ensures Count(x + y, c) == Count(x, c) + Count(y, c)
  {
    if x != [] {
      assert (x + y)[1..] == x[1..] + y;
      CountAppend(x[1..], y, c);
    } else {
      assert x + y == y;
    }
  }

  lemma {:induction false} CountRepeat(v: int, k: nat, c: int)
    ensures Count(Repeat(v, k), c) == if v == c then k else 0
  {
    if k > 0 {
      assert Repeat(v, k)[1..] == Repeat(v, k - 1);
      CountRepeat(v, k - 1, c);
    }
  }

  /** The synthetic labels used with fewer than 20 rows. */
  function SyntheticLabels(): seq<int>
  {
    Repeat(0, 20) + Repeat(1, 20) + Repeat(2, 20)
  }

  /** The synthetic labels hold exactly 20 of each class and nothing else. */
  lemma SyntheticLabelsBalanced()
    ensures |SyntheticLabels()| == 60 && IsLabels(SyntheticLabels())
    ensures Count(SyntheticLabels(), 0) == 20
    ensures Count(SyntheticLabels(), 1) == 20
    ensures Count(SyntheticLabels(), 2) == 20
  {
    forall c | 0 <= c <= 2
      ensures Count(SyntheticLabels(), c) == 20
    {
      CountAppend(Repeat(0, 20) + Repeat(1, 20), Repeat(2, 20), c);
      CountAppend(Repeat(0, 20), Repeat(1, 20), c);
      CountRepeat(0, 20, c);
      CountRepeat(1, 20, c);
      CountRepeat(2, 20, c);
    }
  }
}
