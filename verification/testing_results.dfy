/**
 * The Testing & Results page: the scenario-level confusion matrix of the leak
 * detector and the three percentages computed from it. Percentages are exact
 * reals; a 0/0 division, which gives NaN in JavaScript, is `None`.
 */
module TestingResults {
  import opened Wrappers

  /** True and false positives and negatives, counted in whole test runs. */
  datatype Confusion = Confusion(tp: nat, fn: nat, fp: nat, tn: nat)

  /** `TP + TN + FP + FN`. */
  function Total(c: Confusion): nat {
    c.tp + c.tn + c.fp + c.fn
  }

  /** `num / den * 100`; `None` for the NaN of 0 / 0. */
  function Percent(num: nat, den: nat): (r: Option<real>)
    ensures r.Some? <==> den > 0
  {
    if den == 0 then None else Some(num as real / den as real * 100.0)
  }

  /** A part of a whole is between 0 and 100 percent of it. */
  lemma PercentBounds(num: nat, den: nat)
    requires num <= den
    ensures Percent(num, den).Some? ==> 0.0 <= Percent(num, den).value <= 100.0
  {
    if den > 0 {
      var q := num as real / den as real;
      assert q * den as real == num as real;
      assert q <= 1.0;
    }
  }

  /** A percentage is 100 exactly when the part is the whole, and 0 exactly when the part is empty. */
  lemma PercentEnds(num: nat, den: nat)
    requires den > 0
    ensures Percent(num, den) == Some(100.0) <==> num == den
    ensures Percent(num, den) == Some(0.0) <==> num == 0
  {
    var q := num as real / den as real;
    assert q * den as real == num as real;
    if q * 100.0 == 100.0 {
      assert q == 1.0;
    }
  }

  /** `(TP + TN) / total * 100`: the share of runs classified correctly. */
  function Accuracy(c: Confusion): (r: Option<real>)
    ensures r.Some? <==> Total(c) > 0
    ensures r.Some? ==> 0.0 <= r.value <= 100.0
  {
    PercentBounds(c.tp + c.tn, Total(c));
    Percent(c.tp + c.tn, Total(c))
  }

  /** `TP / (TP + FN) * 100`: the share of leak runs that raised an alert. */
  function Recall(c: Confusion): (r: Option<real>)
    ensures r.Some? <==> c.tp + c.fn > 0
    ensures r.Some? ==> 0.0 <= r.value <= 100.0
  {
    PercentBounds(c.tp, c.tp + c.fn);
    Percent(c.tp, c.tp + c.fn)
  }

  /** `FP + TN || 1`: the count of runs without a leak, or 1 when there are none. */
  function FprDenominator(c: Confusion): (r: nat)
    ensures r >= 1 && r >= c.fp
  {
    if c.fp + c.tn == 0 then 1 else c.fp + c.tn
  }

  /** `FP / (FP + TN || 1) * 100`: the share of runs without a leak that raised an alert. */
  function FalsePositiveRate(c: Confusion): (r: real)
    ensures 0.0 <= r <= 100.0
  {
    PercentBounds(c.fp, FprDenominator(c));
    Percent(c.fp, FprDenominator(c)).value
  }

  /**
   * What the extreme values mean: full accuracy is no misclassified run,
   * full recall no missed leak, and a false-positive rate of 0 no false alert.
   */
  lemma MetricEnds(c: Confusion)
    ensures Total(c) > 0 ==> (Accuracy(c) == Some(100.0) <==> c.fp == 0 && c.fn == 0)
    ensures c.tp + c.fn > 0 ==> (Recall(c) == Some(100.0) <==> c.fn == 0)
    ensures FalsePositiveRate(c) == 0.0 <==> c.fp == 0
  {
    if Total(c) > 0 {
      PercentEnds(c.tp + c.tn, Total(c));
    }
    if c.tp + c.fn > 0 {
      PercentEnds(c.tp, c.tp + c.fn);
    }
    PercentEnds(c.fp, FprDenominator(c));
  }

  // ---------------------------------------------------------------- where the counts come from

  /**
   * A scenario: how many runs were made, whether the scenario is a leak, and
   * in how many runs the detector alerted.
   */
  datatype Scenario = Scenario(name: string, runs: nat, leak: bool, alerts: nat)

  predicate WellFormed(ss: seq<Scenario>) {
    forall k :: 0 <= k < |ss| ==> ss[k].alerts <= ss[k].runs
  }

  /** Sum of the runs of the scenarios. */
  function Runs(ss: seq<Scenario>): nat {
    if ss == [] then 0 else ss[0].runs + Runs(ss[1..])
  }

  /**
   * The confusion matrix of the scenarios: an alert in a leak scenario is a
   * true positive and its silence a false negative; an alert elsewhere is a
   * false positive and silence a true negative.
   */
  function Tally(ss: seq<Scenario>): (r: Confusion)
    requires WellFormed(ss)
    ensures (forall k :: 0 <= k < |ss| ==> !ss[k].leak) ==> r.tp == 0 && r.fn == 0
    ensures (forall k :: 0 <= k < |ss| ==> ss[k].leak) ==> r.fp == 0 && r.tn == 0
    ensures (forall k :: 0 <= k < |ss| ==> ss[k].alerts == 0) ==> r.tp == 0 && r.fp == 0
  {
    if ss == [] then Confusion(0, 0, 0, 0)
    else
      var rest := Tally(ss[1..]);
      var s := ss[0];
      if s.leak then Confusion(rest.tp + s.alerts, rest.fn + (s.runs - s.alerts), rest.fp, rest.tn)
      else Confusion(rest.tp, rest.fn, rest.fp + s.alerts, rest.tn + (s.runs - s.alerts))
  }

  /** Every run lands in exactly one cell of the matrix. */
  lemma {:induction false} TallyTotal(ss: seq<Scenario>)
    requires WellFormed(ss)
    ensures Total(Tally(ss)) == Runs(ss)
  {
    if ss != [] {
      TallyTotal(ss[1..]);
    }
  }

  /** The scenarios of the page: 5 idle, 5 drip, 3 half-blast and 5 full-blast runs. */
  const PageScenarios: seq<Scenario> := [
    Scenario("Idle / Water Off", 5, false, 0),
    Scenario("Very Slow Drip (Leak Scenario)", 5, true, 4),
    Scenario("Half Blast (Normal Use)", 3, false, 0),
    Scenario("Full Blast (Normal Use)", 5, false, 0)
  ]

  /** The counts the page shows. */
  const PageCounts: Confusion := Confusion(4, 1, 0, 13)

  /**
   * The page's counts are the tally of its scenarios, and their total is the
   * 18 scenario-level tests it reports.
   */
  lemma PageCountsFromScenarios()
    ensures WellFormed(PageScenarios)
    ensures Tally(PageScenarios) == PageCounts
    ensures Total(PageCounts) == Runs(PageScenarios) == 18
  {
    var ss := PageScenarios;
    assert Tally(ss[3..]) == Confusion(0, 0, 0, 5) by { assert ss[3..][1..] == []; }
    assert Tally(ss[2..]) == Confusion(0, 0, 0, 8) by { assert ss[2..][1..] == ss[3..]; }
    assert Tally(ss[1..]) == Confusion(4, 1, 0, 8) by { assert ss[1..][1..] == ss[2..]; }
    TallyTotal(ss);
  }

  /** Accuracy 17/18 (94.4 after rounding), recall 80, false-positive rate 0. */
  lemma PageMetrics()
    ensures Accuracy(PageCounts) == Some(850.0 / 9.0)
    ensures Recall(PageCounts) == Some(80.0)
    ensures FalsePositiveRate(PageCounts) == 0.0
  {
  }
}
