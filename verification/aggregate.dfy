/** `calculateTotalPercentageOfCompletion`: a `reduce` fold to a sum, divided
    by the number of entries. The mean is kept exact, as the pair (total,
    count), rather than as the two-decimal string `toFixed(2)` produces. */
module Aggregate {

  /** The fold `reduce((sum, current) => sum + current, 0)`, left to right. */
  function Sum(s: seq<int>): int
  {
    if s == [] then 0 else Sum(s[..|s| - 1]) + s[|s| - 1]
  }

  /** What the division `total / completionPercentages.length` yields:
      `NaN` for an empty array (0 / 0), an exact ratio otherwise. */
  datatype Average = NaN | Mean(total: int, count: nat)
  {
    /** The exact value of a mean. */
    function Value(): real
      requires Mean? && count > 0
    {
      total as real / count as real
    }
  }

  /** The average of the stored percentages. */
  function AverageOf(s: seq<int>): (r: Average)
    ensures r.NaN? <==> s == []
    ensures r.Mean? ==> r.count == |s| > 0 && r.total == Sum(s)
  {
    if s == [] then NaN else Mean(Sum(s), |s|)
  }

  /** Sum over a sequence whose entries all lie in [0, 100]. */
  lemma {:induction false} SumBounds(s: seq<int>)
    requires forall j :: 0 <= j < |s| ==> 0 <= s[j] <= 100
    ensures 0 <= Sum(s) <= 100 * |s|
  {
    if s != [] {
      SumBounds(s[..|s| - 1]);
    }
  }

  /** A sequence of zeros sums to zero. */
  lemma {:induction false} SumZeros(n: nat)
    ensures Sum(seq(n, _ => 0)) == 0
  {
    if n > 0 {
      assert seq(n, _ => 0)[..n - 1] == seq(n - 1, _ => 0);
      SumZeros(n - 1);
    }
  }

  /** Overwriting one entry changes the sum by exactly the difference. */
  lemma {:induction false} SumUpdate(s: seq<int>, i: nat, p: int)
    requires i < |s|
    ensures Sum(s[i := p]) == Sum(s) - s[i] + p
  {
    var t := s[i := p];
    if i == |s| - 1 {
      assert t[..|t| - 1] == s[..|s| - 1];
    } else {
      assert t[..|t| - 1] == s[..|s| - 1][i := p];
      SumUpdate(s[..|s| - 1], i, p);
    }
  }

  /** The average is the sum of the entries over their number. */
  lemma AverageIsMean(s: seq<int>)
    requires s != []
    ensures AverageOf(s).Mean?
    ensures AverageOf(s).Value() * (|s| as real) == Sum(s) as real
  {
  }

  /** The average of percentages is itself a percentage. */
  lemma AverageBounds(s: seq<int>)
    requires s != []
    requires forall j :: 0 <= j < |s| ==> 0 <= s[j] <= 100
    ensures 0.0 <= AverageOf(s).Value() <= 100.0
  {
    SumBounds(s);
    var a := AverageOf(s);
    assert (a.total as real) <= 100.0 * (a.count as real);
  }

  /** Right after a reset, every building is at 0 percent. */
  lemma AverageOfZeros(n: nat)
    requires n > 0
    ensures AverageOf(seq(n, _ => 0)).Value() == 0.0
  {
    SumZeros(n);
  }

  /** The doc comment's example: [80, 90, 100] averages to 90 ("90.00"). */
  lemma DocExample()
    ensures AverageOf([80, 90, 100]) == Mean(270, 3)
    ensures AverageOf([80, 90, 100]).Value() == 90.0
  {
    assert [80, 90, 100][..2] == [80, 90];
    assert [80, 90][..1] == [80];
    assert [80][..0] == [];
  }

  /** Two buildings, one at the foundation stage: 12.5 percent ("12.50"). */
  lemma HalfFoundationExample()
    ensures AverageOf([25, 0]).Value() == 12.5
  {
    assert [25, 0][..1] == [25];
    assert [25][..0] == [];
  }
}
