/** The global `completionPercentages` array and the two event handlers that
    change it, as a class that owns the array. */
module Tracker {
  import opened Options
  import opened Analysis
  import opened Aggregate
  import opened FormIds

  /** A value the tracker can hold: the 0 of a reset or the percentage of one
      of the four select options. */
  predicate IsRecorded(v: int)
  {
    v in {0, 25, 50, 75, 100}
  }

  /** Every option's percentage is a recordable value. */
  lemma OptionRecordable(kind: InfrastructureType)
    ensures IsRecorded(kind.Percentage())
  {
  }

  /** Every recordable value is a percentage. */
  lemma RecordedInRange(v: int)
    requires IsRecorded(v)
    ensures 0 <= v <= 100
  {
  }

  class CompletionTracker {
    /** `completionPercentages`: one entry per declared building. */
    var percentages: array<int>

    /** Every entry is 0 or one of the four stage percentages. */
    ghost predicate Valid()
      reads this, percentages
    {
      forall j :: 0 <= j < percentages.Length ==> IsRecorded(percentages[j])
    }

    /** `let completionPercentages = []`. */
    constructor ()
      ensures Valid() && fresh(percentages)
      ensures percentages[..] == []
    {
      percentages := new int[0];
    }

    /** The building-count submission:
        `completionPercentages = new Array(n).fill(0)`. */
    method Reset(n: nat)
      modifies this
      ensures Valid() && fresh(percentages)
      ensures percentages[..] == seq(n, _ => 0)
    {
      percentages := new int[n](_ => 0);
    }

    /** `completionPercentages[i] = p`: one slot overwritten, nothing else. */
    method SetCompletion(i: nat, p: int)
      requires Valid()
      requires i < percentages.Length
      requires IsRecorded(p)
      modifies percentages
      ensures Valid()
      ensures percentages[..] == old(percentages[..])[i := p]
      ensures Sum(percentages[..]) == old(Sum(percentages[..])) - old(percentages[i]) + p
    {
      percentages[i] := p;
      SumUpdate(old(percentages[..]), i, p);
    }

    /** `calculateTotalPercentageOfCompletion()`: NaN for no buildings,
        otherwise the exact mean, itself a percentage. */
    method Average() returns (r: Average)
      requires Valid()
      ensures r == AverageOf(percentages[..])
      ensures r.NaN? <==> percentages.Length == 0
      ensures r.Mean? ==> r.count == percentages.Length > 0 && 0.0 <= r.Value() <= 100.0
    {
      r := AverageOf(percentages[..]);
      if r.Mean? {
        AverageBounds(percentages[..]);
      }
    }

    /** The click on building `i`'s submit button: recover the index from the
        form id, analyse the chosen option, store its percentage in that slot
        and recompute the project average. */
    method SubmitBuilding(i: nat, infrastructureType: InfrastructureType)
      returns (analysis: ImageAnalysis, total: Average)
      requires Valid()
      requires i < percentages.Length
      modifies percentages
      ensures Valid()
      ensures percentages[..] == old(percentages[..])[i := infrastructureType.Percentage()]
      ensures analysis.constructionActivity == infrastructureType.Label()
      ensures analysis.stageOfConstruction == infrastructureType.Label()
      ensures analysis.percentageOfCompletion == Found(infrastructureType.Percentage())
      ensures total == AverageOf(percentages[..]) && total.Mean?
      ensures 0.0 <= total.Value() <= 100.0
    {
      FormIdRoundTrip(i);
      var key := FormIndexKey(FormId(i));
      var index := IndexOfKey(key.value);
      analysis := AnalyzeImage(infrastructureType.Label());
      AnalyzeOption(infrastructureType);
      OptionRecordable(infrastructureType);
      SetCompletion(index.value, analysis.percentageOfCompletion.value);
      total := Average();
    }
  }

  /** Two buildings, the first at the foundation stage: 12.5 percent. */
  method FoundationScenario() returns (total: Average)
    ensures total.Mean? && total.count == 2 && total.Value() == 12.5
  {
    var t := new CompletionTracker();
    t.Reset(2);
    var analysis;
    analysis, total := t.SubmitBuilding(0, Foundation);
    assert t.percentages[..] == [25, 0];
    HalfFoundationExample();
  }
}
