/** The dashboard component: its four pieces of control state and the two
    views it derives from them on every render. */
module Dashboard {
  import opened Sequences
  import opened Period
  import opened Monthly
  import opened Categories
  import opened Keywords

  class DashboardState {
    /** "week", "month", "quarter" or "all" from the buttons. */
    var selectedPeriod: string
    /** Scores below this become gaps in the trend chart. */
    var sentimentThreshold: int
    /** Keywords mentioned fewer times than this are hidden. */
    var keywordFrequency: int
    /** The selected categories, kept valid by `HandleCategorySelect`. */
    var selectedCategories: seq<string>
    /** The keyword set, with the coordinates drawn when it was built. */
    const keywords: seq<KeywordPoint>

    /** The class invariant: the category selection is valid. */
    ghost predicate Valid()
      reads this
    {
      ValidSelection(selectedCategories)
    }

    /** The initial state of the component; `pos` stands for the random
        coordinates given to each keyword bubble. */
    constructor (pos: nat -> (real, real))
      ensures Valid()
      ensures selectedPeriod == "all" && sentimentThreshold == 0 && keywordFrequency == 0
      ensures selectedCategories == Initial
      ensures keywords == KeywordsData(pos)
    {
      selectedPeriod := "all";
      sentimentThreshold := 0;
      keywordFrequency := 0;
      selectedCategories := [All];
      keywords := KeywordsData(pos);
    }

    /** A click on one of the "Time Period" buttons. */
    method SelectPeriod(period: string)
      modifies this`selectedPeriod
      ensures selectedPeriod == period
    {
      selectedPeriod := period;
    }

    /** A move of the "Sentiment Threshold" slider. */
    method SetSentimentThreshold(threshold: int)
      modifies this`sentimentThreshold
      ensures sentimentThreshold == threshold
    {
      sentimentThreshold := threshold;
    }

    /** A move of the "Minimum Frequency" slider. */
    method SetKeywordFrequency(frequency: int)
      modifies this`keywordFrequency
      ensures keywordFrequency == frequency
    {
      keywordFrequency := frequency;
    }

    /** `handleCategorySelect`: a click on a category button. */
    method HandleCategorySelect(category: string)
      requires Valid()
      modifies this`selectedCategories
      ensures Valid()
      ensures selectedCategories == NextSelection(old(selectedCategories), category)
    {
      if category == All {
        selectedCategories := [All];
      } else {
        var newCategories := if category in selectedCategories
                             then Without(selectedCategories, category)
                             else Without(selectedCategories, All) + [category];
        selectedCategories := if |newCategories| > 0 then newCategories else [All];
      }
      NextSelectionValid(old(selectedCategories), category);
    }

    /** The trend chart's data for the current state: the selected months
        of the fixed series, one entry per month, with a gap wherever the
        score is below the threshold. */
    method FilteredMonthlyData() returns (view: MonthlyView)
      ensures view == FilteredMonthly(MonthlyData, GetDateIndices(selectedPeriod), sentimentThreshold)
      ensures |view.labels| == |view.values| == WindowLength(GetDateIndices(selectedPeriod))
      ensures forall i :: 0 <= i < |view.values| ==>
                view.labels[i] == MonthlyData.labels[GetDateIndices(selectedPeriod).start + i]
    {
      var ix := GetDateIndices(selectedPeriod);
      view := FilteredMonthly(MonthlyData, ix, sentimentThreshold);
      ViewAligned(MonthlyData, selectedPeriod, sentimentThreshold);
    }

    /** The bubble chart's data for the current state: the keywords that
        pass the frequency and category filter, in their original order. */
    method FilteredKeywordsData() returns (shown: seq<KeywordPoint>)
      ensures shown == FilterKeywords(keywords, keywordFrequency, selectedCategories)
      ensures IsSubsequence(shown, keywords)
    {
      shown := FilterKeywords(keywords, keywordFrequency, selectedCategories);
    }
  }
}
