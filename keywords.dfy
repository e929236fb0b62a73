/** The keyword bubble view: keywords are kept when they are mentioned
    often enough and their category is selected. */
module Keywords {
  import opened Sequences
  import opened Categories

  /** One bubble. `x` and `y` are display coordinates with no meaning for
      the filter; `r` is the bubble radius. */
  datatype KeywordPoint = KeywordPoint(x: real, y: real, r: int, keyword: string, count: int, category: string)

  /** The fixed keyword set. The coordinates are drawn at random when the
      data is built, so they are a parameter here: point `i` sits at `pos(i)`. */
  function KeywordsData(pos: nat -> (real, real)): seq<KeywordPoint>
  {
    [ KeywordPoint(pos(0).0, pos(0).1, 20, "service", 150, "service"),
      KeywordPoint(pos(1).0, pos(1).1, 25, "quality", 200, "quality"),
      KeywordPoint(pos(2).0, pos(2).1, 30, "delivery", 250, "service"),
      KeywordPoint(pos(3).0, pos(3).1, 35, "food", 300, "food"),
      KeywordPoint(pos(4).0, pos(4).1, 40, "price", 350, "price"),
      KeywordPoint(pos(5).0, pos(5).1, 15, "menu", 100, "food"),
      KeywordPoint(pos(6).0, pos(6).1, 18, "staff", 120, "service"),
      KeywordPoint(pos(7).0, pos(7).1, 22, "taste", 180, "food"),
      KeywordPoint(pos(8).0, pos(8).1, 28, "value", 220, "price"),
      KeywordPoint(pos(9).0, pos(9).1, 32, "freshness", 260, "quality"),
      KeywordPoint(pos(10).0, pos(10).1, 24, "ambiance", 190, "quality"),
      KeywordPoint(pos(11).0, pos(11).1, 26, "portion", 210, "food") ]
  }

  /** The category half of the filter: "all" is selected, or the category
      is. On a selection that keeps the selection invariant, a specific
      category is admitted exactly when nothing specific is selected or it
      is one of the selected categories. */
  predicate Admits(categories: seq<string>, category: string)
    ensures categories == Initial ==> Admits(categories, category)
    ensures ValidSelection(categories) && category != All ==>
              (Admits(categories, category) <==> categories == Initial || category in categories)
  {
    All in categories || category in categories
  }

  /** The filter predicate applied to each keyword. With the initial
      selection only the count decides; an item below the minimum
      frequency is never kept, whatever the selection. */
  predicate Keep(item: KeywordPoint, frequency: int, categories: seq<string>)
    ensures categories == Initial ==> (Keep(item, frequency, categories) <==> item.count >= frequency)
    ensures item.count < frequency ==> !Keep(item, frequency, categories)
  {
    item.count >= frequency && Admits(categories, item.category)
  }

  /** `filteredKeywordsData`: `data.filter(item => item.count >= frequency
      && (categories.includes('all') || categories.includes(item.category)))`.
      The result keeps the source order and holds exactly the items that
      pass the predicate. */
  function FilterKeywords(items: seq<KeywordPoint>, frequency: int, categories: seq<string>): (r: seq<KeywordPoint>)
    ensures IsSubsequence(r, items)
    ensures |r| <= |items|
  {
    if items == [] then []
    else if Keep(items[0], frequency, categories) then [items[0]] + FilterKeywords(items[1..], frequency, categories)
    else FilterKeywords(items[1..], frequency, categories)
  }

  /** Keywords of a list of points, in order. */
  function KeywordNames(items: seq<KeywordPoint>): seq<string>
  {
    seq(|items|, i requires 0 <= i < |items| => items[i].keyword)
  }

  /** An item is shown exactly when it is in the source list and passes
      the predicate. */
  lemma {:induction false} FilterMembers(items: seq<KeywordPoint>, frequency: int, categories: seq<string>, item: KeywordPoint)
    ensures item in FilterKeywords(items, frequency, categories) <==> item in items && Keep(item, frequency, categories)
  {
    if items != [] {
      FilterMembers(items[1..], frequency, categories, item);
      assert items == [items[0]] + items[1..];
    }
  }

  /** Every copy of a passing record survives and every copy of a failing
      one goes: the number of times any record occurs in the result is its
      number of occurrences in the source, or zero. */
  lemma {:induction false} FilterCounts(items: seq<KeywordPoint>, frequency: int, categories: seq<string>, item: KeywordPoint)
    ensures multiset(FilterKeywords(items, frequency, categories))[item]
         == if Keep(item, frequency, categories) then multiset(items)[item] else 0
  {
    if items != [] {
      FilterCounts(items[1..], frequency, categories, item);
      assert items == [items[0]] + items[1..];
    }
  }

  /** Raising the minimum frequency never adds an item: the stricter result
      is a subsequence of the looser one. */
  lemma {:induction false} FrequencyMonotone(items: seq<KeywordPoint>, low: int, high: int, categories: seq<string>)
    requires low <= high
    ensures IsSubsequence(FilterKeywords(items, high, categories), FilterKeywords(items, low, categories))
  {
    if items != [] {
      FrequencyMonotone(items[1..], low, high, categories);
      var loose := FilterKeywords(items, low, categories);
      var strict := FilterKeywords(items, high, categories);
      var looseTail := FilterKeywords(items[1..], low, categories);
      var strictTail := FilterKeywords(items[1..], high, categories);
      if Keep(items[0], high, categories) {
        assert loose == [items[0]] + looseTail && strict == [items[0]] + strictTail;
        assert loose[1..] == looseTail && strict[1..] == strictTail;
      } else if Keep(items[0], low, categories) {
        assert loose == [items[0]] + looseTail && strict == strictTail;
        assert loose[1..] == looseTail;
      }
    }
  }

  /** Filtering is idempotent: a second pass with the same settings keeps
      everything the first pass kept. */
  lemma {:induction false} FilterIdempotent(items: seq<KeywordPoint>, frequency: int, categories: seq<string>)
    ensures FilterKeywords(FilterKeywords(items, frequency, categories), frequency, categories)
         == FilterKeywords(items, frequency, categories)
  {
    if items != [] {
      FilterIdempotent(items[1..], frequency, categories);
      var r := FilterKeywords(items, frequency, categories);
      if Keep(items[0], frequency, categories) {
        assert r[0] == items[0] && r[1..] == FilterKeywords(items[1..], frequency, categories);
      }
    }
  }

  /** When every item passes the predicate, the filter returns the list
      unchanged; with frequency 0 and "all" selected this holds for every
      list of non-negative counts. */
  lemma {:induction false} KeepsEverything(items: seq<KeywordPoint>, frequency: int, categories: seq<string>)
    requires forall i :: 0 <= i < |items| ==> Keep(items[i], frequency, categories)
    ensures FilterKeywords(items, frequency, categories) == items
  {
    if items != [] {
      KeepsEverything(items[1..], frequency, categories);
    }
  }

  /** A frequency above every count leaves nothing. */
  lemma {:induction false} DropsEverything(items: seq<KeywordPoint>, frequency: int, categories: seq<string>)
    requires forall i :: 0 <= i < |items| ==> items[i].count < frequency
    ensures FilterKeywords(items, frequency, categories) == []
  {
    if items != [] {
      DropsEverything(items[1..], frequency, categories);
    }
  }

  /** The records of category `category`, in source order: a reference
      definition built from the back of the list. */
  function OfCategory(items: seq<KeywordPoint>, category: string): seq<KeywordPoint>
  {
    if items == [] then []
    else
      var last := items[|items| - 1];
      OfCategory(items[..|items| - 1], category) + (if last.category == category then [last] else [])
  }

  /** With one specific category selected and a minimum frequency no
      higher than any count, the view is exactly the records of that
      category in source order. */
  lemma {:induction false} CategoryOnly(items: seq<KeywordPoint>, frequency: int, category: string)
    requires category != All
    requires forall i :: 0 <= i < |items| ==> items[i].count >= frequency
    ensures FilterKeywords(items, frequency, [category]) == OfCategory(items, category)
  {
    if items != [] {
      var n := |items| - 1;
      CategoryOnly(items[..n], frequency, category);
      assert items == items[..n] + [items[n]];
      FilterAppend(items[..n], [items[n]], frequency, [category]);
      assert [items[n]][1..] == [];
    }
  }

  /** Filtering one item in front of a list. */
  lemma {:induction false} FilterCons(item: KeywordPoint, rest: seq<KeywordPoint>, frequency: int, categories: seq<string>)
    ensures FilterKeywords([item] + rest, frequency, categories)
         == (if Keep(item, frequency, categories) then [item] else []) + FilterKeywords(rest, frequency, categories)
  {
    assert ([item] + rest)[1..] == rest;
  }

  /** The filter works item by item: filtering a concatenation is the
      concatenation of the filtered parts, so no item moves past another. */
  lemma {:induction false} FilterAppend(s: seq<KeywordPoint>, t: seq<KeywordPoint>, frequency: int, categories: seq<string>)
    ensures FilterKeywords(s + t, frequency, categories)
         == FilterKeywords(s, frequency, categories) + FilterKeywords(t, frequency, categories)
  {
    if s == [] {
      assert s + t == t;
    } else {
      assert (s + t)[1..] == s[1..] + t;
      FilterAppend(s[1..], t, frequency, categories);
    }
  }

  /** Every keyword of the dashboard's set is mentioned between 100 and
      350 times. */
  lemma MockCountsBounded(pos: nat -> (real, real))
    ensures forall i :: 0 <= i < |KeywordsData(pos)| ==> 100 <= KeywordsData(pos)[i].count <= 350
  {
  }

  /** 350 is also the top of the "Minimum Frequency" slider, so with every
      category selected the slider's maximum still shows "price". */
  lemma MockPriceAtMaximum(pos: nat -> (real, real))
    ensures KeywordsData(pos)[4].keyword == "price"
    ensures KeywordsData(pos)[4] in FilterKeywords(KeywordsData(pos), 350, [All])
  {
    var data := KeywordsData(pos);
    FilterMembers(data, 350, [All], data[4]);
  }

  /** On the dashboard's own keyword set, frequency 0 with "all" shows all
      twelve keywords in order, and a frequency above 350 shows none. */
  lemma MockKeywordExtremes(pos: nat -> (real, real), frequency: int)
    requires frequency > 350
    ensures FilterKeywords(KeywordsData(pos), 0, [All]) == KeywordsData(pos)
    ensures FilterKeywords(KeywordsData(pos), frequency, [All]) == []
  {
    var data := KeywordsData(pos);
    MockCountsBounded(pos);
    assert All in [All];
    KeepsEverything(data, 0, [All]);
    DropsEverything(data, frequency, [All]);
  }

  /** A twelve-item list whose food items sit at positions 3, 5, 7 and 11
      filters, for "food" alone, from position `k` on, to those of the four
      items at or after `k`, in that order. */
  lemma {:induction false} FoodPositions(s: seq<KeywordPoint>, food: seq<string>, k: nat)
    requires |s| == 12 && food == ["food"] && k <= 12
    requires forall i :: 0 <= i < |s| ==> s[i].count >= 0
    requires forall i :: 0 <= i < |s| ==> (s[i].category == "food" <==> i == 3 || i == 5 || i == 7 || i == 11)
    ensures FilterKeywords(s[k..], 0, food)
         == (if k <= 3 then [s[3]] else []) + (if k <= 5 then [s[5]] else [])
          + (if k <= 7 then [s[7]] else []) + (if k <= 11 then [s[11]] else [])
    decreases 12 - k
  {
    if k < 12 {
      FoodPositions(s, food, k + 1);
      assert s[k..] == [s[k]] + s[k + 1..];
      FilterCons(s[k], s[k + 1..], 0, food);
      assert Keep(s[k], 0, food) <==> k == 3 || k == 5 || k == 7 || k == 11;
    }
  }

  /** On the dashboard's own keyword set, selecting only "food" with
      frequency 0 shows the four food keywords in source order. */
  lemma MockFoodFilter(pos: nat -> (real, real))
    ensures KeywordNames(FilterKeywords(KeywordsData(pos), 0, ["food"])) == ["food", "menu", "taste", "portion"]
  {
    var data := KeywordsData(pos);
    MockCountsBounded(pos);
    assert forall i :: 0 <= i < |data| ==> (data[i].category == "food" <==> i == 3 || i == 5 || i == 7 || i == 11);
    FoodPositions(data, ["food"], 0);
    assert data[0..] == data;
  }
}
