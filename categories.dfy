/** The category selection behind the "Categories" buttons: a list of
    category names that starts as ["all"]. */
module Categories {
  import opened Sequences

  /** The selection value that stands for every category. */
  const All: string := "all"

  /** The selection the dashboard starts with. */
  const Initial: seq<string> := [All]

  /** No name occurs twice in `s`. */
  predicate NoDuplicates(s: seq<string>) {
    forall i, j :: 0 <= i < j < |s| ==> s[i] != s[j]
  }

  /** The selection invariant: exactly ["all"], or a non-empty list of
      distinct specific categories. */
  predicate ValidSelection(s: seq<string>) {
    s == [All] || (|s| > 0 && All !in s && NoDuplicates(s))
  }

  /** `list.filter(c => c !== name)`: every occurrence of `name` goes, the
      rest keep their order. */
  function Without(s: seq<string>, name: string): (r: seq<string>)
    ensures forall c :: c in r <==> c in s && c != name
    ensures IsSubsequence(r, s)
    ensures NoDuplicates(s) ==> NoDuplicates(r)
    ensures |r| <= |s|
  {
    if s == [] then []
    else if s[0] == name then Without(s[1..], name)
    else
      var rest := Without(s[1..], name);
      assert NoDuplicates(s) ==> s[0] !in s[1..] && NoDuplicates(s[1..]) by {
        if NoDuplicates(s) {
          forall k | 0 <= k < |s[1..]| ensures s[1..][k] != s[0] {
            assert s[1..][k] == s[k + 1];
          }
        }
      }
      [s[0]] + rest
  }

  /** Removing a name that does not occur changes nothing. */
  lemma {:induction false} WithoutAbsent(s: seq<string>, name: string)
    requires name !in s
    ensures Without(s, name) == s
  {
    if s != [] {
      WithoutAbsent(s[1..], name);
    }
  }

  /** `handleCategorySelect(category)` as a transition on the selection:
      "all" resets it; a specific category already selected is removed;
      otherwise "all" is dropped and the category is appended; an empty
      result becomes ["all"]. For any starting list, the chosen category
      ends up selected exactly when it was not selected before, and every
      other specific category keeps its selection. */
  function NextSelection(current: seq<string>, category: string): (r: seq<string>)
    ensures r != []
    ensures category == All ==> r == [All]
    ensures category != All ==> (category in r <==> category !in current)
    ensures category != All && category !in current ==> r[|r| - 1] == category
    ensures category != All ==> forall c :: c != category && c != All ==> (c in r <==> c in current)
  {
    if category == All then [All]
    else
      var next := if category in current then Without(current, category)
                  else Without(current, All) + [category];
      if |next| > 0 then next else [All]
  }

  /** Every transition keeps the selection invariant. */
  lemma NextSelectionValid(current: seq<string>, category: string)
    requires ValidSelection(current)
    ensures ValidSelection(NextSelection(current, category))
  {
    if category != All {
      var r := NextSelection(current, category);
      if category in current {
        assert current != [All];
      } else if r != [All] {
        var w := Without(current, All);
        assert NoDuplicates(w);
        assert r == w + [category];
        forall i, j | 0 <= i < j < |r| ensures r[i] != r[j] {
          if j == |r| - 1 {
            assert r[i] in w;
          }
        }
      }
    }
  }

  /** The selection reached from the initial one by a sequence of clicks. */
  function Replay(clicks: seq<string>): seq<string>
  {
    if clicks == [] then Initial
    else NextSelection(Replay(clicks[..|clicks| - 1]), clicks[|clicks| - 1])
  }

  /** Starting from ["all"], every sequence of clicks leaves a selection
      that is non-empty, holds "all" only as ["all"], and has no duplicates. */
  lemma {:induction false} ReplayValid(clicks: seq<string>)
    ensures ValidSelection(Replay(clicks))
  {
    if clicks != [] {
      ReplayValid(clicks[..|clicks| - 1]);
      NextSelectionValid(Replay(clicks[..|clicks| - 1]), clicks[|clicks| - 1]);
    }
  }

  /** Clicking the same specific category twice gives back the same set
      of selected categories; when it was not selected to begin with, the
      very same list. */
  lemma ToggleTwice(current: seq<string>, category: string)
    requires ValidSelection(current) && category != All
    ensures forall c :: c in NextSelection(NextSelection(current, category), category) <==> c in current
    ensures category !in current ==> NextSelection(NextSelection(current, category), category) == current
  {
    var once := NextSelection(current, category);
    var twice := NextSelection(once, category);
    if category !in current {
      var w := Without(current, All);
      assert once == w + [category];
      assert category !in w;
      WithoutAbsent(w, category);
      assert Without(once, category) == w by {
        assert once == w + [category];
        WithoutAppend(w, [category], category);
      }
      if current == [All] {
        assert w == [];
      } else {
        WithoutAbsent(current, All);
      }
    } else {
      assert current != [All];
    }
  }

  /** Removing a name from a concatenation removes it from both parts. */
  lemma {:induction false} WithoutAppend(s: seq<string>, t: seq<string>, name: string)
    ensures Without(s + t, name) == Without(s, name) + Without(t, name)
  {
    if s == [] {
      assert s + t == t;
    } else {
      assert (s + t)[1..] == s[1..] + t;
      WithoutAppend(s[1..], t, name);
    }
  }
}
