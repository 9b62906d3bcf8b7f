/** The cosmetic filter bar of `FeatureIcons`: clicking an icon toggles its
    name in the list of selected filters, and the new list is posted to the
    filter service. */
module Filters {

  /** The icons shown, in display order; the only values a click can toggle. */
  const Icons: seq<string> := ["Lips", "Eye", "Brows", "Proportion", "Skin", "Face", "Eyeshadow"]

  /** `s.filter(f => f !== x)`. */
  function Without(s: seq<string>, x: string): (r: seq<string>)
    ensures x !in r
    ensures forall y :: y != x ==> (y in r <==> y in s)
    ensures |r| <= |s|
  {
    if s == [] then []
    else (if s[0] == x then [] else [s[0]]) + Without(s[1..], x)
  }

  /** Removing what is not there changes nothing. */
  lemma {:induction false} WithoutAbsent(s: seq<string>, x: string)
    requires x !in s
    ensures Without(s, x) == s
  {
    if s != [] {
      WithoutAbsent(s[1..], x);
      assert [s[0]] + s[1..] == s;
    }
  }

  /** Removal works piecewise, so the others keep their relative order. */
  lemma {:induction false} WithoutConcat(a: seq<string>, b: seq<string>, x: string)
    ensures Without(a + b, x) == Without(a, x) + Without(b, x)
  {
    if a == [] {
      assert a + b == b;
    } else {
      var head := if a[0] == x then [] else [a[0]];
      WithoutConcat(a[1..], b, x);
      assert (a + b)[0] == a[0];
      assert (a + b)[1..] == a[1..] + b;
      calc {
        Without(a + b, x);
        head + Without(a[1..] + b, x);
        head + (Without(a[1..], x) + Without(b, x));
        (head + Without(a[1..], x)) + Without(b, x);
      }
    }
  }

  /** The list after clicking `filter`. */
  function Toggle(selected: seq<string>, filter: string): (r: seq<string>)
    ensures filter in r <==> filter !in selected
    ensures forall y :: y != filter ==> (y in r <==> y in selected)
  {
    if filter in selected then Without(selected, filter) else selected + [filter]
  }

  /** An unselected filter is appended after the existing ones. */
  lemma ToggleAbsentAppends(selected: seq<string>, filter: string)
    requires filter !in selected
    ensures Toggle(selected, filter) == selected + [filter]
  {
  }

  /** A selected filter is removed, every occurrence of it, with the order of
      the rest kept: it is the list of the others around each occurrence. */
  lemma ToggleSelectedRemoves(before: seq<string>, after: seq<string>, filter: string)
    requires filter !in before && filter !in after
    ensures Toggle(before + [filter] + after, filter) == before + after
  {
    var s := before + [filter] + after;
    assert Toggle(s, filter) == Without(s, filter) by {
      assert s[|before|] == filter;
    }
    assert Without(s, filter) == Without(before + [filter], filter) + after by {
      WithoutConcat(before + [filter], after, filter);
      WithoutAbsent(after, filter);
    }
    assert Without(before + [filter], filter) == before by {
      WithoutConcat(before, [filter], filter);
      WithoutAbsent(before, filter);
      assert [filter][1..] == [];
      assert Without([filter], filter) == [];
      assert before + [] == before;
    }
  }

  /** Selecting and then deselecting a filter restores the list. */
  lemma ToggleTwiceRestores(selected: seq<string>, filter: string)
    requires filter !in selected
    ensures Toggle(Toggle(selected, filter), filter) == selected
  {
    ToggleSelectedRemoves(selected, [], filter);
    assert selected + [filter] + [] == selected + [filter];
    assert selected + [] == selected;
  }

  predicate NoDuplicates(s: seq<string>)
  {
    forall i, j :: 0 <= i < j < |s| ==> s[i] != s[j]
  }

  /** A list the bar can show: no name twice, every name an icon. */
  predicate WellFormed(selected: seq<string>)
  {
    NoDuplicates(selected) && forall f :: f in selected ==> f in Icons
  }

  lemma {:induction false} WithoutKeepsNoDuplicates(s: seq<string>, x: string)
    requires NoDuplicates(s)
    ensures NoDuplicates(Without(s, x))
  {
    if s != [] {
      WithoutKeepsNoDuplicates(s[1..], x);
      var rest := Without(s[1..], x);
      if s[0] != x {
        assert s[0] !in s[1..];
        assert s[0] !in rest;
        var r := [s[0]] + rest;
        forall i, j | 0 <= i < j < |r| ensures r[i] != r[j] {
          if i == 0 {
            assert r[j] == rest[j - 1];
            assert r[j] in rest;
          } else {
            assert r[i] == rest[i - 1] && r[j] == rest[j - 1];
          }
        }
      } else {
        assert Without(s, x) == [] + rest;
      }
    }
  }

  /** Clicking an icon keeps the list well formed. */
  lemma TogglePreservesWellFormed(selected: seq<string>, filter: string)
    requires WellFormed(selected) && filter in Icons
    ensures WellFormed(Toggle(selected, filter))
  {
    if filter in selected {
      WithoutKeepsNoDuplicates(selected, filter);
    } else {
      var r := selected + [filter];
      forall i, j | 0 <= i < j < |r| ensures r[i] != r[j] {
        if j == |selected| {
          assert r[i] in selected;
        }
      }
    }
  }

  /** The list after clicking the icons `clicks` in order. */
  function ToggleAll(selected: seq<string>, clicks: seq<string>): seq<string>
    decreases clicks
  {
    if clicks == [] then selected else ToggleAll(Toggle(selected, clicks[0]), clicks[1..])
  }

  /** Starting from no selection, any sequence of icon clicks leaves a list
      without duplicates whose names are all icons. */
  lemma {:induction false} ClicksKeepWellFormed(selected: seq<string>, clicks: seq<string>)
    requires WellFormed(selected)
    requires forall c :: c in clicks ==> c in Icons
    ensures WellFormed(ToggleAll(selected, clicks))
    decreases clicks
  {
    if clicks != [] {
      assert clicks[0] in clicks;
      TogglePreservesWellFormed(selected, clicks[0]);
      forall c | c in clicks[1..] ensures c in Icons {
        assert c in clicks;
      }
      ClicksKeepWellFormed(Toggle(selected, clicks[0]), clicks[1..]);
    }
  }

  /** The body posted to `/apply-filters`. */
  datatype ApplyFiltersRequest = ApplyFiltersRequest(filters: seq<string>)

  /** The component's state: the selected filters. */
  class FeatureIcons {
    var selectedFilters: seq<string>

    constructor ()
      ensures selectedFilters == []
    {
      selectedFilters := [];
    }

    /** A click on `filter`: replace the list and post the new one. Whether
        the post succeeds does not matter to the component. */
    method ToggleFilter(filter: string) returns (request: ApplyFiltersRequest)
      modifies this
      ensures selectedFilters == Toggle(old(selectedFilters), filter)
      ensures request == ApplyFiltersRequest(selectedFilters)
      ensures WellFormed(old(selectedFilters)) && filter in Icons ==> WellFormed(selectedFilters)
    {
      var isSelected := filter in selectedFilters;
      var newFilters := if isSelected then Without(selectedFilters, filter) else selectedFilters + [filter];
      if WellFormed(selectedFilters) && filter in Icons {
        TogglePreservesWellFormed(selectedFilters, filter);
      }
      selectedFilters := newFilters;
      request := ApplyFiltersRequest(newFilters);
    }
  }
}
