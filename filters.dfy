/**
 The category and region filters of the race list: the fixed option lists
 and the defaults derived from them (src/components/App/App.jsx:54-62), the
 result filter (src/components/App/App.jsx:154-166) and the toggle of one
 value in a filter list (src/components/App/App.jsx:168-194).
 */
module Filters {
  import opened Wrappers
  import opened Seqs

  /** A race as returned by the race service; `region` may be absent. `details` holds the fields the list displays. */
  datatype Race = Race(category: string, region: Option<string>, details: map<string, string>)

  /** The only category whose races are also filtered by region. */
  const GoldCup: string := "Gold Cup"

  const Practice: string := "Practice"

  const CategoryFilterOptions: seq<string> := ["National", GoldCup, "State", "Multi", Practice]

  const RegionFilterOptions: seq<string> :=
    ["North West", "South West", "North Central", "South Central", "North East", "South East"]

  /** A copy of the category options with the last one popped off. */
  function DefaultCategoryFilters(): (d: seq<string>)
    ensures forall c :: c in d <==> c in CategoryFilterOptions && c != Practice
  {
    CategoryFilterOptions[..|CategoryFilterOptions| - 1]
  }

  /** A copy of all region options. */
  function DefaultRegionFilters(): (d: seq<string>)
    ensures forall r :: r in d <==> r in RegionFilterOptions
  {
    RegionFilterOptions[..]
  }

  /** The predicate handed to `filter`: Gold Cup races need their category and their region selected, others their category. */
  predicate Keep(race: Race, categoryFilters: seq<string>, regionFilters: seq<string>)
    ensures Keep(race, categoryFilters, regionFilters) <==>
            race.category in categoryFilters &&
            (race.category == GoldCup ==> race.region.Some? && race.region.value in regionFilters)
  {
    if race.category == GoldCup then
      IndexOf(categoryFilters, race.category) >= 0 &&
      race.region.Some? && IndexOf(regionFilters, race.region.value) >= 0
    else
      IndexOf(categoryFilters, race.category) >= 0
  }

  function Keeps(categoryFilters: seq<string>, regionFilters: seq<string>): Race -> bool {
    (race: Race) => Keep(race, categoryFilters, regionFilters)
  }

  /** `filterResults`: the races of `results` that the current filters let through, in their order. */
  function FilterResults(results: seq<Race>, categoryFilters: seq<string>, regionFilters: seq<string>): (r: seq<Race>)
    ensures |r| <= |results|
    ensures results == [] ==> r == []
  {
    Filter(results, Keeps(categoryFilters, regionFilters))
  }

  /** A race is shown exactly when it was returned, its category is selected and, for Gold Cup, its region is selected. */
  lemma FilterResultsExactly(results: seq<Race>, categoryFilters: seq<string>, regionFilters: seq<string>, race: Race)
    ensures race in FilterResults(results, categoryFilters, regionFilters) <==>
            race in results && race.category in categoryFilters &&
            (race.category == GoldCup ==> race.region.Some? && race.region.value in regionFilters)
  {
    FilterMembership(results, Keeps(categoryFilters, regionFilters), race);
  }

  /** A shown race is shown as many times as it was returned; a hidden race not at all. */
  lemma FilterResultsMultiplicity(results: seq<Race>, categoryFilters: seq<string>, regionFilters: seq<string>, race: Race)
    ensures multiset(FilterResults(results, categoryFilters, regionFilters))[race] ==
            if Keep(race, categoryFilters, regionFilters) then multiset(results)[race] else 0
  {
    FilterMultiplicity(results, Keeps(categoryFilters, regionFilters), race);
  }

  /** The filter is stable: its output keeps the input order. */
  lemma FilterResultsInOrder(results: seq<Race>, categoryFilters: seq<string>, regionFilters: seq<string>)
    ensures IsSubsequence(FilterResults(results, categoryFilters, regionFilters), results)
  {
    FilterIsSubsequence(results, Keeps(categoryFilters, regionFilters));
  }

  /** Filtering two result lists one after the other gives the filtered lists one after the other. */
  lemma FilterResultsConcat(a: seq<Race>, b: seq<Race>, categoryFilters: seq<string>, regionFilters: seq<string>)
    ensures FilterResults(a + b, categoryFilters, regionFilters) ==
            FilterResults(a, categoryFilters, regionFilters) + FilterResults(b, categoryFilters, regionFilters)
  {
    FilterConcat(a, b, Keeps(categoryFilters, regionFilters));
  }

  /** Re-filtering an already filtered list changes nothing. */
  lemma FilterResultsIdempotent(results: seq<Race>, categoryFilters: seq<string>, regionFilters: seq<string>)
    ensures FilterResults(FilterResults(results, categoryFilters, regionFilters), categoryFilters, regionFilters) ==
            FilterResults(results, categoryFilters, regionFilters)
  {
    FilterIdempotent(results, Keeps(categoryFilters, regionFilters));
  }

  /** Under the default category filters a practice race is hidden, and a North East Gold Cup race is shown exactly when North East is selected. */
  lemma DefaultCategoryFiltersExample(regionFilters: seq<string>, details: map<string, string>)
    ensures !Keep(Race(Practice, None, details), DefaultCategoryFilters(), regionFilters)
    ensures Keep(Race(GoldCup, Some("North East"), details), DefaultCategoryFilters(), regionFilters) <==>
            "North East" in regionFilters
  {
    assert GoldCup in DefaultCategoryFilters();
  }

  /**
   The toggle: when `x` occurs, a copy with its first occurrence spliced out;
   otherwise `x` appended at the end.
   */
  function Toggled(s: seq<string>, x: string): (t: seq<string>)
    ensures x !in s ==> t == s + [x]
    ensures x in s ==> |t| == |s| - 1 &&
                       forall j :: 0 <= j < |t| ==> t[j] == (if j < IndexOf(s, x) then s[j] else s[j + 1])
    ensures multiset(t) == if x in s then multiset(s) - multiset{x} else multiset(s) + multiset{x}
  {
    var i := IndexOf(s, x);
    if i >= 0 then
      assert s == s[..i] + [x] + s[i + 1..];
      s[..i] + s[i + 1..]
    else
      s + [x]
  }

  /** No value occurs twice. */
  ghost predicate NoDuplicates(s: seq<string>) {
    forall y :: multiset(s)[y] <= 1
  }

  /** Putting an absent value in front of a list without duplicates keeps it so. */
  lemma NoDuplicatesCons(x: string, s: seq<string>)
    requires NoDuplicates(s) && x !in s
    ensures NoDuplicates([x] + s)
  {
    assert multiset([x] + s) == multiset{x} + multiset(s);
  }

  /** The default category list has no duplicates. */
  lemma DefaultCategoryFiltersNoDuplicates()
    ensures NoDuplicates(DefaultCategoryFilters())
  {
    NoDuplicatesCons("Multi", []);
    NoDuplicatesCons("State", ["Multi"]);
    NoDuplicatesCons(GoldCup, ["State", "Multi"]);
    NoDuplicatesCons("National", [GoldCup, "State", "Multi"]);
    assert DefaultCategoryFilters() == ["National"] + [GoldCup, "State", "Multi"];
  }

  /** The default region list has no duplicates. */
  lemma DefaultRegionFiltersNoDuplicates()
    ensures NoDuplicates(DefaultRegionFilters())
  {
    var l1 := ["South East"];
    var l2 := ["North East"] + l1;
    var l3 := ["South Central"] + l2;
    var l4 := ["North Central"] + l3;
    var l5 := ["South West"] + l4;
    assert NoDuplicates(l1) by { NoDuplicatesCons("South East", []); assert l1 == ["South East"] + []; }
    assert NoDuplicates(l2) by { NoDuplicatesCons("North East", l1); }
    assert NoDuplicates(l3) by { NoDuplicatesCons("South Central", l2); }
    assert NoDuplicates(l4) by { NoDuplicatesCons("North Central", l3); }
    assert NoDuplicates(l5) by { NoDuplicatesCons("South West", l4); }
    NoDuplicatesCons("North West", l5);
    assert DefaultRegionFilters() == ["North West"] + l5;
  }

  /** A toggle always changes the list (its length changes by one). */
  lemma ToggledDiffers(s: seq<string>, x: string)
    ensures Toggled(s, x) != s
  {
    assert |Toggled(s, x)| != |s|;
  }

  /** When `x` occurs at most once, a toggle flips whether it occurs; every other value keeps its multiplicity. */
  lemma ToggleFlipsMembership(s: seq<string>, x: string)
    requires multiset(s)[x] <= 1
    ensures x in Toggled(s, x) <==> x !in s
    ensures forall y :: y != x ==> multiset(Toggled(s, x))[y] == multiset(s)[y]
  {
  }

  /** Toggles keep a list free of duplicates. */
  lemma ToggleKeepsNoDuplicates(s: seq<string>, x: string)
    requires NoDuplicates(s)
    ensures NoDuplicates(Toggled(s, x))
  {
  }

  /** Toggling an absent value twice restores the list exactly. */
  lemma ToggleTwiceAbsent(s: seq<string>, x: string)
    requires x !in s
    ensures Toggled(Toggled(s, x), x) == s
  {
    var t := s + [x];
    var i := IndexOf(t, x);
    assert i == |s|;
    assert t[..i] == s;
  }

  /** Toggling a value present once twice restores the contents but moves the value to the end. */
  lemma ToggleTwicePresent(s: seq<string>, x: string)
    requires multiset(s)[x] == 1
    ensures Toggled(Toggled(s, x), x) == Toggled(s, x) + [x]
    ensures multiset(Toggled(Toggled(s, x), x)) == multiset(s)
  {
    assert x in s;
    assert multiset(Toggled(s, x))[x] == 0;
  }
}
