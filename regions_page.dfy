/**
 * `filterRegions` of the Regions page: a case-insensitive search over a
 * region's name, description and primary language, followed by a filter on
 * the compass region, whose four branches test the region's name against a
 * fixed list of states.
 */
module RegionsPage {
  import opened Strings
  import opened Seqs
  import opened RegionEntity

  const NorthStates: seq<string> :=
    ["Punjab", "Haryana", "Delhi", "Uttar Pradesh", "Rajasthan", "Himachal Pradesh", "Uttarakhand", "Jammu & Kashmir"]
  const SouthStates: seq<string> := ["Karnataka", "Kerala", "Tamil Nadu", "Andhra Pradesh", "Telangana"]
  const EastStates: seq<string> :=
    ["West Bengal", "Odisha", "Bihar", "Jharkhand", "Assam", "Meghalaya", "Manipur", "Mizoram", "Nagaland",
     "Tripura", "Arunachal Pradesh", "Sikkim"]
  const WestStates: seq<string> := ["Maharashtra", "Gujarat", "Rajasthan", "Goa", "Madhya Pradesh"]

  /** The search test: the lowercased term occurs in the lowercased name, description or primary language. */
  predicate MatchesSearch(r: Region, term: string): (b: bool)
    ensures term == "" ==> b
  {
    IncludesEmpty(ToLower(r.name));
    var t := ToLower(term);
    Includes(ToLower(r.name), t) || Includes(ToLower(r.description), t) || Includes(ToLower(r.primary_language), t)
  }

  /** `states.some(state => name.toLowerCase().includes(state.toLowerCase()))`. */
  predicate NamesSomeState(r: Region, states: seq<string>) {
    exists st :: st in states && Includes(ToLower(r.name), ToLower(st))
  }

  /** The `switch (selectedFilter)` test; an unrecognised filter value keeps every region. */
  predicate InCompass(r: Region, selectedFilter: string): (b: bool)
    ensures selectedFilter !in {"north", "south", "east", "west"} ==> b
  {
    if selectedFilter == "north" then NamesSomeState(r, NorthStates)
    else if selectedFilter == "south" then NamesSomeState(r, SouthStates)
    else if selectedFilter == "east" then NamesSomeState(r, EastStates)
    else if selectedFilter == "west" then NamesSomeState(r, WestStates)
    else true
  }

  /** The single-pass reference: a region is kept when it passes both tests. */
  predicate Kept(r: Region, searchTerm: string, selectedFilter: string) {
    MatchesSearch(r, searchTerm) && InCompass(r, selectedFilter)
  }

  /**
   * `filterRegions`: skips the search for an empty term and the compass filter
   * for "all", so no search term with filter "all" shows every region, in order.
   */
  function FilterRegions(regions: seq<Region>, searchTerm: string, selectedFilter: string): (r: seq<Region>)
    ensures |r| <= |regions|
    ensures searchTerm == "" && selectedFilter == "all" ==> r == regions
  {
    var bySearch := if searchTerm != "" then Filter(x => MatchesSearch(x, searchTerm), regions) else regions;
    if selectedFilter != "all" then Filter(x => InCompass(x, selectedFilter), bySearch) else bySearch
  }

  /** The two guarded passes equal one filter by `Kept`: skipping a pass never loses or keeps anything extra. */
  lemma FilterRegionsIsOneFilter(regions: seq<Region>, searchTerm: string, selectedFilter: string)
    ensures FilterRegions(regions, searchTerm, selectedFilter) == Filter(x => Kept(x, searchTerm, selectedFilter), regions)
  {
    var search := x => MatchesSearch(x, searchTerm);
    var compass := x => InCompass(x, selectedFilter);
    var bySearch := if searchTerm != "" then Filter(search, regions) else regions;
    if searchTerm == "" {
      assert forall i :: 0 <= i < |regions| ==> search(regions[i]);
      FilterKeepsAll(search, regions);
    }
    assert bySearch == Filter(search, regions);
    var result := if selectedFilter != "all" then Filter(compass, bySearch) else bySearch;
    assert A: FilterRegions(regions, searchTerm, selectedFilter) == result;
    if selectedFilter == "all" {
      FilterKeepsAll(compass, bySearch);
    }
    assert B: result == Filter(compass, Filter(search, regions));
    FilterCompose(search, compass, x => Kept(x, searchTerm, selectedFilter), regions);
  }

  /** Soundness and completeness: a region is in the result exactly when it is in the input and passes both tests. */
  lemma FilterRegionsMembership(regions: seq<Region>, searchTerm: string, selectedFilter: string, x: Region)
    ensures x in FilterRegions(regions, searchTerm, selectedFilter) <==>
            x in regions && MatchesSearch(x, searchTerm) && InCompass(x, selectedFilter)
  {
    FilterRegionsIsOneFilter(regions, searchTerm, selectedFilter);
    FilterMembership(x => Kept(x, searchTerm, selectedFilter), regions, x);
  }

  /** The result keeps the input's order: it is `regions` with some regions dropped. */
  lemma FilterRegionsSubsequence(regions: seq<Region>, searchTerm: string, selectedFilter: string)
    ensures IsSubsequence(FilterRegions(regions, searchTerm, selectedFilter), regions)
  {
    FilterRegionsIsOneFilter(regions, searchTerm, selectedFilter);
    FilterIsSubsequence(x => Kept(x, searchTerm, selectedFilter), regions);
  }

  /** A filter value other than the four compass names filters nothing. */
  lemma UnknownFilterKeepsAll(regions: seq<Region>, searchTerm: string, selectedFilter: string)
    requires selectedFilter !in {"north", "south", "east", "west"}
    ensures FilterRegions(regions, searchTerm, selectedFilter) == FilterRegions(regions, searchTerm, "all")
  {
    var search := x => MatchesSearch(x, searchTerm);
    var bySearch := if searchTerm != "" then Filter(search, regions) else regions;
    if selectedFilter != "all" {
      FilterKeepsAll(x => InCompass(x, selectedFilter), bySearch);
    }
  }

  /** Filtering the page's own result again with the same term and filter changes nothing. */
  lemma FilterRegionsIdempotent(regions: seq<Region>, searchTerm: string, selectedFilter: string)
    ensures FilterRegions(FilterRegions(regions, searchTerm, selectedFilter), searchTerm, selectedFilter) ==
            FilterRegions(regions, searchTerm, selectedFilter)
  {
    var kept := x => Kept(x, searchTerm, selectedFilter);
    var once := FilterRegions(regions, searchTerm, selectedFilter);
    FilterRegionsIsOneFilter(regions, searchTerm, selectedFilter);
    FilterRegionsIsOneFilter(once, searchTerm, selectedFilter);
    FilterIdempotent(kept, regions);
  }

  /** Rajasthan is in both the north and the west list, so a region named after it passes both filters. */
  lemma RajasthanIsNorthAndWest(r: Region)
    requires Includes(ToLower(r.name), "rajasthan")
    ensures InCompass(r, "north") && InCompass(r, "west")
  {
    assert ToLower("Rajasthan") == "rajasthan";
    assert "Rajasthan" in NorthStates && "Rajasthan" in WestStates;
  }
}
