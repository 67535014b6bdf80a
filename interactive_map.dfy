/**
 * The India map on the home page: a fixed table of map points, the lookup
 * `getRegionData` that pairs a point with a region by name containment in
 * either direction, and the click guard that selects the paired region.
 */
module InteractiveMap {
  import opened Wrappers
  import opened Strings
  import opened Seqs
  import opened RegionEntity

  datatype Position = Position(top: string, left: string)

  datatype MapRegion = MapRegion(name: string, position: Position)

  const MapRegions: seq<MapRegion> := [
    MapRegion("Jammu & Kashmir", Position("10%", "30%")),
    MapRegion("Punjab", Position("20%", "25%")),
    MapRegion("Rajasthan", Position("30%", "20%")),
    MapRegion("Gujarat", Position("40%", "15%")),
    MapRegion("Maharashtra", Position("50%", "25%")),
    MapRegion("Karnataka", Position("65%", "30%")),
    MapRegion("Kerala", Position("75%", "25%")),
    MapRegion("Tamil Nadu", Position("75%", "35%")),
    MapRegion("Uttar Pradesh", Position("35%", "40%")),
    MapRegion("Madhya Pradesh", Position("45%", "35%")),
    MapRegion("Bihar", Position("35%", "50%")),
    MapRegion("West Bengal", Position("45%", "55%")),
    MapRegion("Odisha", Position("55%", "50%")),
    MapRegion("Andhra Pradesh", Position("65%", "45%")),
    MapRegion("Assam", Position("25%", "65%")),
    MapRegion("Nagaland", Position("20%", "70%"))
  ]

  /** The map points are keyed by name, so the sixteen names must be pairwise distinct. */
  lemma MapRegionNamesDistinct()
    ensures |MapRegions| == 16
    ensures forall i, j :: 0 <= i < j < |MapRegions| ==> MapRegions[i].name != MapRegions[j].name
  {
  }

  /** The region's lowercased name contains the lowercased map name. */
  predicate NameCovers(r: Region, mapRegionName: string) {
    Includes(ToLower(r.name), ToLower(mapRegionName))
  }

  /** The lowercased map name contains the region's lowercased name. */
  predicate NameCoveredBy(r: Region, mapRegionName: string) {
    Includes(ToLower(mapRegionName), ToLower(r.name))
  }

  /** `getRegionData`: the first region covering the map name, else the first one covered by it, else `undefined`. */
  function GetRegionData(regions: seq<Region>, mapRegionName: string): (r: Option<Region>)
    ensures r.Some? ==> r.value in regions &&
                        (NameCovers(r.value, mapRegionName) || NameCoveredBy(r.value, mapRegionName))
    ensures (exists i :: 0 <= i < |regions| && NameCovers(regions[i], mapRegionName)) ==>
              exists i :: 0 <= i < |regions| && r == Some(regions[i]) && NameCovers(regions[i], mapRegionName) &&
                          forall j :: 0 <= j < i ==> !NameCovers(regions[j], mapRegionName)
    ensures (forall i :: 0 <= i < |regions| ==> !NameCovers(regions[i], mapRegionName)) &&
            (exists i :: 0 <= i < |regions| && NameCoveredBy(regions[i], mapRegionName)) ==>
              exists i :: 0 <= i < |regions| && r == Some(regions[i]) && NameCoveredBy(regions[i], mapRegionName) &&
                          forall j :: 0 <= j < i ==> !NameCoveredBy(regions[j], mapRegionName)
    ensures r.None? <==> forall i :: 0 <= i < |regions| ==>
                           !NameCovers(regions[i], mapRegionName) && !NameCoveredBy(regions[i], mapRegionName)
  {
    var covering := Find(x => NameCovers(x, mapRegionName), regions);
    if covering.Some? then covering else Find(x => NameCoveredBy(x, mapRegionName), regions)
  }

  /** With no regions loaded, no map point has data. */
  lemma NoRegionsNoData(mapRegionName: string)
    ensures GetRegionData([], mapRegionName) == None
  {
  }

  /** What a click on a map point does: nothing, or `onRegionSelect(region)`. */
  datatype ClickEffect = NoCall | Select(region: Region)

  /** The click handler `regionData && onRegionSelect(regionData)`. */
  function OnClick(regions: seq<Region>, mapRegionName: string): (e: ClickEffect)
    ensures e.Select? <==> GetRegionData(regions, mapRegionName).Some?
    ensures e.Select? ==> e.region in regions && GetRegionData(regions, mapRegionName) == Some(e.region)
  {
    match GetRegionData(regions, mapRegionName)
    case None => NoCall
    case Some(region) => Select(region)
  }
}
