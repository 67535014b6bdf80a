/**
 * The featured-regions section of the home page: three placeholder cards while
 * loading, then a card for each of the first three regions (a 120-character
 * description preview, the first festival and a "+N more" badge) and an
 * "Explore All Regions" button when there are more regions than cards.
 */
module FeaturedRegions {
  import opened Wrappers
  import opened Strings
  import opened Seqs
  import opened RegionEntity

  const FeaturedCount := 3
  const PreviewLength := 120
  const PlaceholderCount := 3

  /** `regions.slice(0, 3)`. */
  function Featured(regions: seq<Region>): (r: seq<Region>)
    ensures |r| == if |regions| < FeaturedCount then |regions| else FeaturedCount
    ensures r <= regions
  {
    SlicePrefix(regions, FeaturedCount);
    Slice(regions, 0, FeaturedCount)
  }

  /** `description?.substring(0, 120)` followed by the literal "...". */
  function PreviewText(description: string): (r: string)
    ensures var n := if |description| < PreviewLength then |description| else PreviewLength;
            r == description[..n] + "..."
  {
    SubstringPrefix(description, PreviewLength);
    Substring(description, 0, PreviewLength) + "..."
  }

  /** The festival badges of a card: the first festival's name and the count behind "+N more". */
  datatype Badges = Badges(first: Option<string>, more: Option<nat>)

  function FestivalBadges(region: Region): (b: Badges)
    ensures b.first.Some? <==> |region.major_festivals| > 0
    ensures b.first.Some? ==> b.first.value == region.major_festivals[0].name
    ensures b.more.Some? <==> |region.major_festivals| > 1
    ensures b.more.Some? ==> b.first.Some? && b.more.value + 1 == |region.major_festivals|
  {
    var f := region.major_festivals;
    if |f| > 0 then Badges(Some(f[0].name), if |f| > 1 then Some(|f| - 1) else None)
    else Badges(None, None)
  }

  /** The "Explore All Regions" condition `regions.length > 3`: some region is not featured. */
  predicate ShowExploreAll(regions: seq<Region>): (b: bool)
    ensures b <==> |Featured(regions)| < |regions|
  {
    |regions| > FeaturedCount
  }

  datatype Card = Card(region: Region, preview: string, badges: Badges)

  datatype View = Loading(placeholders: nat) | Loaded(cards: seq<Card>, exploreAll: bool)

  function CardFor(region: Region): (c: Card) {
    Card(region, PreviewText(region.description), FestivalBadges(region))
  }

  /** What `FeaturedRegions` renders. */
  function Render(regions: seq<Region>, isLoading: bool): (v: View)
    ensures isLoading ==> v == Loading(PlaceholderCount)
    ensures !isLoading ==> v.Loaded? && v.exploreAll == ShowExploreAll(regions)
    ensures !isLoading ==> |v.cards| == if |regions| < FeaturedCount then |regions| else FeaturedCount
    ensures !isLoading ==> forall i :: 0 <= i < |v.cards| ==> v.cards[i] == CardFor(regions[i])
  {
    if isLoading then Loading(PlaceholderCount)
    else Loaded(seq(|Featured(regions)|, i requires 0 <= i < |Featured(regions)| => CardFor(Featured(regions)[i])),
                ShowExploreAll(regions))
  }
}
