/**
 * The Discover page: a region picked at random from the loaded list after a
 * one-second shuffle, and a random fact about the current discovery drawn from
 * up to four candidates (festival, cuisine, art form, languages).
 *
 * Every `Math.random()` draw is an argument: a real number in [0, 1).
 */
module Discover {
  import opened Wrappers
  import opened Strings
  import opened Seqs
  import opened RegionEntity

  /** `Math.floor(Math.random() * n)` for the draw `r`. */
  function RandomIndex(r: real, n: nat): (i: nat)
    requires 0.0 <= r < 1.0
    ensures n > 0 ==> i < n
    ensures n == 0 ==> i == 0
  {
    var x := n as real;
    assert 0.0 <= r * x by { assert r >= 0.0 && x >= 0.0; }
    assert n > 0 ==> r * x < x by {
      if n > 0 { assert (1.0 - r) * x > 0.0; assert x - r * x == (1.0 - r) * x; }
    }
    (r * x).Floor
  }

  datatype FactKind = FestivalSpotlight | CulinaryDelight | ArtisticHeritage | LanguageDiversity

  /** The position of a kind in the order the candidates are pushed. */
  function Rank(k: FactKind): (n: nat) {
    match k
    case FestivalSpotlight => 0
    case CulinaryDelight => 1
    case ArtisticHeritage => 2
    case LanguageDiversity => 3
  }

  /** A fact card; `kind` stands for the card's icon. */
  datatype Fact = Fact(kind: FactKind, title: string, content: string, detail: string, color: string)

  /** The four `Math.random()` draws one call of `getRandomFact` can make. */
  datatype Draws = Draws(festival: real, dish: real, art: real, fact: real)

  predicate ValidDraws(d: Draws) {
    0.0 <= d.festival < 1.0 && 0.0 <= d.dish < 1.0 && 0.0 <= d.art < 1.0 && 0.0 <= d.fact < 1.0
  }

  /** `additionalLangs`: the region's languages other than its primary one. */
  function AdditionalLangs(region: Region): (r: seq<string>)
    ensures |r| <= |region.languages|
    ensures forall i :: 0 <= i < |r| ==> r[i] != region.primary_language
  {
    FilterAllPass(lang => lang != region.primary_language, region.languages);
    Filter(lang => lang != region.primary_language, region.languages)
  }

  /** The additional languages are, in order, exactly the languages that differ from the primary one. */
  lemma AdditionalLangsSpec(region: Region)
    ensures IsSubsequence(AdditionalLangs(region), region.languages)
    ensures forall lang :: lang in AdditionalLangs(region) <==> lang in region.languages && lang != region.primary_language
  {
    FilterIsSubsequence(lang => lang != region.primary_language, region.languages);
    forall lang ensures lang in AdditionalLangs(region) <==> lang in region.languages && lang != region.primary_language {
      FilterMembership(lang => lang != region.primary_language, region.languages, lang);
    }
  }

  function FestivalFact(region: Region, festival: Festival): (f: Fact) {
    Fact(FestivalSpotlight, "Festival Spotlight", festival.name + " is celebrated in " + region.name,
         festival.description, "text-[#FF6B35]")
  }

  function CuisineFact(region: Region, cuisine: Cuisine, dish: string): (f: Fact) {
    Fact(CulinaryDelight, "Culinary Delight", dish + " is a signature dish of " + region.name,
         cuisine.cooking_style + " cooking style", "text-[#2D5A27]")
  }

  function ArtFact(region: Region, art: ArtForm): (f: Fact) {
    Fact(ArtisticHeritage, "Artistic Heritage", art.name + " is a traditional " + art.kind + " from " + region.name,
         art.description, "text-[#005F8C]")
  }

  function LanguageFact(region: Region, additional: seq<string>): (f: Fact) {
    Fact(LanguageDiversity, "Language Diversity",
         "Besides " + region.primary_language + ", people in " + region.name + " also speak " + Join(additional, ", "),
         NatToString(|region.languages|) + " languages spoken", "text-[#DAA520]")
  }

  function Dishes(region: Region): (r: seq<string>) {
    match region.cuisine
    case None => []
    case Some(c) => c.signature_dishes
  }

  /** The candidate facts as one expression: each kind contributes one fact when its data is present. */
  function Candidates(region: Region, d: Draws): (r: seq<Fact>)
    requires ValidDraws(d)
    ensures |r| <= 4
    ensures r == [] <==> region.major_festivals == [] && Dishes(region) == [] && region.art_forms == [] &&
                         AdditionalLangs(region) == []
  {
    var festivals, dishes, arts := region.major_festivals, Dishes(region), region.art_forms;
    (if |festivals| > 0 then [FestivalFact(region, festivals[RandomIndex(d.festival, |festivals|)])] else []) +
    (if |dishes| > 0 then [CuisineFact(region, region.cuisine.value, dishes[RandomIndex(d.dish, |dishes|)])] else []) +
    (if |arts| > 0 then [ArtFact(region, arts[RandomIndex(d.art, |arts|)])] else []) +
    (if |AdditionalLangs(region)| > 0 then [LanguageFact(region, AdditionalLangs(region))] else [])
  }

  predicate HasKind(facts: seq<Fact>, k: FactKind) {
    exists i :: 0 <= i < |facts| && facts[i].kind == k
  }

  /** Each kind at most once, always in the order festival, cuisine, art, language. */
  lemma CandidatesOrdered(region: Region, d: Draws)
    requires ValidDraws(d)
    ensures forall i, j :: 0 <= i < j < |Candidates(region, d)| ==>
              Rank(Candidates(region, d)[i].kind) < Rank(Candidates(region, d)[j].kind)
  {
  }

  /** Which kinds are offered: each exactly when the region has the data for it. */
  lemma CandidatesKinds(region: Region, d: Draws)
    requires ValidDraws(d)
    ensures HasKind(Candidates(region, d), FestivalSpotlight) <==> |region.major_festivals| > 0
    ensures HasKind(Candidates(region, d), CulinaryDelight) <==> |Dishes(region)| > 0
    ensures HasKind(Candidates(region, d), ArtisticHeritage) <==> |region.art_forms| > 0
    ensures HasKind(Candidates(region, d), LanguageDiversity) <==> |AdditionalLangs(region)| > 0
  {
    var c := Candidates(region, d);
    var n0 := if |region.major_festivals| > 0 then 1 else 0;
    var n1 := n0 + if |Dishes(region)| > 0 then 1 else 0;
    var n2 := n1 + if |region.art_forms| > 0 then 1 else 0;
    if |region.major_festivals| > 0 { assert c[0].kind == FestivalSpotlight; }
    if |Dishes(region)| > 0 { assert c[n0].kind == CulinaryDelight; }
    if |region.art_forms| > 0 { assert c[n1].kind == ArtisticHeritage; }
    if |AdditionalLangs(region)| > 0 { assert c[n2].kind == LanguageDiversity; }
  }

  /** The language fact reports the number of all languages, the primary one included. */
  lemma LanguageFactCountsAll(region: Region, d: Draws)
    requires ValidDraws(d)
    ensures forall i :: 0 <= i < |Candidates(region, d)| && Candidates(region, d)[i].kind == LanguageDiversity ==>
              Candidates(region, d)[i].detail == NatToString(|region.languages|) + " languages spoken"
  {
  }

  /** The body of `getRandomFact` up to the final pick: the `facts` array built by successive pushes. */
  method CollectFacts(region: Region, d: Draws) returns (facts: seq<Fact>)
    requires ValidDraws(d)
    ensures facts == Candidates(region, d)
  {
    facts := [];
    if |region.major_festivals| > 0 {
      var festival := region.major_festivals[RandomIndex(d.festival, |region.major_festivals|)];
      facts := facts + [FestivalFact(region, festival)];
    }
    if region.cuisine.Some? && |region.cuisine.value.signature_dishes| > 0 {
      var dishes := region.cuisine.value.signature_dishes;
      var dish := dishes[RandomIndex(d.dish, |dishes|)];
      facts := facts + [CuisineFact(region, region.cuisine.value, dish)];
    }
    if |region.art_forms| > 0 {
      var art := region.art_forms[RandomIndex(d.art, |region.art_forms|)];
      facts := facts + [ArtFact(region, art)];
    }
    if |region.languages| > 0 {
      var additionalLangs := AdditionalLangs(region);
      if |additionalLangs| > 0 {
        facts := facts + [LanguageFact(region, additionalLangs)];
      }
    }
  }

  /** The callback a shuffle leaves pending: it carries the list `pickRandomRegion` was given. */
  datatype ShuffleTimer = ShuffleTimer(regionList: seq<Region>)

  class DiscoverPage {
    var regions: seq<Region>
    var currentDiscovery: Option<Region>
    var isLoading: bool
    var isShuffling: bool

    constructor ()
      ensures regions == [] && currentDiscovery == None && isLoading && !isShuffling
    {
      regions := [];
      currentDiscovery := None;
      isLoading := true;
      isShuffling := false;
    }

    /** `pickRandomRegion`: an empty list changes nothing; otherwise shuffling starts and a timer is scheduled. */
    method PickRandomRegion(regionList: seq<Region>) returns (timer: Option<ShuffleTimer>)
      modifies this
      ensures regionList == [] ==> timer == None && unchanged(this)
      ensures regionList != [] ==> timer == Some(ShuffleTimer(regionList)) && isShuffling
      ensures regions == old(regions) && currentDiscovery == old(currentDiscovery) && isLoading == old(isLoading)
    {
      if |regionList| == 0 {
        return None;
      }
      isShuffling := true;
      timer := Some(ShuffleTimer(regionList));
    }

    /**
     * The "Discover" button, `pickRandomRegion()`: the default argument is the
     * loaded `regions`. The button is shown only once loading has ended and is
     * disabled while a shuffle is pending.
     */
    method ClickDiscover() returns (timer: Option<ShuffleTimer>)
      requires !isLoading && !isShuffling
      modifies this
      ensures old(regions) == [] ==> timer == None && unchanged(this)
      ensures old(regions) != [] ==> timer == Some(ShuffleTimer(old(regions))) && isShuffling
      ensures regions == old(regions) && currentDiscovery == old(currentDiscovery) && isLoading == old(isLoading)
    {
      timer := PickRandomRegion(regions);
    }

    /** The timer firing one second later: a region of the captured list becomes the discovery. */
    method FireShuffleTimer(timer: ShuffleTimer, rand: real)
      requires timer.regionList != []
      requires 0.0 <= rand < 1.0
      modifies this
      ensures currentDiscovery == Some(timer.regionList[RandomIndex(rand, |timer.regionList|)])
      ensures currentDiscovery.value in timer.regionList
      ensures !isShuffling && regions == old(regions) && isLoading == old(isLoading)
    {
      var randomIndex := RandomIndex(rand, |timer.regionList|);
      currentDiscovery := Some(timer.regionList[randomIndex]);
      isShuffling := false;
    }

    /** `loadRegions` once `Region.list()` has answered; `None` stands for a failed fetch, which is only logged. */
    method LoadRegions(fetched: Option<seq<Region>>) returns (timer: Option<ShuffleTimer>)
      modifies this
      ensures regions == if fetched.Some? then fetched.value else old(regions)
      ensures timer.Some? <==> fetched.Some? && fetched.value != []
      ensures timer.Some? ==> timer.value.regionList == fetched.value && isShuffling
      ensures timer.None? ==> isShuffling == old(isShuffling)
      ensures currentDiscovery == old(currentDiscovery) && !isLoading
    {
      isLoading := true;
      timer := None;
      if fetched.Some? {
        regions := fetched.value;
        if |fetched.value| > 0 {
          timer := PickRandomRegion(fetched.value);
        }
      }
      isLoading := false;
    }

    /** `getRandomFact`: nothing without a discovery, otherwise one of the candidate facts, if there are any. */
    method GetRandomFact(d: Draws) returns (fact: Option<Fact>)
      requires ValidDraws(d)
      ensures currentDiscovery.None? ==> fact == None
      ensures currentDiscovery.Some? ==> (fact == None <==> Candidates(currentDiscovery.value, d) == [])
      ensures fact.Some? ==> currentDiscovery.Some? && fact.value in Candidates(currentDiscovery.value, d)
    {
      if currentDiscovery.None? {
        return None;
      }
      var facts := CollectFacts(currentDiscovery.value, d);
      fact := if |facts| > 0 then Some(facts[RandomIndex(d.fact, |facts|)]) else None;
    }
  }
}
