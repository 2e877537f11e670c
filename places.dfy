/**
 * tools/places.py: the cost, duration and best-time tables, the sample attractions, and
 * the map from each activity preference to its attractions, built from one search per
 * preference and topped up to five; every preference gets three samples when any search
 * fails. The maps search is the parameter `fetch`.
 */
module Places {
  import opened Wrappers
  import opened Rounding
  import opened Text
  import opened Serp
  import opened Templates

  /** An estimated cost range, in whole currency units. */
  datatype CostRange = CostRange(min: int, max: int)

  datatype Attraction = Attraction(
    name: string,
    rating: Option<real>,
    reviews: Option<int>,
    address: string,
    description: string,
    attractionType: string,
    estimatedCost: CostRange,
    estimatedDuration: string,
    bestTime: string)

  /** Activity preference to attractions. */
  type AttractionMap = map<string, seq<Attraction>>

  /** The attraction types the tables know. */
  const KnownTypes: seq<string> :=
    ["Historical sites", "Museums", "Nature", "Adventure", "Shopping", "Relaxation", "Nightlife"]

  // ---------------------------------------------------------------------------
  // The tables

  const CostTable: map<string, CostRange> := map[
    "Historical sites" := CostRange(10, 25), "Museums" := CostRange(15, 30), "Nature" := CostRange(0, 15),
    "Adventure" := CostRange(30, 100), "Shopping" := CostRange(0, 0), "Relaxation" := CostRange(20, 80),
    "Nightlife" := CostRange(20, 50)]

  const DurationTable: map<string, string> := map[
    "Historical sites" := "2-3 hours", "Museums" := "2-4 hours", "Nature" := "3-5 hours",
    "Adventure" := "4-6 hours", "Shopping" := "2-4 hours", "Relaxation" := "2-3 hours",
    "Nightlife" := "3-5 hours"]

  const BestTimeTable: map<string, string> := map[
    "Historical sites" := "Morning", "Museums" := "Morning or Afternoon", "Nature" := "Morning or Late Afternoon",
    "Adventure" := "Morning", "Shopping" := "Afternoon", "Relaxation" := "Afternoon", "Nightlife" := "Evening"]

  /** `estimate_attraction_cost`: the type's range, 10 to 30 for an unknown type; never a negative or inverted range. */
  function EstimateAttractionCost(attractionType: string): (r: CostRange)
    ensures 0 <= r.min <= r.max
  {
    if attractionType in CostTable then CostTable[attractionType] else CostRange(10, 30)
  }

  /** `estimate_attraction_duration`: one of four spans of hours; "2-3 hours" for an unknown type. */
  function EstimateAttractionDuration(attractionType: string): (r: string)
    ensures r in {"2-3 hours", "2-4 hours", "3-5 hours", "4-6 hours"}
    ensures attractionType !in DurationTable ==> r == "2-3 hours"
  {
    if attractionType in DurationTable then DurationTable[attractionType] else "2-3 hours"
  }

  /** `suggest_best_time`: a time of day; "Any time" for an unknown type. */
  function SuggestBestTime(attractionType: string): (r: string)
    ensures r in {"Morning", "Morning or Afternoon", "Morning or Late Afternoon", "Afternoon", "Evening", "Any time"}
    ensures attractionType !in BestTimeTable ==> r == "Any time"
  {
    if attractionType in BestTimeTable then BestTimeTable[attractionType] else "Any time"
  }

  /** A type missing from the tables gets their defaults. */
  lemma UnknownTypeDefaults(attractionType: string)
    requires attractionType !in KnownTypes
    ensures EstimateAttractionCost(attractionType) == CostRange(10, 30)
    ensures EstimateAttractionDuration(attractionType) == "2-3 hours"
    ensures SuggestBestTime(attractionType) == "Any time"
  {
  }

  /** Only shopping is estimated as free of charge at both ends; the widest range is adventure's. */
  lemma CostRanges(attractionType: string)
    ensures EstimateAttractionCost(attractionType).max == 0 <==> attractionType == "Shopping"
    ensures EstimateAttractionCost(attractionType).max - EstimateAttractionCost(attractionType).min <= 70
    ensures EstimateAttractionCost(attractionType).max <= 100
  {
  }

  // ---------------------------------------------------------------------------
  // Sample attractions

  /** The generic names "<destination> Attraction 1" to "<destination> Attraction 5". */
  function GenericNames(): (r: seq<Template>)
    ensures |r| == 5
  {
    seq(5, i requires 0 <= i < 5 => Around("", " Attraction " + NatToString(i + 1)))
  }

  /** The name list of an activity preference; an unknown one takes the generic names. */
  function AttractionNames(preference: string): (r: seq<Template>)
    ensures |r| == 5
  {
    if preference == "Historical sites" then [
      Around("", " Castle"), Around("Ancient ", " Ruins"), Around("", " Historical Museum"),
      Around("Old Town ", ""), Around("", " Cathedral")]
    else if preference == "Museums" then [
      Around("", " Art Gallery"), Around("", " Science Museum"), Around("Museum of ", " History"),
      Plain("Modern Art Museum"), Around("National Museum of ", "")]
    else if preference == "Nature" then [
      Around("", " National Park"), Around("", " Botanical Gardens"), Around("", " Lake"),
      Around("Mount ", ""), Around("", " Beach")]
    else if preference == "Adventure" then [
      Around("", " Zipline Adventure"), Around("", " Rafting Experience"), Around("Hiking Trails of ", ""),
      Around("", " Rock Climbing"), Around("", " Safari")]
    else if preference == "Shopping" then [
      Around("", " Mall"), Around("", " Market"), Around("Boutique Street of ", ""),
      Around("", " Shopping District"), Around("Artisan Market of ", "")]
    else if preference == "Relaxation" then [
      Around("", " Spa"), Around("", " Hot Springs"), Around("Wellness Center of ", ""),
      Around("", " Beach Resort"), Around("Meditation Retreat in ", "")]
    else if preference == "Nightlife" then [
      Around("", " Club District"), Around("Jazz Bars of ", ""), Around("", " Night Market"),
      Around("Rooftop Bars in ", ""), Around("", " Theater District")]
    else GenericNames()
  }

  /** For an unknown preference the `k`-th name (from 0) is "<destination> Attraction <k + 1>". */
  lemma UnknownPreferenceNames(destination: string, preference: string, k: nat)
    requires preference !in KnownTypes && k < 5
    ensures Fill(AttractionNames(preference)[k], destination) == destination + " Attraction " + NatToString(k + 1)
  {
    GenericFallback(preference);
    assert GenericNames()[k] == Around("", " Attraction " + NatToString(k + 1));
  }

  lemma GenericFallback(preference: string)
    requires preference !in KnownTypes
    ensures AttractionNames(preference) == GenericNames()
  {
  }

  /** The rating of sample `i`: 4.0 plus 0.3 for each step of `i mod 3`, to one decimal. */
  function SampleRating(i: nat): real {
    Round1(4.0 + (i % 3) as real * 0.3)
  }

  function SampleAddress(n: nat, destination: string): string {
    "Sample Address " + NatToString(n) + ", " + destination
  }

  function SampleDescription(preference: string, destination: string): string {
    "A popular " + ToLower(preference) + " attraction in " + destination
  }

  /** Sample attraction `i` of a preference. */
  function SampleAttraction(destination: string, preference: string, i: nat): Attraction {
    Attraction(
      Fill(AttractionNames(preference)[i % 5], destination),
      Some(SampleRating(i)),
      Some((i + 1) * 100),
      SampleAddress(i + 1, destination),
      SampleDescription(preference, destination),
      preference,
      EstimateAttractionCost(preference),
      EstimateAttractionDuration(preference),
      SuggestBestTime(preference))
  }

  function SampleAttractions(destination: string, preference: string, count: nat): (r: seq<Attraction>)
    ensures |r| == count
  {
    seq(count, i requires 0 <= i < count => SampleAttraction(destination, preference, i))
  }

  /** `generate_sample_attractions`. */
  method GenerateSampleAttractions(destination: string, preference: string, count: nat)
    returns (samples: seq<Attraction>)
    ensures samples == SampleAttractions(destination, preference, count)
  {
    var names := AttractionNames(preference);
    var description := SampleDescription(preference, destination);
    var costData := EstimateAttractionCost(preference);
    var duration := EstimateAttractionDuration(preference);
    var bestTime := SuggestBestTime(preference);
    samples := [];
    for i := 0 to count
      invariant |samples| == i
      invariant forall k :: 0 <= k < i ==> samples[k] == SampleAttraction(destination, preference, k)
    {
      var name := Fill(names[i % |names|], destination);
      var sample := Attraction(
        name, Some(SampleRating(i)), Some((i + 1) * 100), SampleAddress(i + 1, destination),
        description, preference, costData, duration, bestTime);
      assert sample == SampleAttraction(destination, preference, i);
      samples := samples + [sample];
    }
  }

  /**
   * Sample `i` takes the `i mod 5`-th name, is rated 4.0, 4.3 or 4.6 in turn, has 100
   * more reviews than the one before, and carries the preference as its type with the
   * tables' cost, duration and best time.
   */
  lemma SampleAttractionFields(destination: string, preference: string, i: nat)
    ensures var a := SampleAttraction(destination, preference, i);
      && a.name == Fill(AttractionNames(preference)[i % 5], destination)
      && a.rating == Some(if i % 3 == 0 then 4.0 else if i % 3 == 1 then 4.3 else 4.6)
      && a.reviews == Some((i + 1) * 100)
      && Typed(a, preference)
  {
    Round1Tenths(40);
    Round1Tenths(43);
    Round1Tenths(46);
    assert 4.0 + 0 as real * 0.3 == 40 as real / 10.0;
    assert 4.0 + 1 as real * 0.3 == 43 as real / 10.0;
    assert 4.0 + 2 as real * 0.3 == 46 as real / 10.0;
  }

  // ---------------------------------------------------------------------------
  // Attractions from the search

  /** A place of the search reply as an attraction of the preference, with the source's defaults. */
  function FromPlace(place: LocalResult, preference: string): Attraction {
    Attraction(
      place.title.GetOr("Unknown Attraction"), place.rating, place.reviews, place.address.GetOr("N/A"),
      place.description.GetOr("A popular " + preference + " attraction"), preference,
      EstimateAttractionCost(preference), EstimateAttractionDuration(preference), SuggestBestTime(preference))
  }

  /**
   * A place keeps its rating and review count, takes the source's defaults for a missing
   * title, address or description, and becomes an attraction of the preference's type.
   */
  lemma FromPlaceFields(place: LocalResult, preference: string)
    ensures var r := FromPlace(place, preference);
      && r.name == (if place.title.Some? then place.title.value else "Unknown Attraction")
      && r.description == (if place.description.Some? then place.description.value
                           else "A popular " + preference + " attraction")
      && r.address == (if place.address.Some? then place.address.value else "N/A")
      && r.rating == place.rating && r.reviews == place.reviews
      && Typed(r, preference)
  {
  }

  function FromPlaces(places: seq<LocalResult>, preference: string): (r: seq<Attraction>)
    ensures |r| == |places|
  {
    seq(|places|, k requires 0 <= k < |places| => FromPlace(places[k], preference))
  }

  /** `a` is of type `preference` and carries the tables' values for it. */
  predicate Typed(a: Attraction, preference: string) {
    && a.attractionType == preference
    && a.estimatedCost == EstimateAttractionCost(preference)
    && a.estimatedDuration == EstimateAttractionDuration(preference)
    && a.bestTime == SuggestBestTime(preference)
  }

  function AttractionQuery(preference: string, destination: string): string {
    "best " + preference + " in " + destination
  }

  // ---------------------------------------------------------------------------
  // The map, as a specification

  /** A list topped up with samples, numbered from 0, to five when shorter. */
  function TopUp(list: seq<Attraction>, destination: string, preference: string): (r: seq<Attraction>)
    ensures |r| == if |list| < 5 then 5 else |list|
  {
    if |list| < 5 then list + SampleAttractions(destination, preference, 5 - |list|) else list
  }

  /** One preference's visit: each place found appended in turn to its list, then the list topped up. */
  function Visit(list: seq<Attraction>, places: seq<LocalResult>, destination: string, preference: string)
    : seq<Attraction>
    decreases |places|
  {
    if places == [] then TopUp(list, destination, preference)
    else Visit(list + [FromPlace(places[0], preference)], places[1..], destination, preference)
  }

  /** The places the search for one preference found; none when it failed. */
  function Results(destination: string, preference: string, fetch: string -> Search<LocalResult>): seq<LocalResult> {
    var reply := fetch(AttractionQuery(preference, destination));
    if reply.Found? then reply.results else []
  }

  /**
   * The map after the searches of the first `i` preferences, in order, starting from an empty
   * list for every preference; `None` once a search has failed, where the source raises.
   */
  function Collected(destination: string, prefs: seq<string>, fetch: string -> Search<LocalResult>, i: nat)
    : (r: Option<AttractionMap>)
    requires i <= |prefs|
    ensures r.Some? ==> forall p :: p in r.value <==> p in prefs
  {
    if i == 0 then Some(map p | p in prefs :: [])
    else
      match Collected(destination, prefs, fetch, i - 1)
      case None => None
      case Some(m) =>
        var preference := prefs[i - 1];
        if fetch(AttractionQuery(preference, destination)).Failed? then None
        else Some(m[preference := Visit(m[preference], Results(destination, preference, fetch), destination, preference)])
  }

  /** One of the searches fails. */
  predicate AnyFailed(destination: string, prefs: seq<string>, fetch: string -> Search<LocalResult>) {
    exists k :: 0 <= k < |prefs| && fetch(AttractionQuery(prefs[k], destination)).Failed?
  }

  /** `generate_fallback_attractions` as a specification: three samples for every preference. */
  function FallbackMap(destination: string, prefs: seq<string>): AttractionMap {
    map p | p in prefs :: SampleAttractions(destination, p, 3)
  }

  /** `get_attractions` as a specification. */
  function Attractions(destination: string, prefs: seq<string>, fetch: string -> Search<LocalResult>): AttractionMap {
    match Collected(destination, prefs, fetch, |prefs|)
    case None => FallbackMap(destination, prefs)
    case Some(m) => m
  }

  // ---------------------------------------------------------------------------
  // The adapter

  /** `generate_fallback_attractions`. */
  method GenerateFallbackAttractions(destination: string, prefs: seq<string>) returns (attractions: AttractionMap)
    ensures attractions == FallbackMap(destination, prefs)
  {
    attractions := map[];
    for i := 0 to |prefs|
      invariant attractions.Keys == set p | p in prefs[..i]
      invariant forall p :: p in attractions ==> attractions[p] == SampleAttractions(destination, p, 3)
    {
      var preference := prefs[i];
      var samples := GenerateSampleAttractions(destination, preference, 3);
      assert prefs[..i + 1] == prefs[..i] + [preference];
      attractions := attractions[preference := samples];
    }
    assert prefs[..|prefs|] == prefs;
  }

  /** Sample attractions added to a list shorter than five. */
  method FillUp(list: seq<Attraction>, destination: string, preference: string) returns (r: seq<Attraction>)
    ensures r == TopUp(list, destination, preference)
  {
    r := list;
    if |r| < 5 {
      var samples := GenerateSampleAttractions(destination, preference, 5 - |r|);
      r := r + samples;
    }
  }

  /** The visit of one preference: its places appended one by one, then the top-up. */
  method VisitPlaces(list: seq<Attraction>, places: seq<LocalResult>, destination: string, preference: string)
    returns (r: seq<Attraction>)
    ensures r == Visit(list, places, destination, preference)
  {
    r := list;
    for j := 0 to |places|
      invariant Visit(r, places[j..], destination, preference) == Visit(list, places, destination, preference)
    {
      assert places[j..][1..] == places[j + 1..];
      r := r + [FromPlace(places[j], preference)];
    }
    assert places[|places|..] == [];
    r := FillUp(r, destination, preference);
  }

  /** `get_attractions`: one search per preference, in order; any failed search gives the fallback for all. */
  method GetAttractions(destination: string, prefs: seq<string>, fetch: string -> Search<LocalResult>)
    returns (attractions: AttractionMap)
    ensures attractions == Attractions(destination, prefs, fetch)
  {
    attractions := map p | p in prefs :: [];
    for i := 0 to |prefs|
      invariant Collected(destination, prefs, fetch, i) == Some(attractions)
    {
      var preference := prefs[i];
      var reply := fetch(AttractionQuery(preference, destination));
      if reply.Failed? {
        FailedSearch(destination, prefs, fetch, i);
        attractions := GenerateFallbackAttractions(destination, prefs);
        return;
      }
      var list := VisitPlaces(attractions[preference], reply.results, destination, preference);
      CollectedStep(destination, prefs, fetch, i, attractions);
      attractions := attractions[preference := list];
    }
  }

  /** One successful search extends the fold by the visit of its preference. */
  lemma CollectedStep(destination: string, prefs: seq<string>, fetch: string -> Search<LocalResult>, i: nat,
                      m: AttractionMap)
    requires i < |prefs| && Collected(destination, prefs, fetch, i) == Some(m)
    requires fetch(AttractionQuery(prefs[i], destination)).Found?
    ensures prefs[i] in m
    ensures Collected(destination, prefs, fetch, i + 1)
         == Some(m[prefs[i] := Visit(m[prefs[i]], fetch(AttractionQuery(prefs[i], destination)).results, destination, prefs[i])])
  {
  }

  // ---------------------------------------------------------------------------
  // What a visit does

  /** Every attraction of `list` is of type `preference`, with the tables' values. */
  predicate AllTyped(list: seq<Attraction>, preference: string) {
    forall j :: 0 <= j < |list| ==> Typed(list[j], preference)
  }

  /** Topping up keeps the list and adds samples numbered from 0 until there are five. */
  lemma TopUpShape(list: seq<Attraction>, destination: string, preference: string)
    ensures var r := TopUp(list, destination, preference);
      && (forall j :: 0 <= j < |list| ==> r[j] == list[j])
      && (forall j :: |list| <= j < |r| ==> r[j] == SampleAttraction(destination, preference, j - |list|))
  {
    if |list| < 5 {
      var samples := SampleAttractions(destination, preference, 5 - |list|);
      var r := list + samples;
      assert TopUp(list, destination, preference) == r;
      forall j | |list| <= j < |r|
        ensures r[j] == SampleAttraction(destination, preference, j - |list|)
      {
        assert r[j] == samples[j - |list|];
      }
    }
  }

  /** The samples a top-up adds are of the preference's type. */
  lemma TopUpTyped(list: seq<Attraction>, destination: string, preference: string)
    requires AllTyped(list, preference)
    ensures AllTyped(TopUp(list, destination, preference), preference)
  {
    var r := TopUp(list, destination, preference);
    TopUpShape(list, destination, preference);
    forall j | |list| <= j < |r|
      ensures Typed(r[j], preference)
    {
      SampleAttractionFields(destination, preference, j - |list|);
    }
  }

  /** A visit is the list followed by the places found, topped up to five. */
  lemma {:induction false} VisitAppends(list: seq<Attraction>, places: seq<LocalResult>,
                                        destination: string, preference: string)
    ensures Visit(list, places, destination, preference) == TopUp(list + FromPlaces(places, preference), destination, preference)
    decreases |places|
  {
    if places == [] {
      assert list + FromPlaces(places, preference) == list;
    } else {
      VisitAppends(list + [FromPlace(places[0], preference)], places[1..], destination, preference);
      AppendFirst(list, places, preference);
    }
  }

  /** Appending the first place and then the rest is appending them all. */
  lemma AppendFirst(list: seq<Attraction>, places: seq<LocalResult>, preference: string)
    requires places != []
    ensures (list + [FromPlace(places[0], preference)]) + FromPlaces(places[1..], preference)
         == list + FromPlaces(places, preference)
  {
    var rest := FromPlaces(places[1..], preference);
    var all := FromPlaces(places, preference);
    assert all == [FromPlace(places[0], preference)] + rest;
  }

  /** A visit leaves at least five attractions, and never fewer than the list and the places together. */
  lemma {:induction false} VisitLength(list: seq<Attraction>, places: seq<LocalResult>,
                                       destination: string, preference: string)
    ensures |Visit(list, places, destination, preference)| == if |list| + |places| < 5 then 5 else |list| + |places|
    decreases |places|
  {
    if places != [] {
      VisitLength(list + [FromPlace(places[0], preference)], places[1..], destination, preference);
    }
  }

  /** A visit adds only attractions of the preference's type. */
  lemma {:induction false} VisitTyped(list: seq<Attraction>, places: seq<LocalResult>,
                                      destination: string, preference: string)
    requires AllTyped(list, preference)
    ensures AllTyped(Visit(list, places, destination, preference), preference)
    decreases |places|
  {
    if places == [] {
      TopUpTyped(list, destination, preference);
    } else {
      var next := list + [FromPlace(places[0], preference)];
      FromPlaceFields(places[0], preference);
      assert AllTyped(next, preference);
      VisitTyped(next, places[1..], destination, preference);
    }
  }

  // ---------------------------------------------------------------------------
  // What the map is

  /** Once a search has failed the fold stays failed. */
  lemma {:induction false} CollectedStaysFailed(destination: string, prefs: seq<string>,
                                                fetch: string -> Search<LocalResult>, i: nat, j: nat)
    requires i <= j <= |prefs| && Collected(destination, prefs, fetch, i).None?
    ensures Collected(destination, prefs, fetch, j).None?
    decreases j
  {
    if j > i {
      CollectedStaysFailed(destination, prefs, fetch, i, j - 1);
    }
  }

  /** A search that fails after the earlier ones succeeded sends the whole map to the fallback. */
  lemma FailedSearch(destination: string, prefs: seq<string>, fetch: string -> Search<LocalResult>, i: nat)
    requires i < |prefs| && Collected(destination, prefs, fetch, i).Some?
    requires fetch(AttractionQuery(prefs[i], destination)).Failed?
    ensures Attractions(destination, prefs, fetch) == FallbackMap(destination, prefs)
  {
    assert Collected(destination, prefs, fetch, i + 1) == None;
    CollectedStaysFailed(destination, prefs, fetch, i + 1, |prefs|);
  }

  /** The fold fails exactly when one of its searches fails. */
  lemma {:induction false} CollectedFails(destination: string, prefs: seq<string>,
                                          fetch: string -> Search<LocalResult>, i: nat)
    requires i <= |prefs|
    ensures Collected(destination, prefs, fetch, i).None?
        <==> exists k :: 0 <= k < i && fetch(AttractionQuery(prefs[k], destination)).Failed?
  {
    if i > 0 {
      CollectedFails(destination, prefs, fetch, i - 1);
      if fetch(AttractionQuery(prefs[i - 1], destination)).Failed? {
        assert 0 <= i - 1 < i;
      } else if exists k :: 0 <= k < i && fetch(AttractionQuery(prefs[k], destination)).Failed? {
        var k :| 0 <= k < i && fetch(AttractionQuery(prefs[k], destination)).Failed?;
        assert k < i - 1;
      }
    }
  }

  /** Any failed search gives the fallback map; otherwise the result is the completed fold. */
  lemma AttractionsCases(destination: string, prefs: seq<string>, fetch: string -> Search<LocalResult>)
    ensures AnyFailed(destination, prefs, fetch) ==> Attractions(destination, prefs, fetch) == FallbackMap(destination, prefs)
    ensures !AnyFailed(destination, prefs, fetch) ==>
      && Collected(destination, prefs, fetch, |prefs|).Some?
      && Attractions(destination, prefs, fetch) == Collected(destination, prefs, fetch, |prefs|).value
  {
    CollectedFails(destination, prefs, fetch, |prefs|);
  }

  /** Visiting a preference never shortens a list, and leaves every visited preference with at least five. */
  lemma {:induction false} CollectedAtLeastFive(destination: string, prefs: seq<string>,
                                                fetch: string -> Search<LocalResult>, i: nat)
    requires i <= |prefs| && Collected(destination, prefs, fetch, i).Some?
    ensures forall k :: 0 <= k < i ==>
      prefs[k] in Collected(destination, prefs, fetch, i).value && |Collected(destination, prefs, fetch, i).value[prefs[k]]| >= 5
  {
    if i > 0 {
      CollectedAtLeastFive(destination, prefs, fetch, i - 1);
      var prev := Collected(destination, prefs, fetch, i - 1).value;
      var preference := prefs[i - 1];
      var list := Visit(prev[preference], Results(destination, preference, fetch), destination, preference);
      VisitLength(prev[preference], Results(destination, preference, fetch), destination, preference);
      assert Collected(destination, prefs, fetch, i).value == prev[preference := list];
      UpdateAtLeastFive(prev, list, prefs, i);
    }
  }

  /** Replacing the list of `prefs[i - 1]` by one of five or more keeps the first `i` preferences at five or more. */
  lemma UpdateAtLeastFive(prev: AttractionMap, list: seq<Attraction>, prefs: seq<string>, i: nat)
    requires 0 < i <= |prefs| && |list| >= 5
    requires forall k :: 0 <= k < i - 1 ==> prefs[k] in prev && |prev[prefs[k]]| >= 5
    ensures forall k :: 0 <= k < i ==> prefs[k] in prev[prefs[i - 1] := list] && |prev[prefs[i - 1] := list][prefs[k]]| >= 5
  {
  }

  /** Every attraction under a preference is of that preference's type, with the tables' values. */
  lemma {:induction false} CollectedTyped(destination: string, prefs: seq<string>,
                                          fetch: string -> Search<LocalResult>, i: nat)
    requires i <= |prefs| && Collected(destination, prefs, fetch, i).Some?
    ensures forall p :: p in Collected(destination, prefs, fetch, i).value ==>
      AllTyped(Collected(destination, prefs, fetch, i).value[p], p)
  {
    if i > 0 {
      CollectedTyped(destination, prefs, fetch, i - 1);
      var m := Collected(destination, prefs, fetch, i - 1).value;
      var preference := prefs[i - 1];
      assert preference in m;
      VisitTyped(m[preference], Results(destination, preference, fetch), destination, preference);
    }
  }

  /** The list a preference named once ends with: its own visit from an empty list. */
  function Entry(destination: string, preference: string, fetch: string -> Search<LocalResult>): seq<Attraction> {
    Visit([], Results(destination, preference, fetch), destination, preference)
  }

  /** With no preference named twice, each visited preference holds its own entry, the others nothing yet. */
  lemma {:induction false} CollectedDistinct(destination: string, prefs: seq<string>,
                                             fetch: string -> Search<LocalResult>, i: nat)
    requires i <= |prefs| && Collected(destination, prefs, fetch, i).Some?
    requires forall a, b :: 0 <= a < b < |prefs| ==> prefs[a] != prefs[b]
    ensures forall k :: 0 <= k < |prefs| ==>
      Collected(destination, prefs, fetch, i).value[prefs[k]] == if k < i then Entry(destination, prefs[k], fetch) else []
  {
    if i > 0 {
      CollectedDistinct(destination, prefs, fetch, i - 1);
      var prev := Collected(destination, prefs, fetch, i - 1).value;
      var preference := prefs[i - 1];
      assert prev[preference] == [];
      assert Collected(destination, prefs, fetch, i).value == prev[preference := Entry(destination, preference, fetch)];
      UpdateDistinct(destination, prefs, fetch, i, prev);
    }
  }

  /** The step of `CollectedDistinct`: giving `prefs[i - 1]` its entry. */
  lemma UpdateDistinct(destination: string, prefs: seq<string>, fetch: string -> Search<LocalResult>, i: nat,
                       prev: AttractionMap)
    requires 0 < i <= |prefs|
    requires forall a, b :: 0 <= a < b < |prefs| ==> prefs[a] != prefs[b]
    requires forall k :: 0 <= k < |prefs| ==>
      prefs[k] in prev && prev[prefs[k]] == if k < i - 1 then Entry(destination, prefs[k], fetch) else []
    ensures var now := prev[prefs[i - 1] := Entry(destination, prefs[i - 1], fetch)];
      forall k :: 0 <= k < |prefs| ==> now[prefs[k]] == if k < i then Entry(destination, prefs[k], fetch) else []
  {
    var now := prev[prefs[i - 1] := Entry(destination, prefs[i - 1], fetch)];
    forall k | 0 <= k < |prefs|
      ensures now[prefs[k]] == if k < i then Entry(destination, prefs[k], fetch) else []
    {
      if k != i - 1 {
        assert prefs[k] != prefs[i - 1];
      }
    }
  }

  /** The map's keys are exactly the activity preferences, and every list holds attractions of its own preference. */
  lemma AttractionsShape(destination: string, prefs: seq<string>, fetch: string -> Search<LocalResult>)
    ensures var m := Attractions(destination, prefs, fetch);
      && (forall p :: p in m <==> p in prefs)
      && (!AnyFailed(destination, prefs, fetch) ==> forall p :: p in m ==> |m[p]| >= 5)
      && (AnyFailed(destination, prefs, fetch) ==> forall p :: p in m ==> |m[p]| == 3)
      && forall p :: p in m ==> AllTyped(m[p], p)
  {
    AttractionsCases(destination, prefs, fetch);
    var m := Attractions(destination, prefs, fetch);
    if AnyFailed(destination, prefs, fetch) {
      forall p | p in m
        ensures AllTyped(m[p], p)
      {
        forall j | 0 <= j < |m[p]|
          ensures Typed(m[p][j], p)
        {
          SampleAttractionFields(destination, p, j);
        }
      }
    } else {
      CollectedAtLeastFive(destination, prefs, fetch, |prefs|);
      CollectedTyped(destination, prefs, fetch, |prefs|);
      forall p | p in m
        ensures |m[p]| >= 5
      {
        var k :| 0 <= k < |prefs| && prefs[k] == p;
      }
    }
  }

  /** With every search answered and no preference named twice, a preference's list is its own visit from an empty list. */
  lemma AttractionsEntry(destination: string, prefs: seq<string>, fetch: string -> Search<LocalResult>, k: nat)
    requires k < |prefs| && !AnyFailed(destination, prefs, fetch)
    requires forall a, b :: 0 <= a < b < |prefs| ==> prefs[a] != prefs[b]
    ensures fetch(AttractionQuery(prefs[k], destination)).Found?
    ensures Attractions(destination, prefs, fetch)[prefs[k]]
         == Visit([], fetch(AttractionQuery(prefs[k], destination)).results, destination, prefs[k])
  {
    AttractionsCases(destination, prefs, fetch);
    CollectedDistinct(destination, prefs, fetch, |prefs|);
  }

  /**
   * A visit from an empty list is the places found, in order, followed by samples numbered
   * from 0 up to five; so a preference with five or more places keeps exactly those.
   */
  lemma VisitFromEmpty(places: seq<LocalResult>, destination: string, preference: string)
    ensures Visit([], places, destination, preference)
         == FromPlaces(places, preference)
            + SampleAttractions(destination, preference, if |places| < 5 then 5 - |places| else 0)
  {
    var found := FromPlaces(places, preference);
    VisitAppends([], places, destination, preference);
    assert [] + found == found;
    if |places| >= 5 {
      assert found + SampleAttractions(destination, preference, 0) == found;
    }
  }
}
