/**
 * tools/food.py: the restaurant query with its dietary suffix, the conversion of the
 * search's places, the top-up to fifteen restaurants with generated samples, the
 * round-robin spread over breakfast, lunch and dinner, and the fixed answer given when
 * the search fails. The maps search is the parameter `fetch`.
 */
module Food {
  import opened Wrappers
  import opened Rounding
  import opened Text
  import opened Serp
  import opened Templates

  datatype Restaurant = Restaurant(
    name: string,
    rating: Option<real>,
    reviews: Option<int>,
    address: string,
    priceLevel: string,
    cuisine: string,
    description: string)

  /** The recommendations: meal type to restaurants. */
  type Recommendations = map<string, seq<Restaurant>>

  const MealTypes: seq<string> := ["Breakfast", "Lunch", "Dinner"]

  // ---------------------------------------------------------------------------
  // The query

  /**
   * The dietary word added to the query: the first of "vegetarian", "vegan" and
   * "gluten-free" that the lower-cased requirements contain; nothing when there are no
   * requirements or none of the three occurs.
   */
  function DietarySuffix(special: Option<string>): (r: string)
    ensures r in {"", " vegetarian", " vegan", " gluten-free"}
    ensures special.None? ==> r == ""
  {
    if special.None? || special.value == [] then ""
    else
      var low := ToLower(special.value);
      if Contains(low, "vegetarian") then " vegetarian"
      else if Contains(low, "vegan") then " vegan"
      else if Contains(low, "gluten-free") then " gluten-free"
      else ""
  }

  function RestaurantQuery(preference: string, destination: string, special: Option<string>): string {
    "best " + preference + " restaurants in " + destination + DietarySuffix(special)
  }

  /** The requirements mention `word`, ignoring case. */
  ghost predicate Requests(special: Option<string>, word: string) {
    special.Some? && exists k :: OccursAt(ToLower(special.value), word, k)
  }

  /**
   * At most one dietary word is added, and it is the first of the three, in the order
   * vegetarian, vegan, gluten-free, that the requirements mention.
   */
  lemma DietarySuffixChoice(special: Option<string>)
    ensures DietarySuffix(special) in {"", " vegetarian", " vegan", " gluten-free"}
    ensures DietarySuffix(special) == " vegetarian" <==> Requests(special, "vegetarian")
    ensures DietarySuffix(special) == " vegan" <==> !Requests(special, "vegetarian") && Requests(special, "vegan")
    ensures DietarySuffix(special) == " gluten-free" <==>
      !Requests(special, "vegetarian") && !Requests(special, "vegan") && Requests(special, "gluten-free")
    ensures DietarySuffix(special) == "" <==>
      !Requests(special, "vegetarian") && !Requests(special, "vegan") && !Requests(special, "gluten-free")
  {
    if special.Some? {
      var low := ToLower(special.value);
      ContainsIff(low, "vegetarian");
      ContainsIff(low, "vegan");
      ContainsIff(low, "gluten-free");
      if special.value == [] {
        assert forall w: string, k :: w != [] ==> !OccursAt(low, w, k);
      }
    }
  }

  /** The query always starts with "best <preference> restaurants in <destination>". */
  lemma RestaurantQueryPrefix(preference: string, destination: string, special: Option<string>)
    ensures var base := "best " + preference + " restaurants in " + destination;
      |base| <= |RestaurantQuery(preference, destination, special)|
      && RestaurantQuery(preference, destination, special)[..|base|] == base
      && (DietarySuffix(special) == "" ==> RestaurantQuery(preference, destination, special) == base)
  {
    var base := "best " + preference + " restaurants in " + destination;
    assert (base + DietarySuffix(special))[..|base|] == base;
  }

  // ---------------------------------------------------------------------------
  // Restaurants from the search

  /** A place of the search reply as a restaurant of the preferred cuisine, with the source's defaults. */
  function FromPlace(place: LocalResult, preference: string): (r: Restaurant)
    ensures r.cuisine == preference
    ensures r.name == (if place.title.Some? then place.title.value else "Unknown Restaurant")
    ensures r.priceLevel == (if place.priceLevel.Some? then place.priceLevel.value else "$$")
    ensures r.description == (if place.description.Some? then place.description.value else "A local restaurant")
    ensures r.address == (if place.address.Some? then place.address.value else "N/A")
    ensures r.rating == place.rating && r.reviews == place.reviews
  {
    Restaurant(
      place.title.GetOr("Unknown Restaurant"), place.rating, place.reviews, place.address.GetOr("N/A"),
      place.priceLevel.GetOr("$$"), preference, place.description.GetOr("A local restaurant"))
  }

  function FromPlaces(places: seq<LocalResult>, preference: string): (r: seq<Restaurant>)
    ensures |r| == |places|
    ensures forall k :: 0 <= k < |places| ==> r[k] == FromPlace(places[k], preference)
  {
    seq(|places|, k requires 0 <= k < |places| => FromPlace(places[k], preference))
  }

  // ---------------------------------------------------------------------------
  // Sample restaurants

  /** The name list of a food preference; an unknown preference takes the local-cuisine names. */
  function NameTexts(preference: string): (r: seq<Template>)
    ensures |r| == 5
  {
    if preference == "International" then [
      Plain("Global Fusion"), Plain("World Cuisine"), Plain("International Flavors"),
      Plain("Cosmopolitan Kitchen"), Plain("Passport Dining")]
    else if preference == "Fine dining" then [
      Around("Elegant ", ""), Plain("Gourmet Gallery"), Plain("Luxury Plate"),
      Plain("Sophisticated Palate"), Plain("Exquisite Dining")]
    else if preference == "Street food" then [
      Around("", " Street Eats"), Plain("Urban Bites"), Plain("Street Flavor Market"),
      Plain("Sidewalk Delights"), Plain("Street Food Collective")]
    else [
      Around("Authentic ", " Kitchen"), Around("Traditional ", " Bistro"), Around("Local Flavors of ", ""),
      Plain("Heritage Dining"), Around("", " Home Cooking")]
  }

  /** The price levels of a food preference; an unknown preference has only "$$". */
  function PriceLevels(preference: string): (r: seq<string>)
    ensures |r| >= 1
  {
    if preference == "Local cuisine" then ["$", "$$"]
    else if preference == "International" then ["$$", "$$$"]
    else if preference == "Fine dining" then ["$$$", "$$$$"]
    else if preference == "Street food" then ["$"]
    else ["$$"]
  }

  predicate KnownFoodPreference(preference: string) {
    preference in {"Local cuisine", "International", "Fine dining", "Street food"}
  }

  /** The rating of sample `i`: 3.5 plus 0.5 for each step of `i mod 3`, to one decimal. */
  function SampleRating(i: nat): real {
    Round1(3.5 + (i % 3) as real * 0.5)
  }

  function SampleName(destination: string, preference: string, i: nat): string {
    Fill(NameTexts(preference)[i % 5], destination) + " " + NatToString(i + 1)
  }

  function SampleAddress(n: nat, destination: string): string {
    "Sample Address " + NatToString(n) + ", " + destination
  }

  function SampleDescription(preference: string, destination: string): string {
    "A popular " + ToLower(preference) + " restaurant in " + destination
  }

  /** Sample restaurant `i`. */
  function SampleRestaurant(destination: string, preference: string, i: nat): Restaurant {
    var levels := PriceLevels(preference);
    Restaurant(
      SampleName(destination, preference, i),
      Some(SampleRating(i)),
      Some((i + 1) * 50),
      SampleAddress(i + 1, destination),
      levels[i % |levels|],
      preference,
      SampleDescription(preference, destination))
  }

  /** The first `count` samples, in order. */
  function SampleRestaurants(destination: string, preference: string, count: nat): (r: seq<Restaurant>)
    ensures |r| == count
  {
    seq(count, i requires 0 <= i < count => SampleRestaurant(destination, preference, i))
  }

  /** `generate_sample_restaurants`. */
  method GenerateSampleRestaurants(destination: string, preference: string, count: nat)
    returns (samples: seq<Restaurant>)
    ensures samples == SampleRestaurants(destination, preference, count)
  {
    var names := NameTexts(preference);
    var levels := PriceLevels(preference);
    var description := SampleDescription(preference, destination);
    samples := [];
    for i := 0 to count
      invariant |samples| == i
      invariant forall k :: 0 <= k < i ==> samples[k] == SampleRestaurant(destination, preference, k)
    {
      var name := Fill(names[i % |names|], destination) + " " + NatToString(i + 1);
      var sample := Restaurant(
        name, Some(SampleRating(i)), Some((i + 1) * 50), SampleAddress(i + 1, destination),
        levels[i % |levels|], preference, description);
      SampleRestaurantBuilt(destination, preference, i, names, levels, description, sample);
      SamplesExtended(destination, preference, samples, sample);
      samples := samples + [sample];
    }
    SamplesComplete(destination, preference, samples);
  }

  lemma SamplesExtended(destination: string, preference: string, samples: seq<Restaurant>, sample: Restaurant)
    requires forall k :: 0 <= k < |samples| ==> samples[k] == SampleRestaurant(destination, preference, k)
    requires sample == SampleRestaurant(destination, preference, |samples|)
    ensures forall k :: 0 <= k < |samples| + 1 ==> (samples + [sample])[k] == SampleRestaurant(destination, preference, k)
  {
  }

  lemma SamplesComplete(destination: string, preference: string, samples: seq<Restaurant>)
    requires forall k :: 0 <= k < |samples| ==> samples[k] == SampleRestaurant(destination, preference, k)
    ensures samples == SampleRestaurants(destination, preference, |samples|)
  {
  }

  /** The record the loop of `GenerateSampleRestaurants` builds from its hoisted values is sample `i`. */
  lemma SampleRestaurantBuilt(destination: string, preference: string, i: nat,
                              names: seq<Template>, levels: seq<string>, description: string, sample: Restaurant)
    requires names == NameTexts(preference) && levels == PriceLevels(preference)
    requires description == SampleDescription(preference, destination)
    requires sample == Restaurant(
      Fill(names[i % |names|], destination) + " " + NatToString(i + 1), Some(SampleRating(i)),
      Some((i + 1) * 50), SampleAddress(i + 1, destination), levels[i % |levels|], preference, description)
    ensures sample == SampleRestaurant(destination, preference, i)
  {
  }

  /**
   * Sample `i` is numbered `i + 1` after a name that cycles through the five of the
   * preference, is rated 3.5, 4.0 or 4.5 in turn, has 50 more reviews than the one before
   * and cycles through the preference's price levels.
   */
  lemma SampleRestaurantFields(destination: string, preference: string, i: nat)
    ensures var r := SampleRestaurant(destination, preference, i);
      && r.name == Fill(NameTexts(preference)[i % 5], destination) + " " + NatToString(i + 1)
      && r.rating == Some(if i % 3 == 0 then 3.5 else if i % 3 == 1 then 4.0 else 4.5)
      && r.reviews == Some((i + 1) * 50)
      && r.priceLevel == PriceLevels(preference)[i % |PriceLevels(preference)|]
      && r.cuisine == preference
  {
    SampleRatingSteps(i);
  }

  lemma SampleRatingSteps(i: nat)
    ensures SampleRating(i) == if i % 3 == 0 then 3.5 else if i % 3 == 1 then 4.0 else 4.5
  {
    Round1Tenths(35);
    Round1Tenths(40);
    Round1Tenths(45);
    assert 3.5 + 0 as real * 0.5 == 35 as real / 10.0;
    assert 3.5 + 1 as real * 0.5 == 40 as real / 10.0;
    assert 3.5 + 2 as real * 0.5 == 45 as real / 10.0;
  }

  /** An unknown food preference takes the local-cuisine names and the single price level "$$". */
  lemma UnknownFoodPreferenceDefaults(preference: string)
    requires !KnownFoodPreference(preference)
    ensures NameTexts(preference) == NameTexts("Local cuisine")
    ensures PriceLevels(preference) == ["$$"]
  {
  }

  // ---------------------------------------------------------------------------
  // Round-robin over the meals

  /** The elements of `s` at the positions `r`, `r + 3`, `r + 6`, ..., in order. */
  function Bucket<T>(s: seq<T>, r: nat): seq<T> {
    if s == [] then []
    else Bucket(s[..|s| - 1], r) + (if (|s| - 1) % 3 == r then [s[|s| - 1]] else [])
  }

  /** The three buckets under their meal types. */
  function Distributed(s: seq<Restaurant>): Recommendations {
    map["Breakfast" := Bucket(s, 0), "Lunch" := Bucket(s, 1), "Dinner" := Bucket(s, 2)]
  }

  /** Bucket `r` holds one element of every three, rounding up for the earlier buckets. */
  lemma {:induction false} BucketLength<T>(s: seq<T>, r: nat)
    requires r < 3
    ensures |Bucket(s, r)| == (|s| + 2 - r) / 3
  {
    if s != [] {
      BucketLength(s[..|s| - 1], r);
      CountStep(|s| - 1, r);
    }
  }

  /** Position `n` adds one to the count of positions congruent to `r` exactly when it is one of them. */
  lemma CountStep(n: nat, r: nat)
    requires r < 3
    ensures (n + 3 - r) / 3 == (n + 2 - r) / 3 + (if n % 3 == r then 1 else 0)
  {
    var q, m := n / 3, n % 3;
    assert n == 3 * q + m;
  }

  /** Element `k` of bucket `r` is element `3k + r` of the list. */
  lemma {:induction false} BucketAt<T>(s: seq<T>, r: nat, k: nat)
    requires r < 3 && k < |Bucket(s, r)|
    ensures 3 * k + r < |s| && Bucket(s, r)[k] == s[3 * k + r]
  {
    var init := s[..|s| - 1];
    BucketLength(init, r);
    BucketLength(s, r);
    if k < |Bucket(init, r)| {
      BucketAt(init, r, k);
    }
  }

  /** Element `i` of the list is element `i / 3` of bucket `i % 3`. */
  lemma LandsIn<T>(s: seq<T>, i: nat)
    requires i < |s|
    ensures i / 3 < |Bucket(s, i % 3)| && Bucket(s, i % 3)[i / 3] == s[i]
  {
    BucketLength(s, i % 3);
    BucketAt(s, i % 3, i / 3);
  }

  /** Every bucketed element comes from the list. */
  lemma BucketFrom<T>(s: seq<T>, r: nat, x: T)
    requires r < 3 && x in Bucket(s, r)
    ensures x in s
  {
    var k :| 0 <= k < |Bucket(s, r)| && Bucket(s, r)[k] == x;
    BucketAt(s, r, k);
  }

  /** The three buckets share the list out: their sizes add up to its length and differ by at most one. */
  lemma BucketSizes<T>(s: seq<T>)
    ensures |Bucket(s, 0)| + |Bucket(s, 1)| + |Bucket(s, 2)| == |s|
    ensures |Bucket(s, 2)| <= |Bucket(s, 1)| <= |Bucket(s, 0)| <= |Bucket(s, 2)| + 1
  {
    BucketLength(s, 0);
    BucketLength(s, 1);
    BucketLength(s, 2);
  }

  /** The distribution loop: each restaurant is appended to the bucket of its position. */
  method Distribute(restaurants: seq<Restaurant>) returns (recommendations: Recommendations)
    ensures recommendations == Distributed(restaurants)
  {
    var mealTypes := MealTypes;
    recommendations := map["Breakfast" := [], "Lunch" := [], "Dinner" := []];
    for i := 0 to |restaurants|
      invariant recommendations == Distributed(restaurants[..i])
    {
      var mealType := mealTypes[i % |mealTypes|];
      DistributeStep(restaurants, i);
      recommendations := recommendations[mealType := recommendations[mealType] + [restaurants[i]]];
    }
    assert restaurants[..|restaurants|] == restaurants;
  }

  lemma DistributeStep(s: seq<Restaurant>, i: nat)
    requires i < |s|
    ensures var before := Distributed(s[..i]);
      Distributed(s[..i + 1]) == before[MealTypes[i % 3] := before[MealTypes[i % 3]] + [s[i]]]
  {
    var t := s[..i + 1];
    assert t[..|t| - 1] == s[..i];
    var before, after := Distributed(s[..i]), Distributed(t);
    var meal := MealTypes[i % 3];
    var updated := before[meal := before[meal] + [s[i]]];
    assert after.Keys == updated.Keys;
    forall m | m in after
      ensures after[m] == updated[m]
    {
    }
  }

  // ---------------------------------------------------------------------------
  // The adapter

  /** What the source returns when the search fails: one restaurant per meal. */
  function FallbackRecommendations(destination: string, preference: string): (r: Recommendations)
    ensures forall m :: m in r <==> m in MealTypes
    ensures forall m :: m in r ==> |r[m]| == 1 && r[m][0].cuisine == preference
  {
    var low := ToLower(preference);
    map[
      "Breakfast" := [Restaurant(destination + " Morning Café", Some(4.3), Some(120), "123 Main St, " + destination,
                                 "$", preference, "A cozy breakfast spot serving " + low + " morning favorites")],
      "Lunch" := [Restaurant("Midday Bistro", Some(4.5), Some(250), "456 Center Ave, " + destination,
                             "$$", preference, "Popular lunch destination with " + low + " options")],
      "Dinner" := [Restaurant("Evening Delights", Some(4.7), Some(350), "789 Plaza Rd, " + destination,
                              "$$$", preference, "Elegant dinner venue featuring the best of " + low)]]
  }

  /** The search's restaurants followed, when there are fewer than fifteen, by the samples that make fifteen. */
  function FoodList(places: seq<LocalResult>, destination: string, preference: string): seq<Restaurant> {
    var found := FromPlaces(places, preference);
    if |found| < 15 then found + SampleRestaurants(destination, preference, 15 - |found|) else found
  }

  /** `get_food_recommendations` as a function of the search's answer. */
  function Recommend(destination: string, preference: string, special: Option<string>,
                     fetch: string -> Search<LocalResult>): Recommendations {
    match fetch(RestaurantQuery(preference, destination, special))
    case Failed => FallbackRecommendations(destination, preference)
    case Found(places) => Distributed(FoodList(places, destination, preference))
  }

  /** The loop that turns the search's places into restaurants. */
  method CollectRestaurants(places: seq<LocalResult>, preference: string) returns (restaurants: seq<Restaurant>)
    ensures restaurants == FromPlaces(places, preference)
  {
    restaurants := [];
    for j := 0 to |places|
      invariant |restaurants| == j
      invariant forall k :: 0 <= k < j ==> restaurants[k] == FromPlace(places[k], preference)
    {
      restaurants := restaurants + [FromPlace(places[j], preference)];
    }
  }

  /** `get_food_recommendations`. */
  method GetFoodRecommendations(destination: string, preference: string, special: Option<string>,
                                fetch: string -> Search<LocalResult>)
    returns (recommendations: Recommendations)
    ensures recommendations == Recommend(destination, preference, special, fetch)
  {
    var query := RestaurantQuery(preference, destination, special);
    var reply := fetch(query);
    if reply.Failed? {
      return FallbackRecommendations(destination, preference);
    }
    var restaurants := CollectRestaurants(reply.results, preference);
    if |restaurants| < 15 {
      var samples := GenerateSampleRestaurants(destination, preference, 15 - |restaurants|);
      restaurants := restaurants + samples;
    }
    recommendations := Distribute(restaurants);
  }

  // ---------------------------------------------------------------------------
  // What the recommendations are

  /** The list is the search's restaurants in order, topped up with samples to fifteen when short. */
  lemma FoodListShape(places: seq<LocalResult>, destination: string, preference: string)
    ensures var l := FoodList(places, destination, preference);
      && |l| == (if |places| < 15 then 15 else |places|)
      && (forall k :: 0 <= k < |places| ==> l[k] == FromPlace(places[k], preference))
      && (forall k :: |places| <= k < |l| ==> l[k] == SampleRestaurant(destination, preference, k - |places|))
  {
    var found := FromPlaces(places, preference);
    var l := FoodList(places, destination, preference);
    if |found| < 15 {
      var samples := SampleRestaurants(destination, preference, 15 - |found|);
      Concatenated(found, samples, l);
    }
  }

  lemma Concatenated<T>(a: seq<T>, b: seq<T>, l: seq<T>)
    requires l == a + b
    ensures forall k :: 0 <= k < |a| ==> l[k] == a[k]
    ensures forall k :: |a| <= k < |l| ==> l[k] == b[k - |a|]
  {
  }

  /** Every restaurant in the list is of the preferred cuisine. */
  lemma FoodListCuisine(places: seq<LocalResult>, destination: string, preference: string)
    ensures forall x :: x in FoodList(places, destination, preference) ==> x.cuisine == preference
  {
    var l := FoodList(places, destination, preference);
    FoodListShape(places, destination, preference);
    forall x | x in l
      ensures x.cuisine == preference
    {
      var k :| 0 <= k < |l| && l[k] == x;
      if k < |places| {
        assert x == FromPlace(places[k], preference);
      } else {
        assert x == SampleRestaurant(destination, preference, k - |places|);
      }
    }
  }

  /**
   * The spread of a list over the meals: exactly the three meal types; element `i` is
   * under meal type `i mod 3` at position `i / 3`; the counts add up to the list's length
   * and differ by at most one, so a list of at least fifteen gives every meal five.
   */
  lemma DistributedShape(l: seq<Restaurant>)
    ensures var r := Distributed(l);
      && r.Keys == {"Breakfast", "Lunch", "Dinner"}
      && (forall i :: 0 <= i < |l| ==> i / 3 < |r[MealTypes[i % 3]]| && r[MealTypes[i % 3]][i / 3] == l[i])
      && |r["Breakfast"]| + |r["Lunch"]| + |r["Dinner"]| == |l|
      && |r["Dinner"]| <= |r["Lunch"]| <= |r["Breakfast"]| <= |r["Dinner"]| + 1
      && (|l| >= 15 ==> |r["Dinner"]| >= 5)
  {
    BucketSizes(l);
    BucketLength(l, 2);
    var r := Distributed(l);
    forall i | 0 <= i < |l|
      ensures i / 3 < |r[MealTypes[i % 3]]| && r[MealTypes[i % 3]][i / 3] == l[i]
    {
      LandsIn(l, i);
      assert r[MealTypes[i % 3]] == Bucket(l, i % 3);
    }
  }

  /**
   * The answer always has exactly the three meal types; after a search the list that is
   * spread over them holds at least fifteen restaurants, so every meal gets at least five.
   */
  lemma RecommendShape(destination: string, preference: string, special: Option<string>,
                       fetch: string -> Search<LocalResult>)
    ensures Recommend(destination, preference, special, fetch).Keys == {"Breakfast", "Lunch", "Dinner"}
    ensures var reply := fetch(RestaurantQuery(preference, destination, special));
      reply.Found? ==>
        && Recommend(destination, preference, special, fetch) == Distributed(FoodList(reply.results, destination, preference))
        && |FoodList(reply.results, destination, preference)| >= 15
        && forall m :: m in MealTypes ==> |Recommend(destination, preference, special, fetch)[m]| >= 5
  {
    var reply := fetch(RestaurantQuery(preference, destination, special));
    if reply.Found? {
      var l := FoodList(reply.results, destination, preference);
      FoodListShape(reply.results, destination, preference);
      DistributedShape(l);
    }
  }

  /** Every recommended restaurant, from the search, a sample or the fallback, is of the preferred cuisine. */
  lemma RecommendCuisine(destination: string, preference: string, special: Option<string>,
                         fetch: string -> Search<LocalResult>)
    ensures var r := Recommend(destination, preference, special, fetch);
      forall m, x :: m in r && x in r[m] ==> x.cuisine == preference
  {
    var reply := fetch(RestaurantQuery(preference, destination, special));
    var r := Recommend(destination, preference, special, fetch);
    if reply.Found? {
      var l := FoodList(reply.results, destination, preference);
      FoodListCuisine(reply.results, destination, preference);
      forall m: string, x: Restaurant | m in r && x in r[m]
        ensures x.cuisine == preference
      {
        var k := if m == "Breakfast" then 0 else if m == "Lunch" then 1 else 2;
        assert r[m] == Bucket(l, k);
        BucketFrom(l, k, x);
      }
    }
  }

  /** When the search fails every meal gets exactly its one fixed restaurant. */
  lemma FallbackRecommendationsShape(destination: string, preference: string)
    ensures var r := FallbackRecommendations(destination, preference);
      && r.Keys == {"Breakfast", "Lunch", "Dinner"}
      && |r["Breakfast"]| == 1 && |r["Lunch"]| == 1 && |r["Dinner"]| == 1
      && r["Breakfast"][0].rating == Some(4.3) && r["Lunch"][0].rating == Some(4.5) && r["Dinner"][0].rating == Some(4.7)
      && r["Breakfast"][0].priceLevel == "$" && r["Lunch"][0].priceLevel == "$$" && r["Dinner"][0].priceLevel == "$$$"
  {
  }
}
