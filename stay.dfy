/**
 * tools/stay.py: the nightly price cap, the filter of the hotels the search returns,
 * the top-up to five options with generated samples, and the single-option answer
 * given when the search fails. The hotel search is the parameter `fetch`; the random
 * choice of a description is the parameter `pick`.
 */
module Stay {
  import opened Wrappers
  import opened Rounding
  import opened Text
  import opened Serp
  import opened Templates

  /** One hotel of the search reply's `properties`; an absent field is `None`. */
  datatype Property = Property(
    name: Option<string>,
    rating: Option<real>,
    reviews: Option<int>,
    address: Option<string>,
    price: Option<string>,
    amenities: Option<seq<string>>)

  /** The hotels request: "<preference> hotels in <destination>" and the two dates. */
  datatype HotelQuery = HotelQuery(q: string, checkIn: int, checkOut: int)

  /** One accommodation option; a rating or review count copied as "N/A" is `None`. */
  datatype Accommodation = Accommodation(
    name: string,
    rating: Option<real>,
    reviews: Option<int>,
    address: string,
    pricePerNight: real,
    totalPrice: real,
    amenities: seq<string>,
    description: string)

  // ---------------------------------------------------------------------------
  // The price cap

  /** How the accommodation preference scales the nightly share of the budget; anything else counts as luxury. */
  function PreferenceFactor(preference: string): real {
    if preference == "Budget" then 0.7 else if preference == "Mid-range" then 1.0 else 1.3
  }

  /** The highest nightly price: 40% of the budget spread over the nights, scaled by the preference. */
  function MaxNightlyPrice(budget: real, numNights: int, preference: string): (r: real)
    requires numNights >= 1
    ensures r * numNights as real == budget * 0.4 * PreferenceFactor(preference)
  {
    var daily := (budget * 0.4) / numNights as real;
    assert daily * numNights as real == budget * 0.4;
    if preference == "Budget" then daily * 0.7
    else if preference == "Mid-range" then daily
    else daily * 1.3
  }

  /** For a non-negative budget the caps grow from Budget to Mid-range to any other preference. */
  lemma CapOrder(budget: real, numNights: int, other: string)
    requires numNights >= 1 && budget >= 0.0
    requires other != "Budget" && other != "Mid-range"
    ensures 0.0 <= MaxNightlyPrice(budget, numNights, "Budget") <= MaxNightlyPrice(budget, numNights, "Mid-range")
    ensures MaxNightlyPrice(budget, numNights, "Mid-range") <= MaxNightlyPrice(budget, numNights, other)
    ensures MaxNightlyPrice(budget, numNights, other) == MaxNightlyPrice(budget, numNights, "Luxury")
  {
    var daily := (budget * 0.4) / numNights as real;
    assert daily >= 0.0;
  }

  // ---------------------------------------------------------------------------
  // Descriptions

  /** The three description texts of each preference. */
  const BudgetDescriptions: seq<Template> := [
    Around("An affordable option in ", " with basic amenities and comfortable rooms."),
    Around("A no-frills accommodation offering good value for money in ", "."),
    Around("A simple but clean hotel in a convenient location in ", ".")]
  const LuxuryDescriptions: seq<Template> := [
    Around("An upscale hotel offering premium amenities and exceptional service in ", "."),
    Around("A luxurious accommodation option with elegant rooms and top-notch facilities in ", "."),
    Around("A high-end hotel providing a sophisticated experience in ", ".")]
  const MidRangeDescriptions: seq<Template> := [
    Around("A comfortable hotel with good amenities and service in ", "."),
    Around("A well-appointed accommodation option with a good location in ", "."),
    Around("A pleasant stay with a balance of comfort and value in ", ".")]

  function DescriptionTexts(preference: string): seq<Template> {
    if preference == "Budget" then BudgetDescriptions
    else if preference == "Luxury" then LuxuryDescriptions
    else MidRangeDescriptions
  }

  /** The three descriptions of a preference at a destination; any preference but Budget and Luxury has Mid-range's. */
  function HotelDescriptions(preference: string, destination: string): (r: seq<string>)
    ensures |r| == 3
  {
    var t := DescriptionTexts(preference);
    [Fill(t[0], destination), Fill(t[1], destination), Fill(t[2], destination)]
  }

  /** `generate_hotel_description`: one of the preference's three texts, `choice` standing for the random pick. */
  function HotelDescription(preference: string, destination: string, choice: nat): (r: string)
    ensures r in HotelDescriptions(preference, destination)
  {
    HotelDescriptions(preference, destination)[choice % 3]
  }

  // ---------------------------------------------------------------------------
  // Sample accommodations

  predicate KnownPreference(preference: string) {
    preference == "Budget" || preference == "Mid-range" || preference == "Luxury"
  }

  /** The five sample hotel names of each preference. */
  const BudgetNames: seq<Template> := [
    Around("", " Budget Inn"), Around("Economy Stay ", ""), Around("", " Hostel"),
    Around("Backpacker's ", ""), Around("Value Lodge ", "")]
  const LuxuryNames: seq<Template> := [
    Around("Grand ", " Hotel"), Around("", " Luxury Resort"), Around("Royal ", ""),
    Around("", " Palace Hotel"), Around("Elite Suites ", "")]
  const MidRangeNames: seq<Template> := [
    Around("", " Comfort Hotel"), Around("", " Plaza"), Around("Central Hotel ", ""),
    Around("", " Suites"), Around("Park Hotel ", "")]

  function NameTexts(preference: string): seq<Template> {
    if preference == "Budget" then BudgetNames
    else if preference == "Luxury" then LuxuryNames
    else MidRangeNames
  }

  /** The five sample hotel names of a preference at a destination; any preference but Budget and Luxury has Mid-range's. */
  function HotelNames(destination: string, preference: string): (r: seq<string>)
    ensures |r| == 5
  {
    var t := NameTexts(preference);
    [ Fill(t[0], destination), Fill(t[1], destination), Fill(t[2], destination),
      Fill(t[3], destination), Fill(t[4], destination) ]
  }

  /** The rating range, in tenths: (lowest, highest). */
  function RatingRange(preference: string): (int, int) {
    if preference == "Budget" then (30, 40)
    else if preference == "Mid-range" then (38, 45)
    else if preference == "Luxury" then (42, 50)
    else (35, 45)
  }

  /** The price range as a fraction of the cap: (lowest, highest). */
  function PriceRange(preference: string): (r: (real, real))
    ensures 0.0 < r.0 <= r.1 <= 1.0
  {
    if preference == "Budget" then (0.6, 0.9)
    else if preference == "Luxury" then (0.8, 1.0)
    else (0.7, 0.95)
  }

  const BudgetAmenities := ["WiFi", "Air conditioning", "TV", "Private bathroom"]
  const LuxuryAmenities :=
    ["WiFi", "Air conditioning", "TV", "Room service", "Restaurant", "Gym", "Pool", "Spa", "Concierge", "Valet parking"]
  const MidRangeAmenities := ["WiFi", "Air conditioning", "TV", "Room service", "Restaurant", "Gym", "Pool"]

  function Amenities(preference: string): seq<string> {
    if preference == "Budget" then BudgetAmenities
    else if preference == "Luxury" then LuxuryAmenities
    else MidRangeAmenities
  }

  /** What a stay of `numNights` nights costs at `nightly` a night. */
  function StayCost(nightly: real, numNights: int): real {
    nightly * numNights as real
  }

  /** The nightly price of a stay that costs `total` over `numNights` nights. */
  function NightlyPrice(total: real, numNights: int): (r: real)
    requires numNights >= 1
    ensures StayCost(r, numNights) == total
  {
    total / numNights as real
  }

  /** `i / max(1, count - 1)`: where sample `i` of `count` sits between the low and the high end. */
  function Interpolation(i: nat, count: nat): real {
    i as real / (if count >= 2 then count - 1 else 1) as real
  }

  lemma InterpolationBounds(i: nat, j: nat, count: nat)
    requires i <= j < count
    ensures 0.0 <= Interpolation(i, count) <= Interpolation(j, count) <= 1.0
  {
    var d := (if count >= 2 then count - 1 else 1) as real;
    assert i as real <= j as real <= d;
  }

  /** The fraction of the cap that sample `i` of `count` costs per night. */
  function PriceFactor(preference: string, i: nat, count: nat): real {
    var lo, hi := PriceRange(preference).0, PriceRange(preference).1;
    lo + (hi - lo) * Interpolation(i, count)
  }

  /** The unrounded rating of sample `i` of `count`. */
  function RatingFactor(preference: string, i: nat, count: nat): real {
    var lo := RatingRange(preference).0 as real / 10.0;
    var hi := RatingRange(preference).1 as real / 10.0;
    lo + (hi - lo) * Interpolation(i, count)
  }

  function SampleAddress(n: nat, destination: string): string {
    "Sample Address " + NatToString(n) + ", " + destination
  }

  /** Sample `i` of `count`; `choice` picks its description. */
  function SampleAccommodation(destination: string, preference: string, maxPrice: real, numNights: int,
                               count: nat, i: nat, choice: nat): Accommodation {
    var pricePerNight := Round2(maxPrice * PriceFactor(preference, i, count));
    Accommodation(
      HotelNames(destination, preference)[i % 5],
      Some(Round1(RatingFactor(preference, i, count))),
      Some((i + 1) * 50),
      SampleAddress(i + 1, destination),
      pricePerNight,
      Round2(StayCost(pricePerNight, numNights)),
      Amenities(preference),
      HotelDescription(preference, destination, choice))
  }

  /** `samples` is the list of the `count` samples; sample `i` takes its description from `pick(offset + i)`. */
  predicate AreSamples(samples: seq<Accommodation>, destination: string, preference: string, maxPrice: real,
                       numNights: int, count: nat, pick: nat -> nat, offset: nat) {
    && |samples| == count
    && forall i :: 0 <= i < count ==>
         samples[i] == SampleAccommodation(destination, preference, maxPrice, numNights, count, i, pick(offset + i))
  }

  /** `generate_sample_accommodations`. */
  method GenerateSampleAccommodations(destination: string, preference: string, maxPrice: real, numNights: int,
                                      count: nat, pick: nat -> nat, offset: nat)
    returns (samples: seq<Accommodation>)
    ensures AreSamples(samples, destination, preference, maxPrice, numNights, count, pick, offset)
  {
    samples := [];
    for i := 0 to count
      invariant |samples| == i
      invariant forall k :: 0 <= k < i ==>
                  samples[k] == SampleAccommodation(destination, preference, maxPrice, numNights, count, k, pick(offset + k))
    {
      var rating := Round1(RatingFactor(preference, i, count));
      var pricePerNight := Round2(maxPrice * PriceFactor(preference, i, count));
      var name := HotelNames(destination, preference)[i % 5];
      var sample := Accommodation(
        name, Some(rating), Some((i + 1) * 50),
        SampleAddress(i + 1, destination),
        pricePerNight, Round2(StayCost(pricePerNight, numNights)), Amenities(preference),
        HotelDescription(preference, destination, pick(offset + i)));
      assert sample == SampleAccommodation(destination, preference, maxPrice, numNights, count, i, pick(offset + i));
      samples := samples + [sample];
    }
  }

  /** Names cycle through the five of the preference, reviews grow by 50, addresses are numbered from 1. */
  lemma SampleFields(destination: string, preference: string, maxPrice: real, numNights: int, count: nat, i: nat, choice: nat)
    ensures var a := SampleAccommodation(destination, preference, maxPrice, numNights, count, i, choice);
      && a.name == HotelNames(destination, preference)[i % 5]
      && a.reviews == Some((i + 1) * 50)
      && a.address == "Sample Address " + NatToString(i + 1) + ", " + destination
      && a.description in HotelDescriptions(preference, destination)
  {
  }

  /** A sample's nightly price is the cap times its price factor, and its total is that price times the nights, each rounded to cents. */
  lemma SamplePrices(destination: string, preference: string, maxPrice: real, numNights: int, count: nat, i: nat, choice: nat)
    ensures var a := SampleAccommodation(destination, preference, maxPrice, numNights, count, i, choice);
      && a.pricePerNight == Round2(maxPrice * PriceFactor(preference, i, count))
      && a.totalPrice == Round2(StayCost(a.pricePerNight, numNights))
  {
  }

  /** Each sample's price factor lies in the preference's range, so its unrounded nightly price is within the cap. */
  lemma SamplePriceWithinCap(preference: string, maxPrice: real, i: nat, count: nat)
    requires i < count && maxPrice >= 0.0
    ensures PriceRange(preference).0 <= PriceFactor(preference, i, count) <= PriceRange(preference).1 <= 1.0
    ensures 0.0 <= maxPrice * PriceFactor(preference, i, count) <= maxPrice
  {
    InterpolationBounds(i, i, count);
    InterpolationBounds(0, i, count);
    var (lo, hi) := PriceRange(preference);
    var t := Interpolation(i, count);
    assert (hi - lo) * t <= hi - lo;
    var f := PriceFactor(preference, i, count);
    assert maxPrice * f <= maxPrice * 1.0;
  }

  /** Later samples are never cheaper per unit of cap. */
  lemma SampleFactorMonotone(preference: string, i: nat, j: nat, count: nat)
    requires i <= j < count
    ensures PriceFactor(preference, i, count) <= PriceFactor(preference, j, count)
  {
    InterpolationBounds(i, j, count);
    var (lo, hi) := PriceRange(preference);
    assert (hi - lo) * Interpolation(i, count) <= (hi - lo) * Interpolation(j, count);
  }

  lemma RatingFactorBounds(preference: string, i: nat, count: nat)
    requires i < count
    ensures RatingRange(preference).0 as real / 10.0 <= RatingFactor(preference, i, count)
                                                    <= RatingRange(preference).1 as real / 10.0
  {
    InterpolationBounds(0, i, count);
    InterpolationBounds(i, i, count);
    var lo := RatingRange(preference).0 as real / 10.0;
    var hi := RatingRange(preference).1 as real / 10.0;
    var t := Interpolation(i, count);
    assert 0.0 <= (hi - lo) * t <= hi - lo;
  }

  /** Every sample's rating lies in the preference's rating range. */
  lemma SampleRatingInRange(destination: string, preference: string, maxPrice: real, numNights: int,
                            count: nat, i: nat, choice: nat)
    requires i < count
    ensures var a := SampleAccommodation(destination, preference, maxPrice, numNights, count, i, choice);
      a.rating.Some? && RatingRange(preference).0 as real / 10.0 <= a.rating.value <= RatingRange(preference).1 as real / 10.0
  {
    RatingFactorBounds(preference, i, count);
    Round1Between(RatingRange(preference).0, RatingFactor(preference, i, count), RatingRange(preference).1);
  }

  /** An unknown preference takes the Mid-range names, amenities and price range, and ratings 3.5 to 4.5. */
  lemma UnknownPreferenceDefaults(destination: string, preference: string)
    requires !KnownPreference(preference)
    ensures HotelNames(destination, preference) == HotelNames(destination, "Mid-range")
    ensures Amenities(preference) == Amenities("Mid-range")
    ensures HotelDescriptions(preference, destination) == HotelDescriptions("Mid-range", destination)
    ensures RatingRange(preference) == (35, 45) && PriceRange(preference) == (0.7, 0.95)
  {
  }

  // ---------------------------------------------------------------------------
  // Hotels from the search

  /** The price text with every "$" and "," removed, parsed; a missing price reads as "$0". */
  function ParsePrice(h: Property): Option<real> {
    ParseDecimal(RemoveChar(RemoveChar(h.price.GetOr("$0"), '$'), ','))
  }

  lemma MissingPriceIsZero(h: Property)
    requires h.price.None?
    ensures ParsePrice(h) == Some(0.0)
  {
    assert RemoveChar("$0", '$') == "0";
    assert RemoveChar("0", ',') == "0";
    assert NatToString(0) == "0";
    ParseDecimalOfNat(0);
  }

  /** A price written "$<digits>.<digits>" reads as that decimal. */
  lemma DollarPrice(h: Property, w: string, f: string)
    requires AllDigits(w) && AllDigits(f) && (w != [] || f != [])
    requires h.price == Some("$" + (w + "." + f))
    ensures ParsePrice(h) == Some(DigitsValue(w) as real + FractionValue(f))
  {
    var u := w + "." + f;
    assert '$' !in u && ',' !in u by {
      forall k | 0 <= k < |u|
        ensures u[k] != '$' && u[k] != ','
      {
        if k < |w| {
          assert u[k] == w[k];
        } else if k > |w| {
          assert u[k] == f[k - |w| - 1];
        }
      }
    }
    RemoveCharAppend("$", u, '$');
    assert RemoveChar("$", '$') == [];
    assert RemoveChar("$" + u, '$') == u;
    ParseDecimalPoint(u, w, f);
  }

  /** The parsed price of every search hotel. */
  function ParsePrices(props: seq<Property>): (r: seq<Option<real>>)
    ensures |r| == |props|
  {
    if props == [] then [] else [ParsePrice(props[0])] + ParsePrices(props[1..])
  }

  lemma {:induction false} ParsePricesAt(props: seq<Property>, k: nat)
    requires k < |props|
    ensures ParsePrices(props)[k] == ParsePrice(props[k])
  {
    if k > 0 {
      ParsePricesAt(props[1..], k - 1);
    }
  }

  /** The option made from a search hotel whose stay costs `price`. */
  function FromProperty(h: Property, price: real, numNights: int, preference: string, destination: string,
                        choice: nat): Accommodation
    requires numNights >= 1
  {
    Accommodation(
      h.name.GetOr("Unknown Hotel"), h.rating, h.reviews, h.address.GetOr("N/A"),
      Round2(NightlyPrice(price, numNights)), price, h.amenities.GetOr(["WiFi", "Air conditioning"]),
      HotelDescription(preference, destination, choice))
  }

  /**
   * The options kept from the search hotels `props[j..]`, whose parsed prices are `prices`, in
   * order: those whose whole stay costs at most the cap times the nights; hotel `k` takes its
   * description from `pick(k)`. `None` when a price does not parse, where the source raises.
   */
  function KeptFrom(props: seq<Property>, prices: seq<Option<real>>, j: nat, maxPrice: real, numNights: int,
                    preference: string, destination: string, pick: nat -> nat): (r: Option<seq<Accommodation>>)
    requires numNights >= 1 && j <= |props| == |prices|
    ensures r.Some? ==> |r.value| <= |props| - j
    ensures r.Some? ==> forall a :: a in r.value ==>
              a.totalPrice <= StayCost(maxPrice, numNights) && a.pricePerNight == Round2(NightlyPrice(a.totalPrice, numNights))
    decreases |props| - j
  {
    if j == |props| then Some([])
    else
      match prices[j]
      case None => None
      case Some(price) =>
        match KeptFrom(props, prices, j + 1, maxPrice, numNights, preference, destination, pick)
        case None => None
        case Some(rest) =>
          if price <= StayCost(maxPrice, numNights)
          then Some([FromProperty(props[j], price, numNights, preference, destination, pick(j))] + rest)
          else Some(rest)
  }

  /** The options kept from all the search hotels, or `None` when a price does not parse. */
  function WithinBudget(props: seq<Property>, maxPrice: real, numNights: int, preference: string,
                        destination: string, pick: nat -> nat): Option<seq<Accommodation>>
    requires numNights >= 1
  {
    KeptFrom(props, ParsePrices(props), 0, maxPrice, numNights, preference, destination, pick)
  }

  /** The filter gives up exactly when one of the prices does not parse. */
  lemma {:induction false} KeptFromFails(props: seq<Property>, prices: seq<Option<real>>, j: nat, maxPrice: real,
                                         numNights: int, preference: string, destination: string, pick: nat -> nat)
    requires numNights >= 1 && j <= |props| == |prices|
    ensures KeptFrom(props, prices, j, maxPrice, numNights, preference, destination, pick).None? <==>
              exists k :: j <= k < |props| && prices[k].None?
    decreases |props| - j
  {
    if j < |props| {
      KeptFromFails(props, prices, j + 1, maxPrice, numNights, preference, destination, pick);
    }
  }

  /** `a` is the option made from the search hotel `h`, whose stay costs `price` and fits the cap, described by `choice`. */
  predicate Gives(h: Property, price: Option<real>, choice: nat, maxPrice: real, numNights: int, preference: string,
                  destination: string, a: Accommodation)
    requires numNights >= 1
  {
    price.Some? && price.value <= StayCost(maxPrice, numNights) &&
    a == FromProperty(h, price.value, numNights, preference, destination, choice)
  }

  /** When every price parses, an option is kept exactly when one of the hotels fits the cap and gave it. */
  lemma {:induction false} KeptFromExactly(props: seq<Property>, prices: seq<Option<real>>, j: nat, maxPrice: real,
                                           numNights: int, preference: string, destination: string, pick: nat -> nat,
                                           a: Accommodation)
    requires numNights >= 1 && j <= |props| == |prices|
    requires KeptFrom(props, prices, j, maxPrice, numNights, preference, destination, pick).Some?
    ensures a in KeptFrom(props, prices, j, maxPrice, numNights, preference, destination, pick).value <==>
      exists k :: j <= k < |props| && Gives(props[k], prices[k], pick(k), maxPrice, numNights, preference, destination, a)
    decreases |props| - j
  {
    if j < |props| {
      KeptFromExactly(props, prices, j + 1, maxPrice, numNights, preference, destination, pick, a);
      var r := KeptFrom(props, prices, j, maxPrice, numNights, preference, destination, pick).value;
      var rest := KeptFrom(props, prices, j + 1, maxPrice, numNights, preference, destination, pick).value;
      if Gives(props[j], prices[j], pick(j), maxPrice, numNights, preference, destination, a) {
        assert r == [a] + rest;
      }
      if exists k :: j <= k < |props| && Gives(props[k], prices[k], pick(k), maxPrice, numNights, preference, destination, a) {
        var k :| j <= k < |props| && Gives(props[k], prices[k], pick(k), maxPrice, numNights, preference, destination, a);
        if k > j {
          assert a in rest;
        }
      }
    }
  }

  /** When every price parses, every hotel is kept if all fit the cap, and none is if none does. */
  lemma {:induction false} KeptFromLength(props: seq<Property>, prices: seq<Option<real>>, j: nat, maxPrice: real,
                                          numNights: int, preference: string, destination: string, pick: nat -> nat)
    requires numNights >= 1 && j <= |props| == |prices|
    requires KeptFrom(props, prices, j, maxPrice, numNights, preference, destination, pick).Some?
    ensures (forall k :: j <= k < |props| ==> prices[k].Some? && prices[k].value <= StayCost(maxPrice, numNights)) ==>
              |KeptFrom(props, prices, j, maxPrice, numNights, preference, destination, pick).value| == |props| - j
    ensures (forall k :: j <= k < |props| ==> prices[k].Some? && prices[k].value > StayCost(maxPrice, numNights)) ==>
              KeptFrom(props, prices, j, maxPrice, numNights, preference, destination, pick).value == []
    decreases |props| - j
  {
    if j < |props| {
      KeptFromLength(props, prices, j + 1, maxPrice, numNights, preference, destination, pick);
    }
  }

  // ---------------------------------------------------------------------------
  // The adapter

  /** `generate_fallback_accommodations`: one option priced at the cap. */
  function FallbackAccommodations(destination: string, preference: string, budget: real, numNights: int,
                                  choice: nat): (r: seq<Accommodation>)
    requires numNights >= 1
    ensures |r| == 1
    ensures r[0].pricePerNight == Round2(MaxNightlyPrice(budget, numNights, preference))
    ensures r[0].totalPrice == Round2(StayCost(MaxNightlyPrice(budget, numNights, preference), numNights))
    ensures r[0].rating == Some(4.0) && r[0].reviews == Some(150)
  {
    var dailyBudget := (budget * 0.4) / numNights as real;
    var price := if preference == "Budget" then dailyBudget * 0.7
                 else if preference == "Mid-range" then dailyBudget
                 else dailyBudget * 1.3;
    assert price == MaxNightlyPrice(budget, numNights, preference);
    [ Accommodation(
        preference + " Hotel " + destination, Some(4.0), Some(150), "123 Main St, " + destination,
        Round2(price), Round2(StayCost(price, numNights)), ["WiFi", "Air conditioning", "TV"],
        HotelDescription(preference, destination, choice)) ]
  }

  function HotelSearch(destination: string, checkIn: int, checkOut: int, preference: string): HotelQuery {
    HotelQuery(preference + " hotels in " + destination, checkIn, checkOut)
  }

  /** One step of the filter: hotel `j`, whose price parsed, is appended to `kept` when it fits the cap. */
  function KeepStep(kept: seq<Accommodation>, h: Property, price: real, j: nat, maxPrice: real, numNights: int,
                    preference: string, destination: string, pick: nat -> nat): seq<Accommodation>
    requires numNights >= 1
  {
    if price <= StayCost(maxPrice, numNights)
    then kept + [FromProperty(h, price, numNights, preference, destination, pick(j))]
    else kept
  }

  lemma KeptFromStep(props: seq<Property>, prices: seq<Option<real>>, j: nat, kept: seq<Accommodation>,
                     maxPrice: real, numNights: int, preference: string, destination: string, pick: nat -> nat)
    requires numNights >= 1 && j < |props| == |prices| && prices[j].Some?
    ensures var here := KeptFrom(props, prices, j, maxPrice, numNights, preference, destination, pick);
            var next := KeptFrom(props, prices, j + 1, maxPrice, numNights, preference, destination, pick);
            && (here.None? <==> next.None?)
            && (here.Some? ==>
                  kept + here.value ==
                  KeepStep(kept, props[j], prices[j].value, j, maxPrice, numNights, preference, destination, pick)
                  + next.value)
  {
    var next := KeptFrom(props, prices, j + 1, maxPrice, numNights, preference, destination, pick);
    if next.Some? && prices[j].value <= StayCost(maxPrice, numNights) {
      var a := FromProperty(props[j], prices[j].value, numNights, preference, destination, pick(j));
      assert kept + ([a] + next.value) == kept + [a] + next.value;
    }
  }

  /** The loop over the search hotels: the kept options, or `None` where a price does not parse. */
  method FilterWithinBudget(props: seq<Property>, maxPrice: real, numNights: int, preference: string,
                            destination: string, pick: nat -> nat)
    returns (kept: Option<seq<Accommodation>>)
    requires numNights >= 1
    ensures kept == WithinBudget(props, maxPrice, numNights, preference, destination, pick)
  {
    ghost var prices := ParsePrices(props);
    var accommodations: seq<Accommodation> := [];
    ghost var all := KeptFrom(props, prices, 0, maxPrice, numNights, preference, destination, pick);
    assert all.Some? ==> accommodations + all.value == all.value;
    for j := 0 to |props|
      invariant KeptFrom(props, prices, j, maxPrice, numNights, preference, destination, pick).None? ==>
                  WithinBudget(props, maxPrice, numNights, preference, destination, pick).None?
      invariant KeptFrom(props, prices, j, maxPrice, numNights, preference, destination, pick).Some? ==>
                  WithinBudget(props, maxPrice, numNights, preference, destination, pick) ==
                  Some(accommodations + KeptFrom(props, prices, j, maxPrice, numNights, preference, destination, pick).value)
    {
      var price := ParsePrice(props[j]);
      ParsePricesAt(props, j);
      if price.None? {
        return None;
      }
      KeptFromStep(props, prices, j, accommodations, maxPrice, numNights, preference, destination, pick);
      if price.value <= StayCost(maxPrice, numNights) {
        accommodations := accommodations + [FromProperty(props[j], price.value, numNights, preference, destination, pick(j))];
      }
    }
    assert accommodations + [] == accommodations;
    return Some(accommodations);
  }

  /**
   * `options` is `kept` followed, when `kept` has fewer than five options, by the samples that
   * bring it to five; sample `i` takes its description from `pick(offset + i)`.
   */
  predicate ToppedUp(options: seq<Accommodation>, kept: seq<Accommodation>, destination: string, preference: string,
                     maxPrice: real, numNights: int, pick: nat -> nat, offset: nat) {
    && |options| == (if |kept| < 5 then 5 else |kept|)
    && options[..|kept|] == kept
    && (|kept| < 5 ==>
          AreSamples(options[|kept|..], destination, preference, maxPrice, numNights, 5 - |kept|, pick, offset))
  }

  /** The top-up of the kept options to five with generated samples. */
  method TopUp(kept: seq<Accommodation>, destination: string, preference: string, maxPrice: real, numNights: int,
               pick: nat -> nat, offset: nat)
    returns (options: seq<Accommodation>)
    ensures ToppedUp(options, kept, destination, preference, maxPrice, numNights, pick, offset)
  {
    if |kept| < 5 {
      var samples := GenerateSampleAccommodations(destination, preference, maxPrice, numNights, 5 - |kept|, pick, offset);
      options := kept + samples;
      assert options[..|kept|] == kept;
      assert options[|kept|..] == samples;
    } else {
      options := kept;
    }
  }

  /**
   * `get_accommodation_options`: the affordable search hotels in order, topped up with
   * samples to five; the fallback option when the search fails or a price does not parse.
   */
  method GetAccommodationOptions(destination: string, checkIn: int, checkOut: int, preference: string, budget: real,
                                 fetch: HotelQuery -> Search<Property>, pick: nat -> nat)
    returns (options: seq<Accommodation>)
    requires checkIn < checkOut
    ensures var numNights := checkOut - checkIn;
            var maxPrice := MaxNightlyPrice(budget, numNights, preference);
            var reply := fetch(HotelSearch(destination, checkIn, checkOut, preference));
            (reply.Failed? || WithinBudget(reply.results, maxPrice, numNights, preference, destination, pick).None?) ==>
              options == FallbackAccommodations(destination, preference, budget, numNights, pick(0))
    ensures var numNights := checkOut - checkIn;
            var maxPrice := MaxNightlyPrice(budget, numNights, preference);
            var reply := fetch(HotelSearch(destination, checkIn, checkOut, preference));
            reply.Found? && WithinBudget(reply.results, maxPrice, numNights, preference, destination, pick).Some? ==>
              ToppedUp(options, WithinBudget(reply.results, maxPrice, numNights, preference, destination, pick).value,
                       destination, preference, maxPrice, numNights, pick, |reply.results|)
  {
    var numNights := checkOut - checkIn;
    var maxPrice := MaxNightlyPrice(budget, numNights, preference);
    var reply := fetch(HotelSearch(destination, checkIn, checkOut, preference));
    if reply.Failed? {
      return FallbackAccommodations(destination, preference, budget, numNights, pick(0));
    }
    var filtered := FilterWithinBudget(reply.results, maxPrice, numNights, preference, destination, pick);
    if filtered.None? {
      return FallbackAccommodations(destination, preference, budget, numNights, pick(0));
    }
    options := TopUp(filtered.value, destination, preference, maxPrice, numNights, pick, |reply.results|);
  }
}
