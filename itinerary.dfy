/**
 * agents/itinerary.py: the deterministic fallback itinerary builder, the step that cuts
 * the JSON out of the language model's reply, and the choice between the model's
 * itinerary and the fallback one. The model call and the JSON decoder are parameters.
 */
module ItineraryAgent {
  import opened Wrappers
  import opened Rounding
  import opened Text

  /**
   * The keys of the user-preferences dictionary that the prompt and the fallback builder
   * read. A key that is absent (or a date that does not parse) is `None`. Dates are day
   * ordinals.
   */
  datatype Preferences = Preferences(
    departureCity: Option<string>,
    destination: Option<string>,
    startDate: Option<int>,
    endDate: Option<int>,
    numDays: Option<int>,
    budget: Option<real>,
    transportBudget: Option<real>,
    accommodationBudget: Option<real>,
    foodBudget: Option<real>,
    activitiesBudget: Option<real>,
    accommodation: Option<string>,
    food: Option<string>,
    specialRequirements: Option<string>,
    transportationMode: Option<string>)

  type PositiveInt = n: int | n >= 1 witness 1

  /** Preferences in which every key the builder reads is present and the day count is positive. */
  datatype Trip = Trip(
    departureCity: string,
    destination: string,
    startDate: int,
    endDate: int,
    numDays: PositiveInt,
    budget: real,
    food: string,
    mode: string)

  datatype Leg = Leg(mode: string, from: string, to: string, cost: real)
  datatype Lodging = Lodging(name: string, description: string, cost: real)
  datatype Activity = Activity(time: string, name: string, description: string, location: string, cost: real)
  datatype Meal = Meal(kind: string, recommendation: string, cuisine: string, cost: real)

  datatype DayPlan = DayPlan(
    day: int,
    date: int,
    transportation: seq<Leg>,
    accommodation: Lodging,
    activities: seq<Activity>,
    meals: seq<Meal>,
    dailyTotal: real)

  /** The "dates" label: "<start> to <end>", or "N/A" in the degenerate itinerary. */
  datatype Dates = DateRange(start: int, end: int) | NotAvailable

  datatype Itinerary = Itinerary(
    preferences: Preferences,
    destination: string,
    dates: Dates,
    totalBudget: real,
    days: seq<DayPlan>,
    totalCost: real,
    remainingBudget: real)

  // ---------------------------------------------------------------------------
  // Cost sums over the items of one day

  function ActivityCosts(xs: seq<Activity>): real {
    if xs == [] then 0.0 else xs[0].cost + ActivityCosts(xs[1..])
  }

  function MealCosts(xs: seq<Meal>): real {
    if xs == [] then 0.0 else xs[0].cost + MealCosts(xs[1..])
  }

  function LegCosts(xs: seq<Leg>): real {
    if xs == [] then 0.0 else xs[0].cost + LegCosts(xs[1..])
  }

  /** What a day's items cost before rounding: lodging, activities, meals and transport. */
  function ItemsCost(lodging: Lodging, activities: seq<Activity>, meals: seq<Meal>, legs: seq<Leg>): real {
    lodging.cost + ActivityCosts(activities) + MealCosts(meals) + LegCosts(legs)
  }

  function DayItemsCost(d: DayPlan): real {
    ItemsCost(d.accommodation, d.activities, d.meals, d.transportation)
  }

  /** The sum of the unrounded item costs of all days. */
  function UnroundedSum(days: seq<DayPlan>): real {
    if days == [] then 0.0 else UnroundedSum(days[..|days| - 1]) + DayItemsCost(days[|days| - 1])
  }

  // ---------------------------------------------------------------------------
  // The items of one day

  function Activities(destination: string, dailyBudget: real): seq<Activity> {
    [ Activity("Morning", "Explore " + destination, "City sightseeing", destination, dailyBudget * 0.1),
      Activity("Afternoon", "Local Culture", "Visit a museum or market", destination, dailyBudget * 0.1),
      Activity("Evening", "Relax", "Evening stroll", destination, dailyBudget * 0.05) ]
  }

  function Meals(food: string, dailyBudget: real): seq<Meal> {
    [ Meal("Breakfast", "Local Cafe", food, dailyBudget * 0.1),
      Meal("Lunch", "Street Food", food, dailyBudget * 0.1),
      Meal("Dinner", "Restaurant", food, dailyBudget * 0.15) ]
  }

  /**
   * The transport of day `day`: one leg, the outbound journey on the first day, the return
   * journey on a later last day, local transport otherwise. The first-day test comes before
   * the last-day test.
   */
  function Transportation(day: int, numDays: int, mode: string, departureCity: string, destination: string,
                          dailyBudget: real): (r: seq<Leg>)
    ensures |r| == 1
    ensures r[0].cost == dailyBudget * (if day == 1 || day == numDays then 0.3 else 0.1)
    ensures day == 1 ==> r[0].mode == Title(mode) && r[0].from == departureCity && r[0].to == destination
    ensures day != 1 && day == numDays ==> r[0].mode == Title(mode) && r[0].from == destination && r[0].to == departureCity
    ensures day != 1 && day != numDays ==> r[0].mode == "Local Transport"
  {
    if day == 1 then [Leg(Title(mode), departureCity, destination, dailyBudget * 0.3)]
    else if day == numDays then [Leg(Title(mode), destination, departureCity, dailyBudget * 0.3)]
    else [Leg("Local Transport", "Accommodation", "Various Locations", dailyBudget * 0.1)]
  }

  // ---------------------------------------------------------------------------
  // The fallback itinerary, as a specification

  /** The trip the preferences describe, or `None` when reading them raises. */
  function Complete(p: Preferences): Option<Trip> {
    if && p.departureCity.Some? && p.destination.Some? && p.startDate.Some? && p.endDate.Some?
       && p.numDays.Some? && p.budget.Some? && p.numDays.value >= 1
       && p.food.Some? && p.transportationMode.Some?
    then
      Some(Trip(p.departureCity.value, p.destination.value, p.startDate.value, p.endDate.value,
                p.numDays.value, p.budget.value, p.food.value, p.transportationMode.value))
    else None
  }

  function DailyBudget(t: Trip): real {
    t.budget / t.numDays as real
  }

  /** Day `day` (1-based) of the trip. */
  function PlanDay(t: Trip, day: int): DayPlan {
    var db := DailyBudget(t);
    var lodging := Lodging(t.destination + " Hotel", "Standard stay", db * 0.4);
    var activities := Activities(t.destination, db);
    var meals := Meals(t.food, db);
    var legs := Transportation(day, t.numDays, t.mode, t.departureCity, t.destination, db);
    DayPlan(day, t.startDate + (day - 1), legs, lodging, activities, meals, Round2(ItemsCost(lodging, activities, meals, legs)))
  }

  function Days(t: Trip): seq<DayPlan> {
    seq(t.numDays, i requires 0 <= i < t.numDays => PlanDay(t, i + 1))
  }

  /** The itinerary built when every key is present and the day count is positive. */
  function Built(p: Preferences, t: Trip): Itinerary {
    var days := Days(t);
    var spent := UnroundedSum(days);
    Itinerary(p, t.destination, DateRange(t.startDate, t.endDate), t.budget, days,
              Round2(spent), Round2(t.budget - spent))
  }

  /** The itinerary returned from the exception handler. */
  function Degenerate(p: Preferences): Itinerary {
    Itinerary(p, p.destination.GetOr("Unknown"), NotAvailable, 0.0, [], 0.0, 0.0)
  }

  function Fallback(p: Preferences): Itinerary {
    match Complete(p)
    case Some(t) => Built(p, t)
    case None => Degenerate(p)
  }

  // ---------------------------------------------------------------------------
  // The builder

  /** The first `day` days are the first `day - 1` days and then day `day`. */
  lemma DaysPrefix(t: Trip, day: int)
    requires 1 <= day <= t.numDays
    ensures Days(t)[..day] == Days(t)[..day - 1] + [PlanDay(t, day)]
  {
  }

  /** The unrounded sum grows by each appended day's items. */
  lemma UnroundedSumAppend(days: seq<DayPlan>, d: DayPlan)
    ensures UnroundedSum(days + [d]) == UnroundedSum(days) + DayItemsCost(d)
  {
    assert (days + [d])[..|days|] == days;
  }

  /** Appending day `day` to the first `day - 1` days gives the first `day` days, and adds that day's items to the sum. */
  lemma DayStep(t: Trip, days: seq<DayPlan>, day: int)
    requires 1 <= day <= t.numDays && days == Days(t)[..day - 1]
    ensures days + [PlanDay(t, day)] == Days(t)[..day]
    ensures UnroundedSum(days + [PlanDay(t, day)]) == UnroundedSum(days) + DayItemsCost(PlanDay(t, day))
  {
    DaysPrefix(t, day);
    UnroundedSumAppend(days, PlanDay(t, day));
  }

  /** `generate_fallback_itinerary`: one pass over the days, accumulating the unrounded total. */
  method GenerateFallbackItinerary(p: Preferences) returns (it: Itinerary)
    ensures it == Fallback(p)
  {
    if p.departureCity.None? || p.destination.None? || p.startDate.None? || p.endDate.None?
       || p.numDays.None? || p.budget.None? {
      return Degenerate(p);
    }
    var departureCity, destination := p.departureCity.value, p.destination.value;
    var startDate, endDate := p.startDate.value, p.endDate.value;
    var numDays, budget := p.numDays.value, p.budget.value;
    if numDays <= 0 {
      return Degenerate(p);
    }
    // the trip these preferences describe once the food and transport keys have been read
    ghost var t := Trip(departureCity, destination, startDate, endDate, numDays, budget,
                        p.food.GetOr(""), p.transportationMode.GetOr(""));
    var dailyBudget := budget / numDays as real;
    var days: seq<DayPlan> := [];
    var currentDate := startDate;
    var totalCost := 0.0;
    for day := 1 to numDays + 1
      invariant currentDate == startDate + (day - 1)
      invariant day > 1 ==> Complete(p) == Some(t)
      invariant days == Days(t)[..day - 1]
      invariant totalCost == UnroundedSum(days)
    {
      var accommodationCost := dailyBudget * 0.4;
      var activities := Activities(destination, dailyBudget);
      var activityCostTotal := ActivityCosts(activities);
      if p.food.None? {
        return Degenerate(p);
      }
      var meals := Meals(p.food.value, dailyBudget);
      var mealCostTotal := MealCosts(meals);
      if p.transportationMode.None? {
        return Degenerate(p);
      }
      assert Complete(p) == Some(t);
      var transportation := Transportation(day, numDays, p.transportationMode.value, departureCity, destination, dailyBudget);
      var transportationCost := LegCosts(transportation);
      var dailyTotal := accommodationCost + activityCostTotal + mealCostTotal + transportationCost;
      totalCost := totalCost + dailyTotal;
      var lodging := Lodging(destination + " Hotel", "Standard stay", accommodationCost);
      assert dailyTotal == ItemsCost(lodging, activities, meals, transportation);
      var plan := DayPlan(day, currentDate, transportation, lodging, activities, meals, Round2(dailyTotal));
      assert plan == PlanDay(t, day);
      DayStep(t, days, day);
      days := days + [plan];
      currentDate := currentDate + 1;
    }
    assert days == Days(t);
    it := Itinerary(p, destination, DateRange(startDate, endDate), budget, days, Round2(totalCost), Round2(budget - totalCost));
  }

  // ---------------------------------------------------------------------------
  // What the fallback itinerary is

  /** Any missing key or a non-positive day count gives the degenerate itinerary. */
  lemma FallbackDegenerate(p: Preferences)
    requires Complete(p).None?
    ensures Fallback(p) == Degenerate(p)
    ensures Fallback(p).days == [] && Fallback(p).dates == NotAvailable
    ensures Fallback(p).totalBudget == 0.0 && Fallback(p).totalCost == 0.0 && Fallback(p).remainingBudget == 0.0
    ensures Fallback(p).destination == if p.destination.Some? then p.destination.value else "Unknown"
  {
  }

  /** The application never supplies a departure city, so it always receives the degenerate itinerary. */
  lemma NoDepartureCityGivesDegenerate(p: Preferences)
    requires p.departureCity.None?
    ensures Fallback(p) == Degenerate(p) && Fallback(p).days == []
  {
  }

  /** One day per day of the trip, numbered 1..num_days, on consecutive dates from the start date. */
  lemma FallbackDays(p: Preferences, t: Trip)
    requires Complete(p) == Some(t)
    ensures |Fallback(p).days| == t.numDays
    ensures forall i :: 0 <= i < t.numDays ==>
      Fallback(p).days[i].day == i + 1 && Fallback(p).days[i].date == t.startDate + i
    ensures Fallback(p).totalBudget == t.budget && Fallback(p).destination == t.destination
    ensures Fallback(p).dates == DateRange(t.startDate, t.endDate)
  {
  }

  /** The transport legs: outbound on day 1 (also for a one-day trip), return on a later last day, local otherwise. */
  lemma DayTransport(t: Trip, day: int)
    requires 1 <= day <= t.numDays
    ensures day == 1 ==>
              PlanDay(t, day).transportation == [Leg(Title(t.mode), t.departureCity, t.destination, DailyBudget(t) * 0.3)]
    ensures 1 < day == t.numDays ==>
              PlanDay(t, day).transportation == [Leg(Title(t.mode), t.destination, t.departureCity, DailyBudget(t) * 0.3)]
    ensures 1 < day < t.numDays ==>
              PlanDay(t, day).transportation == [Leg("Local Transport", "Accommodation", "Various Locations", DailyBudget(t) * 0.1)]
    ensures t.numDays == 1 ==> |PlanDay(t, day).transportation| == 1 && PlanDay(t, day).transportation[0].from == t.departureCity
  {
  }

  /** The fixed items of every day: lodging, three activities and three meals in the food preference's cuisine. */
  lemma DayFixedItems(t: Trip, day: int)
    ensures PlanDay(t, day).accommodation.cost == DailyBudget(t) * 0.4
    ensures |PlanDay(t, day).activities| == 3 && |PlanDay(t, day).meals| == 3
    ensures PlanDay(t, day).activities[0].time == "Morning" && PlanDay(t, day).activities[0].cost == DailyBudget(t) * 0.1
    ensures PlanDay(t, day).activities[1].time == "Afternoon" && PlanDay(t, day).activities[1].cost == DailyBudget(t) * 0.1
    ensures PlanDay(t, day).activities[2].time == "Evening" && PlanDay(t, day).activities[2].cost == DailyBudget(t) * 0.05
    ensures PlanDay(t, day).meals[0].kind == "Breakfast" && PlanDay(t, day).meals[0].cost == DailyBudget(t) * 0.1
    ensures PlanDay(t, day).meals[1].kind == "Lunch" && PlanDay(t, day).meals[1].cost == DailyBudget(t) * 0.1
    ensures PlanDay(t, day).meals[2].kind == "Dinner" && PlanDay(t, day).meals[2].cost == DailyBudget(t) * 0.15
    ensures forall m :: m in PlanDay(t, day).meals ==> m.cuisine == t.food
  {
  }

  /** A day's items cost 1.3 daily budgets on the first and last day and 1.1 in between; its total is that, rounded. */
  lemma DayCost(t: Trip, day: int)
    requires 1 <= day <= t.numDays
    ensures DayItemsCost(PlanDay(t, day)) ==
      if day == 1 || day == t.numDays then DailyBudget(t) * 1.3 else DailyBudget(t) * 1.1
    ensures PlanDay(t, day).dailyTotal == Round2(DayItemsCost(PlanDay(t, day)))
  {
    var d := PlanDay(t, day);
    var db := DailyBudget(t);
    var a := d.activities;
    assert a[1..][1..][1..] == [];
    assert ActivityCosts(a[1..][1..]) == db * 0.05;
    assert ActivityCosts(a) == db * 0.25;
    var m := d.meals;
    assert m[1..][1..][1..] == [];
    assert MealCosts(m[1..][1..]) == db * 0.15;
    assert MealCosts(m) == db * 0.35;
    var l := d.transportation;
    assert l[1..] == [];
    assert LegCosts(l) == l[0].cost;
    assert DayItemsCost(d) == db * 0.4 + db * 0.25 + db * 0.35 + l[0].cost;
  }

  /** Every day's total is its items' cost rounded once, and the trip totals are rounded once from the unrounded sum. */
  lemma FallbackTotals(p: Preferences, t: Trip)
    requires Complete(p) == Some(t)
    ensures forall d :: d in Fallback(p).days ==> d.dailyTotal == Round2(DayItemsCost(d))
    ensures Fallback(p).totalCost == Round2(UnroundedSum(Fallback(p).days))
    ensures Fallback(p).remainingBudget == Round2(t.budget - UnroundedSum(Fallback(p).days))
  {
    var days := Days(t);
    assert Fallback(p).days == days;
    forall d | d in days
      ensures d.dailyTotal == Round2(DayItemsCost(d))
    {
      var i :| 0 <= i < |days| && days[i] == d;
      DayCost(t, i + 1);
    }
  }

  /** The daily budget spread back over the days is the budget. */
  lemma DailyBudgetTimesDays(t: Trip)
    ensures DailyBudget(t) * t.numDays as real == t.budget
  {
  }

  /** `k` copies of `x` added up. */
  function Times(k: nat, x: real): real {
    if k == 0 then 0.0 else Times(k - 1, x) + x
  }

  lemma {:induction false} TimesIsProduct(k: nat, x: real)
    ensures Times(k, x) == k as real * x
  {
    if k > 0 {
      TimesIsProduct(k - 1, x);
    }
  }

  /** A run of days whose first day costs `first` and every later day `middle` costs their sum. */
  lemma {:induction false} RunCost(days: seq<DayPlan>, first: real, middle: real)
    requires |days| >= 1 && DayItemsCost(days[0]) == first
    requires forall i :: 1 <= i < |days| ==> DayItemsCost(days[i]) == middle
    ensures UnroundedSum(days) == first + Times(|days| - 1, middle)
  {
    var k := |days|;
    if k == 1 {
      assert days[..0] == [];
    } else {
      var init := days[..k - 1];
      assert days == init + [days[k - 1]];
      UnroundedSumAppend(init, days[k - 1]);
      RunCost(init, first, middle);
    }
  }

  /** The cost of every day of the trip, by position. */
  lemma AllDayCosts(t: Trip)
    ensures forall i :: 0 <= i < t.numDays ==>
      DayItemsCost(Days(t)[i]) == if i == 0 || i == t.numDays - 1 then DailyBudget(t) * 1.3 else DailyBudget(t) * 1.1
  {
    forall i | 0 <= i < t.numDays
      ensures DayItemsCost(Days(t)[i]) == if i == 0 || i == t.numDays - 1 then DailyBudget(t) * 1.3 else DailyBudget(t) * 1.1
    {
      DayCost(t, i + 1);
    }
  }

  /** A run of at least two days that costs 1.3 daily budgets at both ends and 1.1 in between. */
  lemma TripRunCost(days: seq<DayPlan>, db: real, n: int)
    requires |days| == n >= 2
    requires DayItemsCost(days[0]) == db * 1.3 && DayItemsCost(days[n - 1]) == db * 1.3
    requires forall i :: 1 <= i < n - 1 ==> DayItemsCost(days[i]) == db * 1.1
    ensures UnroundedSum(days) == db * (1.1 * n as real + 0.4)
  {
    var init := days[..n - 1];
    RunCost(init, db * 1.3, db * 1.1);
    assert days == init + [days[n - 1]];
    UnroundedSumAppend(init, days[n - 1]);
    TripStep(UnroundedSum(init), db, n);
  }

  lemma TripStep(prev: real, db: real, n: int)
    requires n >= 2 && prev == db * 1.3 + Times(n - 2, db * 1.1)
    ensures prev + db * 1.3 == db * (1.1 * n as real + 0.4)
  {
    TimesIsProduct(n - 2, db * 1.1);
  }

  /**
   * What the whole trip costs before rounding: 1.3 daily budgets for a one-day trip,
   * otherwise 1.1 per day plus 0.4 for the outbound and return legs.
   */
  lemma TripCost(t: Trip)
    ensures UnroundedSum(Days(t)) ==
      if t.numDays == 1 then DailyBudget(t) * 1.3
      else DailyBudget(t) * (1.1 * t.numDays as real + 0.4)
  {
    AllDayCosts(t);
    if t.numDays == 1 {
      RunCost(Days(t), DailyBudget(t) * 1.3, DailyBudget(t) * 1.1);
    } else {
      TripRunCost(Days(t), DailyBudget(t), t.numDays);
    }
  }

  /** With these fractions a positive budget is always overspent, so the remaining budget is never positive. */
  lemma FallbackOverspends(p: Preferences, t: Trip)
    requires Complete(p) == Some(t) && t.budget > 0.0
    ensures UnroundedSum(Fallback(p).days) > t.budget
    ensures Fallback(p).remainingBudget <= 0.0
  {
    TripCost(t);
    DailyBudgetTimesDays(t);
    var spent := UnroundedSum(Days(t));
    OverspendArith(DailyBudget(t), t.numDays, t.budget, spent);
    assert Fallback(p) == Built(p, t);
    Round2NonPositive(t.budget - spent);
  }

  lemma OverspendArith(db: real, n: int, budget: real, spent: real)
    requires n >= 1 && budget > 0.0 && db * n as real == budget
    requires spent == if n == 1 then db * 1.3 else db * (1.1 * n as real + 0.4)
    ensures spent > budget
  {
    assert db > 0.0;
    if n > 1 {
      assert spent - budget == db * (0.1 * n as real + 0.4);
    }
  }

  // ---------------------------------------------------------------------------
  // Reading the language model's reply

  const JsonFence := "```json"
  const Fence := "```"

  /** Python's `s[a:b]` for indices inside the string: empty when `b < a`. */
  function Slice(s: string, a: nat, b: nat): (r: string)
    requires a <= |s| && b <= |s|
    ensures a <= b ==> r == s[a..b]
    ensures b < a ==> r == []
  {
    if a <= b then s[a..b] else []
  }

  /**
   * The text between the first "```json" and the last "```", stripped; the text itself
   * when it has no "```json".
   */
  function ExtractJsonBlock(text: string): (r: string)
    ensures !Contains(text, JsonFence) ==> r == text
    ensures Contains(text, JsonFence) ==> r == [] || (!IsSpace(r[0]) && !IsSpace(r[|r| - 1]))
    ensures Contains(text, JsonFence) ==> |r| + |JsonFence| <= |text|
  {
    match IndexOf(text, JsonFence)
    case None => text
    case Some(i) =>
      assert text[i..i + 3] == text[i..i + 7][..3];
      assert OccursAt(text, Fence, i);
      var jsonStart := i + 7;
      var jsonEnd := LastIndexOf(text, Fence).value;
      var body := Slice(text, jsonStart, jsonEnd);
      assert |body| + |JsonFence| <= |text|;
      Strip(body)
  }

  /** A body wrapped in "```json" ... "```" comes back stripped. */
  lemma ExtractWrapped(body: string)
    ensures ExtractJsonBlock(JsonFence + body + Fence) == Strip(body)
  {
    var text := JsonFence + body + Fence;
    assert OccursAt(text, JsonFence, 0);
    assert IndexOf(text, JsonFence) == Some(0);
    assert text[|text| - 3..] == Fence;
    LastIndexOfSuffix(text, Fence, |text|);
    assert text[7..|text| - 3] == body;
  }

  /**
   * For any text whose first "```json" is at `i` and whose last "```" is at `j`, the result
   * is the slice from seven characters after `i` up to `j`, stripped.
   */
  lemma ExtractSlice(text: string, i: nat, j: nat)
    requires OccursAt(text, JsonFence, i) && forall k :: 0 <= k < i ==> !OccursAt(text, JsonFence, k)
    requires j <= |text| && OccursAt(text, Fence, j) && forall k :: j < k <= |text| ==> !OccursAt(text, Fence, k)
    ensures i + 7 <= |text|
    ensures ExtractJsonBlock(text) == Strip(Slice(text, i + 7, j))
  {
    var a := IndexOf(text, JsonFence);
    assert a.Some? && a.value == i;
    var b := LastIndexOf(text, Fence);
    assert b.Some? && b.value == j;
  }

  /** When the opening marker is the only fence, the extracted text is empty. */
  lemma ExtractOpeningOnly(text: string, i: nat)
    requires IndexOf(text, JsonFence) == Some(i)
    requires forall k :: i < k ==> !OccursAt(text, Fence, k)
    ensures ExtractJsonBlock(text) == []
  {
    assert text[i..i + 3] == text[i..i + 7][..3];
    assert OccursAt(text, Fence, i);
  }

  /** Every key the prompt of `generate_itinerary` reads is present; otherwise building it raises. */
  predicate PromptKeys(p: Preferences) {
    && p.departureCity.Some? && p.destination.Some? && p.startDate.Some? && p.endDate.Some?
    && p.numDays.Some? && p.budget.Some? && p.transportBudget.Some? && p.accommodationBudget.Some?
    && p.foodBudget.Some? && p.activitiesBudget.Some? && p.accommodation.Some? && p.food.Some?
    && p.specialRequirements.Some? && p.transportationMode.Some?
  }

  /**
   * `generate_itinerary`: building the prompt raises when a key it reads is missing;
   * otherwise `reply` is the model's text (`None` when the client or the call raised)
   * and `decode` is the JSON decoder (`None` when it raises). Every failure gives the
   * fallback itinerary.
   */
  function ItineraryFromReply(p: Preferences, reply: Option<string>, decode: string -> Option<Itinerary>): (r: Itinerary)
    ensures r.preferences == p
    ensures !PromptKeys(p) ==> r == Fallback(p)
    ensures PromptKeys(p) && reply.None? ==> r == Fallback(p)
    ensures PromptKeys(p) && reply.Some? && decode(ExtractJsonBlock(Strip(reply.value))).None? ==> r == Fallback(p)
    ensures PromptKeys(p) && reply.Some? && decode(ExtractJsonBlock(Strip(reply.value))).Some? ==>
      r == decode(ExtractJsonBlock(Strip(reply.value))).value.(preferences := p)
  {
    if !PromptKeys(p) then Fallback(p)
    else
      match reply
      case None => Fallback(p)
      case Some(text) =>
        match decode(ExtractJsonBlock(Strip(text)))
        case Some(it) => it.(preferences := p)
        case None => Fallback(p)
  }

  /**
   * The application's preferences have no departure city and no category budgets, so
   * `generate_itinerary` always returns the degenerate fallback, whatever the model says.
   */
  lemma ApplicationItinerary(p: Preferences, reply: Option<string>, decode: string -> Option<Itinerary>)
    requires p.departureCity.None?
    ensures ItineraryFromReply(p, reply, decode) == Degenerate(p)
    ensures ItineraryFromReply(p, reply, decode).days == [] && ItineraryFromReply(p, reply, decode).dates == NotAvailable
  {
    NoDepartureCityGivesDegenerate(p);
  }
}
