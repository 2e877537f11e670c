# Wanderly trip planner — a Dafny model of its deterministic core

Wanderly is a trip planner. For a destination, dates, a budget and a few preferences it collects:

- hotel options (`tools/stay.py`);
- restaurant recommendations (`tools/food.py`);
- attractions (`tools/places.py`).

Each comes from one web search per request (one per activity preference for attractions), with generated sample data as a top-up and as a fallback. It then asks a language model for a day-by-day itinerary. When that fails it builds one itself (`agents/itinerary.py`).

This project models the parts of those files that compute something. It covers:

- **Fallback itinerary** (`ItineraryAgent`): the rule for every day. It shows the costs before rounding, how many days there are, and their dates. The model also cuts the JSON block out of the language model's reply and chooses between the model's itinerary and the fallback.
- **Accommodation options** (`Stay`): the nightly price cap and the filter of search hotels by the cap. Short lists are topped up to five with generated samples. On failure there is a single option.
- **Food recommendations** (`Food`): the query and its dietary word. The list is topped up to fifteen and spread round-robin over breakfast, lunch and dinner. On failure there is a fixed answer.
- **Attractions** (`Places`): the cost, duration and best-time tables, and the sample attractions. The model builds the map from each activity preference to at least five attractions. If any search fails, every preference gets three samples.

Every search request is a parameter:

- `fetch` maps the request to `Found(results)`, or to `Failed` when the source would catch an error.
- The random choice of a hotel description is a parameter too.

Helper modules:

- `Text` models the Python `str` operations the core uses.
- `Rounding` models `round(x, 2)` and `round(x, 1)`.
- `Serp` holds the search reply shapes.
- `Templates` holds the f-string name tables.

How the state-changing code is modelled:

- A loop becomes a `method` with loop invariants, proved equal to a specification function: `Fallback`, `WithinBudget`, `Recommend`, `Distributed`, `Attractions`, `Visit` and others.
- The properties are lemmas about those functions.

What the fallback itinerary's arithmetic computes:

- A fallback day costs 1.3 daily budgets on the first and last day and 1.1 on the others. The activities cost 0.1, 0.1 and 0.05 of the daily budget.
- `total_cost` rounds the unrounded running sum once. It does not sum the rounded daily totals.
- `remaining_budget` rounds `budget - unrounded sum`.

## Model

| member | source | states |
|---|---|---|
| Rounding.Round2 | agents/itinerary.py:214 | `round(x, 2)`: result within half a cent of `x` and a whole number of cents |
| Rounding.Round1 | tools/stay.py:189 | `round(x, 1)`: result within half a tenth of `x` and a whole number of tenths |
| Rounding.Round2Monotone | agents/itinerary.py:218-219 | rounding to cents preserves order |
| Rounding.Round1Monotone | tools/stay.py:189 | rounding to tenths preserves order |
| Rounding.Round2Cents | tools/stay.py:191 | a whole number of cents is unchanged by rounding |
| Rounding.Round1Tenths | tools/places.py:185 | a whole number of tenths is unchanged by rounding |
| Rounding.Round1Between | tools/stay.py:189 | a value between two whole tenths rounds to a value between them |
| Rounding.Round2NonPositive | agents/itinerary.py:219 | a non-positive amount rounds to a non-positive amount |
| Text.LeadingSpaces | agents/itinerary.py:68 | the count of leading whitespace: every character before it is whitespace and the one at it is not |
| Text.TrailingSpaces | agents/itinerary.py:68 | the count of trailing whitespace: every character after the rest is whitespace and the one before them is not |
| Text.Strip | agents/itinerary.py:68 | `strip`: the slice that starts right after the leading whitespace, has no whitespace at either end, and is followed only by whitespace |
| Text.StripIdempotent | agents/itinerary.py:74 | stripping twice equals stripping once |
| Text.StripNoSpace | tools/stay.py:72 | a string with no whitespace strips to itself |
| Text.FindFrom | agents/itinerary.py:71-72 | the result is an occurrence at or after the start, with no earlier occurrence from there; `None` iff there is none |
| Text.FindLast | agents/itinerary.py:73 | the result is an occurrence at or before the bound, with no later one up to it; `None` iff there is none |
| Text.ContainsIff | agents/itinerary.py:71 | `pat in s` holds iff the pattern occurs at some position |
| Text.LastIndexOfSuffix | agents/itinerary.py:73 | in a string ending with the pattern, `rindex` finds that final occurrence |
| Text.ToLower | tools/food.py:29-33 | `lower`: same length; position by position, an upper-case letter becomes its lower-case letter and every other character is unchanged |
| Text.Title | agents/itinerary.py:198-199 | `title`: same length; non-letters unchanged; each letter keeps its letter and is upper case iff it is first or follows a non-letter |
| Text.RemoveChar | tools/stay.py:72 | `replace(c, "")`: `c` no longer occurs; every other character keeps its count; a string without `c` is unchanged |
| Text.RemoveCharAppend | tools/stay.py:72 | removing from a concatenation removes from each part, so the kept characters stay in order |
| Text.NatToString | tools/stay.py:197 | `str(n)`: nonempty, all digits, no leading zero unless `n` is 0 |
| Text.DigitsValueOfNatToString | tools/stay.py:71-72 | reading back the digits of `str(n)` gives `n` |
| Text.ParseDecimal | tools/stay.py:72 | `float(t)` succeeds only on text that is not blank after stripping; ParseDecimalNumeral says which text |
| Text.ParseUnsignedNumeral | tools/stay.py:72 | unsigned text that parses is nonempty and holds only digits and points |
| Text.ParseDecimalNumeral | tools/stay.py:72 | parsing succeeds only when the stripped text is an optional sign followed by digits and points, so a price such as "Contact for price" or "€120" fails |
| Text.ParseDecimalDigits | tools/stay.py:72 | a nonempty run of digits parses to the number it denotes |
| Text.ParseUnsignedPoint | tools/stay.py:72 | `digits.digits` text, not both parts empty, reads as the whole part plus the fraction |
| Text.ParseDecimalClean | tools/stay.py:72 | text with no whitespace and no leading sign parses as unsigned text |
| Text.ParseDecimalSign | tools/stay.py:72 | a leading `-` negates the value of the unsigned text after it; a leading `+` keeps it |
| Text.ParseDecimalPoint | tools/stay.py:72 | `float` of `digits.digits` text is the whole part plus the fraction |
| Text.ParseDecimalOfNat | tools/stay.py:71-72 | `float(str(n)) == n` |
| ItineraryAgent.GenerateFallbackItinerary | agents/itinerary.py:152-233 | the loop builds exactly `Fallback(p)`: the days are appended in order with the running unrounded total, and any missing key gives the degenerate itinerary |
| ItineraryAgent.DaysPrefix | agents/itinerary.py:180-215 | the first `day` days are the first `day - 1` followed by day `day` |
| ItineraryAgent.UnroundedSumAppend | agents/itinerary.py:204-205 | appending a day adds its items' cost to the running total |
| ItineraryAgent.DayStep | agents/itinerary.py:204-215 | one loop step extends both the days and the running total by day `day` |
| ItineraryAgent.FallbackDegenerate | agents/itinerary.py:223-233 | missing keys or a non-positive day count give no days, "N/A" dates, zero totals, and the destination or "Unknown" |
| ItineraryAgent.NoDepartureCityGivesDegenerate | main.py:133-144 | the application's preferences have no departure city, so the fallback is always the degenerate itinerary |
| ItineraryAgent.FallbackDays | agents/itinerary.py:167-216 | exactly `num_days` days, numbered from 1 on consecutive dates from the start; the budget, destination and date range are the trip's |
| ItineraryAgent.DayTransport | agents/itinerary.py:197-201 | outbound leg on day 1, even on a one-day trip; return leg on a later last day; local transport otherwise; each with its cost fraction |
| ItineraryAgent.DayFixedItems | agents/itinerary.py:181-195 | lodging 0.4; activities Morning/Afternoon/Evening at 0.1/0.1/0.05; meals Breakfast/Lunch/Dinner at 0.1/0.1/0.15 in the trip's cuisine |
| ItineraryAgent.DayCost | agents/itinerary.py:181-214 | a day's items cost 1.3 daily budgets on the first and last day and 1.1 otherwise; the daily total is that cost rounded once |
| ItineraryAgent.FallbackTotals | agents/itinerary.py:204-219 | each daily total is its items rounded; the total cost and the remaining budget are each rounded once from the unrounded sum |
| ItineraryAgent.DailyBudgetTimesDays | agents/itinerary.py:165 | the daily budget times the days is the budget |
| ItineraryAgent.RunCost | agents/itinerary.py:204-205 | the running sum of a run whose first day costs `first` and later days `middle` |
| ItineraryAgent.AllDayCosts | agents/itinerary.py:180-205 | the items' cost of every day, by position |
| ItineraryAgent.TripRunCost | agents/itinerary.py:180-205 | a run of `n >= 2` days with ends at 1.3 and the middle at 1.1 sums to `db * (1.1 n + 0.4)` |
| ItineraryAgent.TripCost | agents/itinerary.py:180-205 | the unrounded trip cost is 1.3 daily budgets for one day, else `daily * (1.1 n + 0.4)` |
| ItineraryAgent.FallbackOverspends | agents/itinerary.py:180-219 | for a positive budget the unrounded spend exceeds the budget, so the remaining budget is never positive |
| ItineraryAgent.Slice | agents/itinerary.py:74 | Python slicing inside the string: the slice when `a <= b`, empty otherwise |
| ItineraryAgent.ExtractJsonBlock | agents/itinerary.py:71-74 | text without the json fence is unchanged; otherwise the result is stripped and shorter than the text by at least the fence (which slice it is: ExtractSlice) |
| ItineraryAgent.ExtractWrapped | agents/itinerary.py:71-74 | a fenced body comes back as the stripped body |
| ItineraryAgent.ExtractSlice | agents/itinerary.py:71-74 | for any text, with the first "```json" at `i` and the last "```" at `j`, the result is the slice from `i + 7` up to `j`, stripped (empty when `j < i + 7`) |
| ItineraryAgent.ExtractOpeningOnly | agents/itinerary.py:71-74 | when the opening fence is the last fence, the slice is empty |
| ItineraryAgent.Transportation | agents/itinerary.py:197-201 | one leg: day 1 goes out from the departure city in the title-cased mode; a later last day comes back; any other day is "Local Transport"; cost 0.3 of the daily budget on the first and last day, 0.1 otherwise |
| ItineraryAgent.ItineraryFromReply | agents/itinerary.py:11-87 | a prompt key that is missing, a failed call or undecodable JSON gives the fallback; otherwise the decoded itinerary with the user preferences put back; the preferences are always the caller's |
| ItineraryAgent.ApplicationItinerary | main.py:133-144 | the application passes no departure city, so `generate_itinerary` always returns the degenerate fallback: no days and "N/A" dates |
| Stay.MaxNightlyPrice | tools/stay.py:31-40 | the cap times the nights is 40% of the budget scaled by 0.7, 1.0 or 1.3 for the preference |
| Stay.CapOrder | tools/stay.py:35-40 | for a non-negative budget, Budget ≤ Mid-range ≤ any other preference, and every other preference is priced as Luxury |
| Stay.HotelDescriptions | tools/stay.py:107-128 | three descriptions per preference; an unknown preference gets Mid-range's |
| Stay.HotelDescription | tools/stay.py:127-128 | the random choice is always one of the preference's descriptions |
| Stay.HotelNames | tools/stay.py:135-160 | five names per preference |
| Stay.PriceRange | tools/stay.py:172-178 | every price range lies within (0, 1] of the cap |
| Stay.NightlyPrice | tools/stay.py:81 | the nightly price times the nights gives back the total |
| Stay.InterpolationBounds | tools/stay.py:189-190 | `i / max(1, count - 1)` is in [0, 1] and grows with `i` |
| Stay.GenerateSampleAccommodations | tools/stay.py:130-204 | the loop produces exactly `count` samples; sample `i` is `SampleAccommodation` of `i` |
| Stay.SampleFields | tools/stay.py:187-202 | names cycle through the five; reviews `(i+1)*50`; address numbered from 1; the description is one of the three |
| Stay.SamplePrices | tools/stay.py:190-199 | the nightly price is the cap times the price factor, rounded; the total is that price times the nights, rounded |
| Stay.SamplePriceWithinCap | tools/stay.py:172-191 | each price factor lies in the preference's range, so the unrounded nightly price is within the cap |
| Stay.SampleFactorMonotone | tools/stay.py:190 | later samples have a price factor no smaller |
| Stay.RatingFactorBounds | tools/stay.py:163-189 | each unrounded rating lies in the preference's rating range |
| Stay.SampleRatingInRange | tools/stay.py:163-189 | each rounded rating lies in the preference's rating range |
| Stay.UnknownPreferenceDefaults | tools/stay.py:160-200 | an unknown preference takes Mid-range's names, amenities, descriptions and price range, and ratings 3.5 to 4.5 |
| Stay.DollarPrice | tools/stay.py:70-72 | a price written "$" followed by `digits.digits` reads as its decimal value |
| Stay.MissingPriceIsZero | tools/stay.py:71-72 | a hotel without a price reads as 0 |
| Stay.ParsePricesAt | tools/stay.py:69-72 | the parsed price list holds each hotel's price at its position |
| Stay.KeptFrom | tools/stay.py:68-86 | every kept option costs at most the cap times the nights, and its nightly price is its total over the nights, rounded |
| Stay.KeptFromFails | tools/stay.py:72 | the filter raises iff some price does not parse |
| Stay.KeptFromExactly | tools/stay.py:68-86 | when every price parses, an option is kept iff some hotel fits the cap and gives it |
| Stay.KeptFromLength | tools/stay.py:75 | all hotels are kept if all fit the cap; none is kept if none fits |
| Stay.KeptFromStep | tools/stay.py:69-86 | one step of the filter loop matches one unfolding of the filter specification |
| Stay.FilterWithinBudget | tools/stay.py:68-86 | the loop returns exactly `WithinBudget`, or `None` where a price does not parse |
| Stay.TopUp | tools/stay.py:88-98 | the kept options are followed, when fewer than five, by exactly the samples that make five |
| Stay.FallbackAccommodations | tools/stay.py:206-229 | one option priced at the rounded cap, with total cap × nights rounded, rated 4.0 with 150 reviews |
| Stay.GetAccommodationOptions | tools/stay.py:8-105 | a failed search or an unparsable price gives the fallback; otherwise the affordable hotels in order, topped up to five |
| Food.DietarySuffixChoice | tools/food.py:27-34 | at most one dietary word, the first of vegetarian, vegan, gluten-free that the requirements mention ignoring case; each case in both directions |
| Food.DietarySuffix | tools/food.py:27-34 | the query's dietary word is empty, " vegetarian", " vegan" or " gluten-free", and empty without requirements |
| Food.RestaurantQueryPrefix | tools/food.py:26-34 | the query starts with "best <pref> restaurants in <dest>" and equals it when there is no dietary word |
| Food.FromPlace | tools/food.py:57-65 | name, address, price level and description take the source's defaults when missing; rating and reviews are copied; the cuisine is the preference |
| Food.NameTexts | tools/food.py:95-127 | five names per preference |
| Food.PriceLevels | tools/food.py:130-137 | at least one price level per preference |
| Food.SampleRestaurants | tools/food.py:139-151 | `count` samples |
| Food.GenerateSampleRestaurants | tools/food.py:90-151 | the loop produces exactly the `count` samples `SampleRestaurants` specifies |
| Food.SampleRestaurantFields | tools/food.py:139-149 | numbered names cycle through the five; ratings 3.5, 4.0, 4.5 in turn; reviews `(i+1)*50`; price levels cycle; cuisine is the preference |
| Food.SampleRatingSteps | tools/food.py:143 | sample ratings run 3.5, 4.0, 4.5 and repeat |
| Food.UnknownFoodPreferenceDefaults | tools/food.py:127-137 | an unknown preference takes the local-cuisine names and the single level "$$" |
| Food.BucketLength | tools/food.py:79-81 | meal bucket `r` holds `(n + 2 - r) / 3` restaurants |
| Food.CountStep | tools/food.py:80 | position `n` adds one to bucket `r` exactly when `n mod 3 == r` |
| Food.BucketAt | tools/food.py:79-81 | element `k` of bucket `r` is restaurant `3k + r` |
| Food.LandsIn | tools/food.py:80-81 | restaurant `i` lands at position `i / 3` of bucket `i mod 3` |
| Food.BucketFrom | tools/food.py:79-81 | every bucketed restaurant comes from the list |
| Food.BucketSizes | tools/food.py:79-81 | the bucket sizes add up to the list's length and differ by at most one, Breakfast first |
| Food.Distribute | tools/food.py:75-81 | the round-robin loop gives exactly `Distributed` of the list |
| Food.DistributeStep | tools/food.py:80-81 | appending restaurant `i` to meal `i mod 3` extends the distribution of the first `i` |
| Food.CollectRestaurants | tools/food.py:55-66 | the loop converts the places in order |
| Food.GetFoodRecommendations | tools/food.py:7-88 | the adapter returns exactly `Recommend`: the fallback on a failed search, else the round-robin of the topped-up list |
| Food.FoodListShape | tools/food.py:55-72 | the search's restaurants in order, then samples numbered from 0 up to fifteen |
| Food.FoodListCuisine | tools/food.py:55-72 | every restaurant in the list has the preferred cuisine |
| Food.DistributedShape | tools/food.py:75-81 | exactly the three meal types; restaurant `i` is at `[meal i mod 3][i / 3]`; counts sum to the length and differ by at most one; fifteen or more give every meal five |
| Food.RecommendShape | tools/food.py:7-88 | the answer always has the three meal types; after a search every meal has at least five restaurants |
| Food.RecommendCuisine | tools/food.py:7-88 | every recommended restaurant, whether from the search, a sample or the fallback, has the preferred cuisine |
| Food.FallbackRecommendations | tools/food.py:153-191 | exactly the three meal types, each with one restaurant of the preferred cuisine |
| Food.FallbackRecommendationsShape | tools/food.py:153-191 | one restaurant per meal, rated 4.3, 4.5 and 4.7 and priced $, $$ and $$$ |
| Places.EstimateAttractionCost | tools/places.py:76-89 | the type's range, 10-30 for an unknown type; never negative or inverted |
| Places.EstimateAttractionDuration | tools/places.py:91-103 | one of "2-3 hours", "2-4 hours", "3-5 hours" and "4-6 hours"; "2-3 hours" for a type missing from the table |
| Places.SuggestBestTime | tools/places.py:105-117 | one of the six times of day in the table; "Any time" for a type missing from it |
| Places.UnknownTypeDefaults | tools/places.py:76-117 | a type missing from the tables gets cost 10-30, "2-3 hours" and "Any time" |
| Places.CostRanges | tools/places.py:78-88 | only Shopping has a maximum of 0; no range is wider than 70 or above 100 |
| Places.GenericNames | tools/places.py:177 | five generic names |
| Places.AttractionNames | tools/places.py:124-177 | five names for every preference |
| Places.UnknownPreferenceNames | tools/places.py:177 | for an unknown preference name `k` is "<dest> Attraction <k+1>" |
| Places.GenericFallback | tools/places.py:177 | an unknown preference takes the generic names |
| Places.SampleAttractions | tools/places.py:179-195 | `count` samples |
| Places.GenerateSampleAttractions | tools/places.py:119-195 | the loop produces exactly `SampleAttractions` |
| Places.SampleAttractionFields | tools/places.py:179-193 | names cycle through the five; ratings 4.0, 4.3, 4.6 in turn; reviews `(i+1)*100`; the type and table values are the preference's |
| Places.FromPlaceFields | tools/places.py:51-61 | a place keeps its rating and reviews and takes the source's defaults for title, address and description; it becomes an attraction of the preference's type |
| Places.FromPlaces | tools/places.py:50-62 | one attraction per place |
| Places.TopUp | tools/places.py:64-67 | a list shorter than five is topped up to exactly five; a longer list is kept |
| Places.Collected | tools/places.py:26-67 | the fold's map has exactly the preferences as keys |
| Places.GenerateFallbackAttractions | tools/places.py:197-204 | the loop gives every preference exactly three samples: `FallbackMap` |
| Places.FillUp | tools/places.py:64-67 | the top-up statement computes exactly `TopUp` |
| Places.VisitPlaces | tools/places.py:49-67 | the inner loop and top-up compute exactly `Visit` |
| Places.GetAttractions | tools/places.py:7-74 | the adapter returns exactly `Attractions`: the fold over the preferences, or the fallback map once any search fails |
| Places.TopUpShape | tools/places.py:64-67 | a top-up keeps the list and appends samples numbered from 0 |
| Places.TopUpTyped | tools/places.py:64-67 | a top-up adds only attractions of the preference's type |
| Places.VisitAppends | tools/places.py:49-67 | a visit is the list, then the found places in order, topped up |
| Places.AppendFirst | tools/places.py:50-62 | appending the first place and then the rest is appending all of them |
| Places.VisitLength | tools/places.py:49-67 | a visit leaves `max(5, |list| + |places|)` attractions |
| Places.VisitTyped | tools/places.py:49-67 | a visit adds only attractions of the preference's type |
| Places.CollectedStaysFailed | tools/places.py:29-74 | once a search has failed, the fold stays failed |
| Places.FailedSearch | tools/places.py:43-74 | a failed search after successful ones gives the fallback map |
| Places.CollectedFails | tools/places.py:29-74 | the fold fails iff one of its searches fails |
| Places.AttractionsCases | tools/places.py:19-74 | any failed search gives the fallback map; otherwise the result is the complete fold |
| Places.CollectedAtLeastFive | tools/places.py:29-67 | every visited preference is a key with at least five attractions |
| Places.UpdateAtLeastFive | tools/places.py:62-67 | replacing one list by a list of five or more keeps every visited preference at five or more |
| Places.CollectedTyped | tools/places.py:29-67 | every attraction under a preference is of that preference's type |
| Places.CollectedDistinct | tools/places.py:26-67 | without repeated preferences, each visited preference holds its own visit and the others are still empty |
| Places.UpdateDistinct | tools/places.py:62-67 | the step of that fold |
| Places.AttractionsShape | tools/places.py:7-74 | keys are exactly the preferences; at least five each when every search answers, exactly three after a failure; every list is of its preference's type |
| Places.AttractionsEntry | tools/places.py:29-67 | without failures or repeats, a preference's list is its own search's places visited from an empty list |
| Places.VisitFromEmpty | tools/places.py:49-67 | a visit from empty is the found places in order followed by the samples up to five |

## Left out

- The language model call and the JSON decoder are parameters. The PDF output is not modelled. Neither is the Streamlit UI (`main.py` apart from the preferences it passes), nor `config.py`.
- Flights and trains (`tools/flights.py`, `tools/train.py`) and `places_api.py` are not part of this model.
- All HTTP requests are the `fetch` parameter. A missing API key, a non-200 status and a transport error are all `Failed`, because the source handles them with the same fallback.
- Logging and `print` are not modelled.
- Python floats are modelled as exact reals. `round` is modelled as round half up. Python rounds the binary value half to even, so results on exact ties and on binary representation error can differ.
- Dates are day ordinals. `strptime` failures are modelled as absent dates (`None`), because both raise into the same handler.
- ItineraryAgent.ItineraryFromReply: a date, day count or budget that is present but malformed is modelled as absent (`None`), so the model returns the fallback there. The source only formats those values into the prompt, so it would send the prompt and, if the call succeeds and the reply decodes, return the decoded itinerary. The application never passes such values. A reply is `None` also when the client raises, for example on a missing API key.
- Text.ToLower and Text.Title handle ASCII letters only. Python's `lower` and `title` also map other cased letters.
- Text.ParseDecimal accepts only an optional sign and plain `digits[.digits]`. It does not model the exponents, `inf`, `nan` or underscores that `float` also accepts.
- `random.choice` in `generate_hotel_description` is the oracle `pick`, indexed by position.
- Stay.GetAccommodationOptions requires the check-out day to come after the check-in day. The application guarantees this at `main.py:123`. With zero nights the source's fallback divides by zero as well.
- A hotel's `price` field is assumed to be text. A number in that field would make the source's `replace` raise.
- `special_requirements` is accepted but unused by `get_attractions`, and so is absent from the model.
- Places.FromPlace states its fields through the lemma Places.FromPlaceFields.
- The source's comments give the sample ratings as "between 3.5 and 5.0" (food) and "between 4.0 and 4.9" (places). The code gives 3.5/4.0/4.5 and 4.0/4.3/4.6, and the model follows the code.
