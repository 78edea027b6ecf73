# Ocula trips panel — a Dafny model

Ocula's trips tab shows a map of the selected trip under a draggable bottom
panel. The panel has two detents, `collapsed` and `large`. A completed drag
moves it between them once the drag passes a fixed 80-point threshold. The
panel height comes from the detent and the container height. The map takes
touches only while the panel is not large. When the panel is open it lists
the stored trips, narrowed by a case-insensitive search over six strings
derived from each trip. Each row has a star toggle, which also re-syncs the
selected trip, and tapping a row selects it and opens its detail. The car
settings store the vehicle brand as the display string of a 13-case brand
enumeration and decode it back when loading.

The model is functional. Trips are immutable records, the detent and the
brand are enumerations, and every handler is a pure function from screen
state to screen state.

| file | module | what it holds |
|---|---|---|
| `options.dfy` | `Options` | `Option` |
| `detent.dfy` | `SheetDetent` | detents, drag transition, heights, map gate |
| `text.dfy` | `Text` | ASCII case folding, substring containment, integer rendering, truncation |
| `trip.dfy` | `TripModel` | the `Trip` record, the star flip, the route markers |
| `search.dfy` | `TripSearch` | the six search strings, the filter, the row meta line |
| `store.dfy` | `TripStore` | first-index lookup and the star toggle on the stored trips |
| `screen.dfy` | `TripsScreen` | screen state, event handlers, visibility rules, the selection invariant |
| `fixture.dfy` | `MockTrips` | the four seeded trips and the "southport" scenario |
| `car_brand.dfy` | `CarBrands` | the brand enumeration, raw values, decoding, loading |

Modelling choices:

- **Trip equality.** The star toggle finds its trip with `firstIndex(of:)`, which uses the Trip type's equality. That equality is not part of this model, so the model uses whole-value equality.
  - Because of this, flipping the star of the same trip twice restores the collection only when the flipped copy is not already stored.
  - Unique ids guarantee that condition (`TripStore.UniqueIdsExcludeToggledCopy`).
- **The initial selection.** It comes from a second `mockTrips()` call, so its id matches no stored trip. The model takes the initial selection as an arbitrary `Trip` and does not require it to be stored.
- **Case-insensitive matching.** `localizedCaseInsensitiveContains` is modelled as ASCII lower-casing of both strings followed by plain substring containment.
- **Date strings.** `dateString` and `timeRangeString` are defined outside this model. They are opaque functions of the trip's start and end dates, carried in a `TripFormatter` value, so the star flag cannot affect them.
- **Numbers in labels.**
  - `Int(distanceKM)` truncates towards zero (`Text.Truncate`).
  - Interpolating an `Int` prints it in decimal with a leading `-` when it is negative (`Text.IntToString`).
- **Mock star flags.** The mock trips do not pass `isStarred`. The model takes it as `false`, which is assumed to be the default of the Trip initializer; that initializer is not part of this model.
- **Star toggle on a missing trip.** Starring a trip that is not stored does nothing and reports no error.
- **Height ordering.** The collapsed height exceeds the large height when the container is shorter than 280/3 points (`SheetDetent.CollapsedNotAboveLargeIff`). For example, a 50-point container gives a collapsed height of 70 and a large height of 37.5.
- **Search focus.** The search field exists only while the panel is not collapsed. SwiftUI resets a `@FocusState` when the focused field leaves the view hierarchy, so a drag that collapses the panel also clears `isSearchFocused`. Focusing the field is possible only while it is shown.
- **Back navigation.** Leaving the trip detail writes `false` back through the `navigationDestination(isPresented:)` binding. The model has a `BackFromDetail` input for it.

## Model

| member | source | states |
|---|---|---|
| `SheetDetent.AfterDrag` | Ocula/Features/Trips/TripsTabView.swift:102-118 | From collapsed, a translation below -80 gives large. From large, one above 80 gives collapsed. The detent changes exactly in those two cases. |
| `SheetDetent.DragAtThresholdIsIgnored` | Ocula/Features/Trips/TripsTabView.swift:103-113 | The threshold is strict: -80 and +80 do not move the panel, while -81 and +81 do. |
| `SheetDetent.WrongDirectionIsIgnored` | Ocula/Features/Trips/TripsTabView.swift:109-117 | A downward drag while collapsed, or an upward drag while large, leaves the detent unchanged. |
| `SheetDetent.OppositeDragRestores` | Ocula/Features/Trips/TripsTabView.swift:109-117 | A drag that moved the panel is undone by the same drag in the opposite direction. |
| `SheetDetent.SmallDragsAreIgnored` | Ocula/Features/Trips/TripsTabView.swift:102-118 | Any series of drags that each stay within ±80 leaves the detent unchanged. |
| `SheetDetent.Height` | Ocula/Features/Trips/TripsTabView.swift:126-133 | The collapsed height is the larger of 70 and 0.12·H, so it is never below 70. The large height is three quarters of H. |
| `SheetDetent.CollapsedNotAboveLargeIff` | Ocula/Features/Trips/TripsTabView.swift:128-131 | Collapsed height ≤ large height holds if and only if H ≥ 280/3. |
| `SheetDetent.CollapsedAboveLargeInShortContainer` | Ocula/Features/Trips/TripsTabView.swift:128-131 | At H = 50 the collapsed height is 70 and the large height is 37.5, so collapsed is the taller. |
| `SheetDetent.HeightMonotone` | Ocula/Features/Trips/TripsTabView.swift:126-133 | Both detent heights are non-decreasing in the container height. |
| `Text.Truncate` | Ocula/Features/Trips/TripsTabView.swift:153 | `Int(distanceKM)` is the integer between zero and the distance that lies within 1 of it, i.e. truncation towards zero. |
| `Text.IntToStringRoundTrip` | Ocula/Features/Trips/TripsTabView.swift:153-154 | Reading back the decimal rendering of an integer gives the integer. |
| `Text.IntToStringInjective` | Ocula/Features/Trips/TripsTabView.swift:153-154 | Different distances or durations never render to the same number text. |
| `Text.ParseNatToString` | Ocula/Features/Trips/TripsTabView.swift:153-154 | Reading back the digits of a natural number gives the number. |
| `TripModel.ToggledStar` | Ocula/Features/Trips/TripsTabView.swift:231 | Toggling flips `isStarred`, changes no other field, and always gives a different trip. |
| `TripModel.StartMarker` | Ocula/Features/Trips/TripsTabView.swift:60 | The start marker sits on the first route point. An empty route has no start marker. |
| `TripModel.EndMarker` | Ocula/Features/Trips/TripsTabView.swift:74 | The end marker sits on the last route point. An empty route has no end marker. |
| `TripModel.MarkersOfSinglePointRoute` | Ocula/Features/Trips/TripsTabView.swift:60-74 | A one-point route puts both markers on that point. |
| `TripSearch.DistanceLabelRoundTrip` | Ocula/Features/Trips/TripsTabView.swift:153 | The distance search string ends in " km", and its number part reads back as the truncated distance. |
| `TripSearch.DurationLabelRoundTrip` | Ocula/Features/Trips/TripsTabView.swift:154 | The duration search string ends in " mins", and its number part reads back as the minutes. |
| `TripSearch.KeepMatching` | Ocula/Features/Trips/TripsTabView.swift:148-155 | The result is an order-preserving subsequence of the trips. A trip is in it if and only if it is stored and one of its six strings contains the query, ignoring case. Every matching trip is kept as often as it is stored. |
| `TripSearch.FilteredTrips` | Ocula/Features/Trips/TripsTabView.swift:145-156 | An empty search text returns the trips unchanged. A non-empty one returns exactly the matching trips, in order, with multiplicities. |
| `TripSearch.NoMatchGivesEmptyList` | Ocula/Features/Trips/TripsTabView.swift:148-155 | A non-empty search text that no trip matches gives an empty list. |
| `TripSearch.MatchesDependsOnFoldedQuery` | Ocula/Features/Trips/TripsTabView.swift:149-154 | Two queries with the same case-folded text match the same trips. |
| `TripSearch.FilterIgnoresCase` | Ocula/Features/Trips/TripsTabView.swift:145-156 | Search texts that differ only in letter case give identical lists. |
| `TripSearch.KeepMatchingIgnoresCase` | Ocula/Features/Trips/TripsTabView.swift:148-155 | Queries that differ only in letter case keep identical trips. |
| `TripSearch.FilterByFoldedText` | Ocula/Features/Trips/TripsTabView.swift:145-156 | Searching for the lower-cased search text gives the same list as the text itself. |
| `Text.LowerIdempotent` | Ocula/Features/Trips/TripsTabView.swift:149-154 | Case-folding an already folded string changes nothing. |
| `TripSearch.FilterIdempotent` | Ocula/Features/Trips/TripsTabView.swift:145-156 | Filtering the filtered list again with the same text changes nothing. |
| `TripSearch.KeepMatchingIdempotent` | Ocula/Features/Trips/TripsTabView.swift:148-155 | Keeping the matches of the matches gives the matches. |
| `TripSearch.MatchingIgnoresStar` | Ocula/Features/Trips/TripsTabView.swift:149-154 | Flipping a trip's star never changes whether it matches. |
| `TripSearch.FilterIgnoresStars` | Ocula/Features/Trips/TripsTabView.swift:145-156 | Two collections that differ only in star flags give lists of equal length that differ only in star flags. |
| `TripSearch.KeepMatchingIgnoresStars` | Ocula/Features/Trips/TripsTabView.swift:148-155 | The same as `FilterIgnoresStars`, for the non-empty-query filter. |
| `TripSearch.RowMeta` | Ocula/Features/Trips/TripsTabView.swift:275-277 | A row's meta line is the distance label, the separator, the duration label, the separator and the relative end time, each at its stated position. |
| `TripSearch.RowMetaReadsBack` | Ocula/Features/Trips/TripsTabView.swift:275-277 | Reading the meta line back, its first field is a number followed by " km" that parses to the truncated distance, and its second is a number followed by " mins" that parses to the minutes. |
| `TripStore.FirstIndexOf` | Ocula/Features/Trips/TripsTabView.swift:230 | The result is absent exactly when the trip is not stored. Otherwise it is a position holding the trip with no earlier equal element. |
| `TripStore.ToggleStar` | Ocula/Features/Trips/TripsTabView.swift:229-231 | The length is kept. An element changes exactly at the first position equal to the argument, and that change flips its star. No element changes anything besides `isStarred`. A trip that is not stored leaves the collection as it was. |
| `TripStore.ToggleKeepsIds` | Ocula/Features/Trips/TripsTabView.swift:229-231 | A toggle keeps the sequence of ids, so unique ids stay unique. |
| `TripStore.UniqueIdsExcludeToggledCopy` | Ocula/Features/Trips/TripsTabView.swift:230-231 | With unique ids, the toggled copy of a stored trip is not stored. |
| `TripStore.ToggleTwiceRestores` | Ocula/Features/Trips/TripsTabView.swift:229-231 | If the flipped copy is not stored, toggling a trip and then its flipped copy restores the collection. |
| `TripStore.ToggleTwiceRestoresUnique` | Ocula/Features/Trips/TripsTabView.swift:229-231 | With unique ids, tapping a stored trip's star twice restores the collection. |
| `TripsScreen.Initial` | Ocula/Features/Trips/TripsTabView.swift:13-16 | The screen starts collapsed with the map interactive, no detail shown, an empty unfocused search, and only the last-trip row visible. |
| `TripsScreen.VisibleRows` | Ocula/Features/Trips/TripsTabView.swift:189-203 | Rows exist only while the panel is not collapsed. Then they are exactly the filter result: all stored trips for an empty search, otherwise an order-preserving subsequence holding exactly the stored trips that match. |
| `TripsScreen.VisibleRowsIff` | Ocula/Features/Trips/TripsTabView.swift:189-203 | While the list is shown, a trip has a row if and only if it is stored and the search is empty or matches it. |
| `TripsScreen.ShowsLastTripTitle` | Ocula/Features/Trips/TripsTabView.swift:165-184 | The "Last Trip" title shows if and only if the panel is large and the search field is not focused. Collapsed, the row appears without a title. |
| `TripsScreen.ShowsNoResults` | Ocula/Features/Trips/TripsTabView.swift:215-217 | The placeholder shows if and only if the list is shown and no row is. That means the store is empty for an empty search, or no stored trip matches a non-empty one. |
| `TripsScreen.NoMatchShowsPlaceholder` | Ocula/Features/Trips/TripsTabView.swift:203-217 | With the list shown, a non-empty search no stored trip matches gives no rows and the placeholder. |
| `TripsScreen.MapGateIff` | Ocula/Features/Trips/TripsTabView.swift:23 | The map refuses touches if and only if the detent is large. |
| `TripsScreen.LastTripHiddenIff` | Ocula/Features/Trips/TripsTabView.swift:165 | The last-trip row is hidden if and only if the search field is focused and the panel is large. |
| `TripsScreen.LastTripHiddenIffFocused` | Ocula/Features/Trips/TripsTabView.swift:165-199 | On a consistent screen, where focus implies the field is shown, the last-trip row is hidden if and only if the search field is focused. |
| `TripsScreen.PanelNeverBlank` | Ocula/Features/Trips/TripsTabView.swift:158-189 | The divider, search field and list show exactly when the panel is large. At least one of them or the last-trip row is always shown. |
| `TripsScreen.DragEnded` | Ocula/Features/Trips/TripsTabView.swift:106-118 | A completed drag moves the detent as `AfterDrag` says. Search focus survives only if the panel ends up large. Nothing else changes. |
| `TripsScreen.CollapseThenExpandShowsLastTrip` | Ocula/Features/Trips/TripsTabView.swift:165-199 | Collapsing a large panel drops the search focus. Opening it again shows the last-trip row with its title. |
| `TripsScreen.DetailDismissed` | Ocula/Features/Trips/TripsTabView.swift:46 | Coming back from the detail clears the detail flag and changes nothing else. |
| `TripsScreen.TapThenBack` | Ocula/Features/Trips/TripsTabView.swift:46-211 | Tapping a row and coming back from its detail leaves only the new selection changed. |
| `TripsScreen.StarTapped` | Ocula/Features/Trips/TripsTabView.swift:229-236 | The stored trips change as `TripStore.ToggleStar` says. If the trip is stored and the selection has its id, the selection becomes the toggled trip; otherwise it is unchanged. A trip that is not stored changes nothing. No other field changes. |
| `TripsScreen.RowTapped` | Ocula/Features/Trips/TripsTabView.swift:208-211 | The tapped trip becomes the selection and the detail flag is set. Nothing else changes. |
| `TripsScreen.LastTripTapped` | Ocula/Features/Trips/TripsTabView.swift:169-171 | Tapping the last-trip row sets the detail flag and keeps the selection. |
| `TripsScreen.InitialConsistent` | Ocula/Features/Trips/TripsTabView.swift:13-14 | With unique ids, the initial screen keeps the selection in sync, whether the selection is stored or has an id no stored trip has. |
| `TripsScreen.StarOnSelectionFlipsSelection` | Ocula/Features/Trips/TripsTabView.swift:232-234 | Starring the selected stored trip flips the selection's star, and the selection stays stored. |
| `TripsScreen.StarKeepsUnstoredSelection` | Ocula/Features/Trips/TripsTabView.swift:232-234 | A selection whose id no stored trip has is never changed by a star tap. |
| `TripsScreen.StarPreservesConsistency` | Ocula/Features/Trips/TripsTabView.swift:229-236 | A star tap keeps the ids unique and keeps the selection equal to the stored trip with its id. It leaves the focus invariant intact. |
| `TripsScreen.RowTapPreservesConsistency` | Ocula/Features/Trips/TripsTabView.swift:208-211 | Tapping a stored row keeps the selection in sync. |
| `TripsScreen.RunPreservesConsistency` | Ocula/Features/Trips/TripsTabView.swift:203-236 | Over any series of inputs that land only on shown elements, the stored ids never change and stay unique. The selection stays in sync, and the search field is focused only while it is shown. |
| `MockTrips.Mock` | Ocula/Features/Trips/TripsTabView.swift:360-428 | There are four unstarred mock trips on the shared route, with the given ids. |
| `MockTrips.SouthportMatches` | Ocula/Features/Trips/TripsTabView.swift:374-427 | "southport" matches only the two mock trips that end at Southport. |
| `MockTrips.KeepLastTwoOfFour` | Ocula/Features/Trips/TripsTabView.swift:148-155 | When only the last two of four trips match, the filter keeps exactly those two, in order. |
| `MockTrips.StarThirdMock` | Ocula/Features/Trips/TripsTabView.swift:229-231 | Starring the third mock trip flips exactly that trip. |
| `MockTrips.SouthportScenario` | Ocula/Features/Trips/TripsTabView.swift:145-156 | Searching for "southport" gives the two Southport trips in order. After starring the first of them, the search gives both again, with the first starred. |
| `MockTrips.BurleighIgnoresCase` | Ocula/Features/Trips/TripsTabView.swift:149-154 | "BURLEIGH" and "burleigh" give the same list. |
| `MockTrips.ScreenScenario` | Ocula/Features/Trips/TripsTabView.swift:189-236 | After an upward drag and a search, the panel is large, the map is locked, and the Southport rows show. A star tap then shows the first of them starred. |
| `CarBrands.Ordinal` | Ocula/Features/Profile/Helpers/CarBrand.swift:10-23 | Every brand sits at its declaration position in the list of all cases. |
| `CarBrands.AllCasesComplete` | Ocula/Features/Profile/Helpers/CarBrand.swift:11-23 | There are exactly 13 cases, each listed once, and every brand is listed. |
| `CarBrands.RawValuesDistinct` | Ocula/Features/Profile/Helpers/CarBrand.swift:11-23 | Raw values are pairwise distinct. |
| `CarBrands.Id` | Ocula/Features/Profile/Helpers/CarBrand.swift:25 | `id` is the raw value, and it identifies the brand uniquely. |
| `CarBrands.FromRawValue` | Ocula/Features/Profile/Helpers/CarBrand.swift:10-23 | A decoded brand has the given string as its raw value. Decoding fails if and only if no brand's raw value equals the string character for character. |
| `CarBrands.DecodeEncode` | Ocula/Features/Profile/Helpers/CarBrand.swift:10-23 | Decoding a brand's raw value gives that brand. |
| `CarBrands.LowerCaseIsNotABrand` | Ocula/Features/Profile/Helpers/CarBrand.swift:11-23 | Decoding is case-sensitive: "bmw", "audi" and "Mercedes" decode to nothing. |
| `CarBrands.LoadedBrand` | Ocula/Features/Profile/settings/SettingsCarView.swift:154-156 | A stored string that decodes becomes the shown brand. A missing or unknown string keeps the previous brand. |
| `CarBrands.SaveThenLoad` | Ocula/Features/Profile/settings/SettingsCarView.swift:154-173 | Loading the raw value that saving writes gives back the saved brand. |

## Left out

- SwiftUI view bodies, layout, padding, glass effects and spring animations: these only render and hold no state the model needs.
- The drag gesture's `minimumDistance: 2`: a drag that short is never recognised, and it would be within the threshold anyway, so it cannot move the panel.
- MapKit drawing (the polyline, the annotations, the user location dot). Only the rule for placing the start and end markers is modelled.
- Date formatting (`relativeFormatted()`, `dateString`, `timeRangeString`): these are defined outside the modelled files. They appear as opaque functions, and the relative end time appears as a string parameter of `TripSearch.RowMeta`.
- `TripSearch.FilteredTrips`: locale-aware case folding is replaced by ASCII lower-casing. Non-ASCII letters match only when they are identical.
- `Text.Truncate`: `CGFloat` and `Double` are modelled as exact reals. Rounding, NaN, infinities and the trap on an out-of-range `Int(_:)` conversion are not modelled.
- `UUID()` generation and `Date()`: these are non-deterministic. They are parameters of `MockTrips.Mock` (the ids and the current time).
- `TripsScreen.StarTapped`: the model uses whole-value equality of trips for `firstIndex(of:)`, because the Trip type's own equality is not part of this model.
- Persisting the brand (`saveProfilePreferences`) and the rest of `loadCurrentValues` (nicknames, colour lookup): these are network persistence, or depend on `CarColorOption`, which is not part of this model. Only the brand decoding at load is modelled.
- `CarBrands.FromRawValue`: strings are compared code point by code point. Swift compares `String`s by canonical equivalence, so a spelling canonically equivalent to a raw value decodes in Swift and not in the model. For example, "\u{212A}ia" starts with the Kelvin sign, which decomposes to "K", and Swift decodes it as Kia. The model has no Unicode normalisation.
- Settings, authentication, profile header, loading spinner, clips tab and alert sheet screens: these are presentation with no modelled logic.
