# farmfresh-connect decision rules in Dafny

This project models the logic layer of farmfresh-connect, a farm-to-consumer marketplace.
It covers:

- the weather and pricing edge functions;
- the lot-traceability lookup over the order dataset;
- the session context with the login and sign-up handlers;
- the role-based navigation shell;
- the admin user and dispute lists;
- the cart summary;
- the place-search box;
- the admin settings page.

Each source file is one Dafny module.
Pure computations are functions, and lemmas state what they promise.
React state cells are fields of a class, and the handlers are methods over it.
The two weather steps that mutate an array are methods on `array`: the in-place `reverse` of the forecast and the alert loop.

Two modules hold shared helpers.
`Wrappers` holds `Option` and `Result`.
`Text` holds the string and list operations the code relies on: `includes`, `toLowerCase`, `join`, `filter` and `filter(...).length`.

External calls become parameters:

- NASA POWER responses, the AI gateway reply and `JSON.parse` (as a partial function);
- Supabase query results, how the sign-up call ends (its error, or a rejection) and the geocoder outcome;
- the environment key.

Numbers are exact: measurements are `real`, and cart amounts are `int`.

## Model

| member | source | states |
|---|---|---|
| Weather.Lookup | supabase/functions/get-weather/index.ts:63-70 | a series reading is present exactly when the date is a key, and then it is that value (`undefined` otherwise) |
| Weather.Round | supabase/functions/get-weather/index.ts:143-147 | the -999 sentinel and a missing reading become 0; every other reading is kept; the result is never the sentinel |
| Weather.RoundTimes | supabase/functions/get-weather/index.ts:84-103 | `round(x * 3.6)`: a missing reading gives NaN, sent as `null` (`None`); a present one gives the rounded product, never the sentinel |
| Weather.RainToCode | supabase/functions/get-weather/index.ts:149-155 | the code is one of 0, 51, 61, 63, 65, each exactly on its strict-threshold band of rain (>20, >5, >1, >0.1) |
| Weather.RainToCodeMonotone | supabase/functions/get-weather/index.ts:149-155 | more rain never gives a smaller code |
| Weather.Condition | supabase/functions/get-weather/index.ts:70-78 | rain above 0.1 gives a rain condition, otherwise a humidity one; each of the eight texts holds exactly on its band: Heavy rain iff rain >10, Moderate rain iff 5 < rain <= 10, Light rain iff 1 < rain <= 5, Light drizzle iff 0.1 < rain <= 1, and when dry Overcast iff humidity >90, Partly cloudy iff 70 < humidity <= 90, Mainly clear iff 50 < humidity <= 70, Clear sky iff humidity <= 50 |
| Weather.ConditionIgnoresHumidityInRain | supabase/functions/get-weather/index.ts:71-75 | when rain exceeds 0.1 the humidity does not affect the condition |
| Weather.ConditionIgnoresDryRain | supabase/functions/get-weather/index.ts:75-78 | with rain at most 0.1 the amount of rain does not affect the condition |
| Weather.SortKeys | supabase/functions/get-weather/index.ts:54 | `Object.keys(...).sort()`: the result is sorted by character value and is a permutation of the keys; on the digit-only date keys this is the same order as JavaScript's UTF-16 code-unit order |
| Weather.Insert | supabase/functions/get-weather/index.ts:54 | inserting into a sorted list keeps it sorted and adds exactly the one element |
| Weather.ValidDates | supabase/functions/get-weather/index.ts:54-55 | exactly the keys whose T2M and T2M_MAX are not -999 appear; the list is empty iff no key is valid; it is a subsequence of the sorted keys, so no date appears twice |
| Weather.ValidDatesSorted | supabase/functions/get-weather/index.ts:54-55 | the valid dates stay in sorted order |
| Weather.RecentDates | supabase/functions/get-weather/index.ts:59 | `slice(-7)`: the last min(7, n) dates, in order |
| Weather.NoValidDataFails | supabase/functions/get-weather/index.ts:56 | with no valid date the report is the "No valid data" error, before any forecast is built |
| Weather.WeatherReport | supabase/functions/get-weather/index.ts:42-129 | the handler's answer: upstream status failure, invalid body, missing series and no valid data as errors, otherwise the report; its behaviour is stated by `ReportSucceeds`, `MissingSeriesFails`, `NoValidDataFails`, `ReportForecast` and `OptionalSeriesDefault` |
| Weather.ReportSucceeds | supabase/functions/get-weather/index.ts:47-108 | a body gives a report iff every series read without `?.` is present and some date is valid |
| Weather.MissingSeriesFails | supabase/functions/get-weather/index.ts:53-103 | once some date is valid, a missing T2M, T2M_MAX, T2M_MIN, RH2M, WS10M, WS10M_MAX or PRECTOTCORR series makes the handler answer with an error |
| Weather.SameReadsSameReport | supabase/functions/get-weather/index.ts:53-103 | two bodies with the same presence of the required series and the same readings get the same answer |
| Weather.OptionalSeriesDefault | supabase/functions/get-weather/index.ts:66-67 | a missing WD10M or UV series gives the same answer as an empty one, as `?.` with `?? 0` does |
| Weather.DashedShape | supabase/functions/get-weather/index.ts:92-97 | an 8-character key becomes `YYYY-MM-DD`: dashes at 4 and 7, the digits kept in place |
| Weather.Dashed | supabase/functions/get-weather/index.ts:92-97 | the ISO date of a key; its shape is stated by `DashedShape` and its inverse by `FmtDashedRoundTrip` |
| Weather.StripDashes | supabase/functions/get-weather/index.ts:12 | `replace(/-/g, '')`: no dash remains and nothing is added |
| Weather.StripDashesAppend | supabase/functions/get-weather/index.ts:12 | removing dashes distributes over concatenation |
| Weather.StripDashesNone | supabase/functions/get-weather/index.ts:12 | a string without dashes is unchanged |
| Weather.Fmt | supabase/functions/get-weather/index.ts:12 | `fmt` of an ISO date keeps at most its first 10 characters and has no dash |
| Weather.FmtDashedRoundTrip | supabase/functions/get-weather/index.ts:12-97 | removing the dashes from a forecast date (or applying `fmt` to it) gives back the dash-free 8-character key |
| Weather.CurrentOf | supabase/functions/get-weather/index.ts:62-88 | the current condition is the ladder applied to the latest day's rain and humidity; temperature and humidity are never the sentinel; the wind speed is `null` exactly when WS10M lacks the latest date |
| Weather.CurrentReadings | supabase/functions/get-weather/index.ts:63-86 | the current temperature, humidity, wind direction and UV index are the latest day's T2M, RH2M, WD10M and UV readings when present and not -999, and 0 otherwise; the wind speed is WS10M times 3.6 |
| Weather.DayOf | supabase/functions/get-weather/index.ts:91-104 | a forecast day carries the dashed date, the weather code of its rain, and is labelled Latest exactly for the last recent date |
| Weather.DayReadings | supabase/functions/get-weather/index.ts:99-101 | a day's tempMax, tempMin and rain are its T2M_MAX, T2M_MIN and PRECTOTCORR readings when present and not -999, and 0 otherwise |
| Weather.HotDayWarns | supabase/functions/get-weather/index.ts:99-119 | a T2M_MAX reading above 40 for a day puts the extreme-heat warning, carrying that reading, among the day's alerts |
| Weather.DayWindMax | supabase/functions/get-weather/index.ts:103 | a day's wind is WS10M_MAX, else WS10M, times 3.6; it is `null` exactly when both series lack the date |
| Weather.ForecastInOrder | supabase/functions/get-weather/index.ts:91-105 | the `map` gives one day per recent date, in order: day i has the dashed date i and the weather code of that date's rain, and only the last is labelled Latest |
| Weather.Reversed | supabase/functions/get-weather/index.ts:108 | the reversal has the same length and entry i is entry n-1-i |
| Weather.ReverseInPlace | supabase/functions/get-weather/index.ts:108 | the in-place reverse leaves the array holding the reversal of its old contents |
| Weather.BuildForecast | supabase/functions/get-weather/index.ts:91-108 | the forecast array, after `reverse()`, is the reversal of the mapped days |
| Weather.ReversedForecastAt | supabase/functions/get-weather/index.ts:91-108 | after the reverse, entry i carries recent date n-1-i and is labelled Latest iff i is 0 |
| Weather.ForecastEntryAt | supabase/functions/get-weather/index.ts:59-108 | entry i of the forecast carries the valid date i places from the end and is Latest iff i is 0 |
| Weather.ForecastEntries | supabase/functions/get-weather/index.ts:59-108 | the forecast holds min(7, n) entries, entry i is the (i+1)-th latest valid date with dashes, and only entry 0 is Latest |
| Weather.ForecastShape | supabase/functions/get-weather/index.ts:59-108 | the same facts for the forecast the report returns |
| Weather.Forecast | supabase/functions/get-weather/index.ts:58-108 | the forecast of the report; `ForecastShape` and `ForecastStartsWithLatest` state its length, dates and labels |
| Weather.LatestIsGreatest | supabase/functions/get-weather/index.ts:54-60 | in a sorted list the last date is the greatest |
| Weather.ForecastStartsWithLatest | supabase/functions/get-weather/index.ts:54-108 | the first forecast entry carries the dashed last valid date, and that date is the greatest valid date |
| Weather.ReportForecast | supabase/functions/get-weather/index.ts:56-129 | with valid data the report succeeds and carries that forecast and its alerts |
| Weather.DayAlerts | supabase/functions/get-weather/index.ts:112-124 | a day yields at most three alerts |
| Weather.DayAlertsOrder | supabase/functions/get-weather/index.ts:112-124 | a day has exactly one alert per rule that fires; the rain alert comes first, heat follows it, and the wind warning comes last |
| Weather.DayAlertsSpec | supabase/functions/get-weather/index.ts:113-123 | heavy-rain warning iff rain >50, moderate-rain info iff 20 < rain <= 50, heat warning iff tempMax >40, wind warning iff a wind reading exists and exceeds 40; a `null` wind raises no wind warning, as `NaN > 40` is false |
| Weather.DayAlertsNeverSuccess | supabase/functions/get-weather/index.ts:113-123 | a day never raises a success alert |
| Weather.DayAlertsNone | supabase/functions/get-weather/index.ts:113-123 | a day raises nothing iff it crosses no threshold |
| Weather.RuleAlertsSnoc | supabase/functions/get-weather/index.ts:112-124 | one more day appends exactly that day's alerts |
| Weather.RuleAlerts | supabase/functions/get-weather/index.ts:111-124 | the `forEach` rules over the forecast; `RuleAlertsSnoc`, `RuleAlertsAppend`, `RuleAlertsNeverSuccess` and `RuleAlertsEmpty` state what it collects, and `GenerateAlerts` is proved against it |
| Weather.Alerts | supabase/functions/get-weather/index.ts:111-127 | the rule alerts, or the single favourable alert; `AlertsNonEmpty` and `AlertsSuccessExclusive` state its contract |
| Weather.RuleAlertsAppend | supabase/functions/get-weather/index.ts:112-124 | the alerts of two runs of days concatenate |
| Weather.AlertsInForecastOrder | supabase/functions/get-weather/index.ts:112-124 | a day's alerts sit between those of the days before and after it |
| Weather.RuleAlertsNeverSuccess | supabase/functions/get-weather/index.ts:112-124 | the rules never produce a success alert |
| Weather.RuleAlertsEmpty | supabase/functions/get-weather/index.ts:112-125 | the rules produce nothing iff no day crosses a threshold |
| Weather.AlertsNonEmpty | supabase/functions/get-weather/index.ts:125-127 | the alert list is never empty |
| Weather.AlertsSuccessExclusive | supabase/functions/get-weather/index.ts:125-127 | a success alert appears iff it is the only alert, which happens iff no rule fired |
| Weather.HeavyRainWarnsForItsDay | supabase/functions/get-weather/index.ts:113-114 | a day with 60 mm of rain gets its heavy-rainfall warning |
| Weather.GenerateAlerts | supabase/functions/get-weather/index.ts:110-127 | the `forEach` loop with its fallback returns exactly the alerts the rules define for the array |
| Weather.GetWeather | supabase/functions/get-weather/index.ts:42-129 | the handler, with its in-place reverse and alert loop, returns exactly `WeatherReport`'s answer |
| Pricing.FirstIndex | supabase/functions/get-pricing/index.ts:75 | the first position of a character, or none when it does not occur |
| Pricing.LastIndex | supabase/functions/get-pricing/index.ts:75 | the last position of a character, or none when it does not occur |
| Pricing.BraceOrder | supabase/functions/get-pricing/index.ts:75 | some `}` follows some `{` exactly when the first `{` precedes the last `}` |
| Pricing.GreedyBlockInContent | supabase/functions/get-pricing/index.ts:75 | the span from the first `{` to the last `}` is a piece of the content that starts with `{` and ends with `}` |
| Pricing.JsonBlock | supabase/functions/get-pricing/index.ts:75 | a match exists iff some `{` comes before some `}`; the match runs from the first `{` to the last `}`, lies inside the content, and starts with `{` and ends with `}` |
| Pricing.ParseSource | supabase/functions/get-pricing/index.ts:75-76 | without a match the whole content goes to the parser; with one, a brace-delimited part of the content does |
| Pricing.ContentOf | supabase/functions/get-pricing/index.ts:70 | once the first choice has a message, the result is that message's content, or "" when it has none; a missing choice or message gives ""; the result is non-empty exactly when all are present and the content is non-empty |
| Pricing.Resolve | supabase/functions/get-pricing/index.ts:19 | absent crops become the five default crops and an absent region becomes India; given values are kept |
| Pricing.PriceKey | supabase/functions/get-pricing/index.ts:30 | the key is a quote, the lower-cased crop name, and then the fixed text `": <price_inr_per_kg>` |
| Pricing.PriceKeySame | supabase/functions/get-pricing/index.ts:30 | two crops get the same key iff their lower-cased names agree |
| Pricing.PriceKeys | supabase/functions/get-pricing/index.ts:30 | one key per crop, in input order |
| Pricing.PriceTemplateHasEveryCrop | supabase/functions/get-pricing/index.ts:30 | every crop's key occurs in the price-history template |
| Pricing.PriceTemplateSnoc | supabase/functions/get-pricing/index.ts:30 | adding a crop appends `, ` and its key to the template |
| Pricing.PriceTemplate | supabase/functions/get-pricing/index.ts:30 | the keys joined by `, `; `PriceTemplateHasEveryCrop` and `PriceTemplateSnoc` state that every crop's key is there, in input order |
| Pricing.ErrorMessage | supabase/functions/get-pricing/index.ts:16-78 | the missing-key and parse-failure messages |
| Pricing.Prepare | supabase/functions/get-pricing/index.ts:14-63 | the request fails iff the key is missing or empty; otherwise it carries the key, the resolved region, the crops joined by `, ` and the template |
| Pricing.HandlePricing | supabase/functions/get-pricing/index.ts:14-79 | the whole handler; `NoKeyNoRequest` and `HandlePricingParses` state its error and success paths |
| Pricing.NoKeyNoRequest | supabase/functions/get-pricing/index.ts:14-17 | without a key the result is the missing-key error, whatever the gateway would answer |
| Pricing.HandlePricingParses | supabase/functions/get-pricing/index.ts:69-79 | after a good gateway reply the result is the parse of the extracted block (or of the content), or the parse error |
| TrackingData.StatusOfLabel | src/data/trackingMockData.ts:9 | a recognised label reads back as its status |
| TrackingData.StatusLabelRoundTrip | src/data/trackingMockData.ts:9 | every one of the six statuses reads back from its label |
| TrackingData.LastCompleted | src/data/trackingMockData.ts:14 | the index of the last completed event, or none iff no event is completed |
| TrackingData.LastCompletedAt | src/data/trackingMockData.ts:14 | a completed event with none completed after it is the last completed one |
| TrackingData.DeliveredAllCompleted | src/data/trackingMockData.ts:9-14 | in a well-formed six-stage delivered order every event is completed |
| TrackingData.WellFormedOfFive | src/data/trackingMockData.ts:18-156 | five orders that each keep the invariants and have pairwise distinct lot ids form a well-formed dataset |
| TrackingData.TomatoesInvariants | src/data/trackingMockData.ts:19-48 | the first order keeps the invariants and its last completed stage is in_transit, as its status says |
| TrackingData.RiceInvariants | src/data/trackingMockData.ts:49-77 | the second order keeps the invariants and its last completed stage is shipped |
| TrackingData.MangoesInvariants | src/data/trackingMockData.ts:78-106 | the third order keeps the invariants and its last completed stage is delivered |
| TrackingData.PotatoesInvariants | src/data/trackingMockData.ts:107-133 | the fourth order keeps the invariants and its last completed stage is delivered |
| TrackingData.ChiliesInvariants | src/data/trackingMockData.ts:134-156 | the cancelled order keeps the invariants and its last completed stage is harvest |
| TrackingData.MockLotIdsDistinct | src/data/trackingMockData.ts:27-142 | the five lot ids are pairwise distinct |
| TrackingData.MockOrdersWellFormed | src/data/trackingMockData.ts:18-156 | the dataset has distinct lot ids, matching traceability ids, completed prefixes, canonical stage order, and a packed, shipped, in-transit or delivered status always names the last completed stage |
| TrackingData.DeliveredSamplesComplete | src/data/trackingMockData.ts:78-133 | both delivered orders have every event completed |
| TraceLot.FindIndex | src/pages/TraceLot.tsx:14 | the first index whose lot id matches, or none iff no order matches |
| TraceLot.Find | src/pages/TraceLot.tsx:14 | `find`: the first order with that lot id; none when the route has no id or nothing matches |
| TraceLot.RenderTraceLot | src/pages/TraceLot.tsx:14-57 | "Lot Not Found" with the requested id iff the lookup fails; otherwise the header shows the id and the page shows that order's traceability record and events |
| TraceLot.FindOwnLot | src/pages/TraceLot.tsx:14 | with distinct lot ids, looking up an order's lot id finds that order |
| TraceLot.FoundRecordMatches | src/pages/TraceLot.tsx:14-52 | when the traceability ids match, the record shown carries the requested lot id |
| TraceLot.FirstSampleLotIsGradeA | src/pages/TraceLot.tsx:14-52 | lot LOT-GVF-2026-0206A is found and graded Grade A |
| TraceLot.UnknownLotNotFound | src/pages/TraceLot.tsx:16-24 | an unknown lot renders the not-found view with the requested id |
| AppContext.RoleOfName | src/contexts/AppContext.tsx:3 | only farmer, consumer and admin name a role, each its own |
| AppContext.RoleNameRoundTrip | src/contexts/AppContext.tsx:3 | every role reads back from its name |
| AppContext.AppState.constructor | src/contexts/AppContext.tsx:17-19 | the session starts with no role, unauthenticated, with an empty user name |
| AppContext.AppState.SetRole | src/contexts/AppContext.tsx:17 | replaces the role and nothing else |
| AppContext.AppState.SetIsAuthenticated | src/contexts/AppContext.tsx:18 | replaces the flag and nothing else |
| AppContext.AppState.SetUserName | src/contexts/AppContext.tsx:19 | replaces the user name and nothing else |
| AppContext.UseApp | src/contexts/AppContext.tsx:28-31 | fails with "useApp must be used within AppProvider" iff there is no provider, else returns it |
| Login.DeriveRole | src/pages/Login.tsx:17-22 | admin navigation state gives admin whatever the email; otherwise farmer iff the email contains "farmer", else consumer |
| Login.UserNameFromEmail | src/pages/Login.tsx:25 | the text before the first `@`, or "User" when that text is empty; never empty, never holds `@` |
| Login.LandingIsFirstMenuEntry | src/pages/Login.tsx:26-33 | the landing route is the role's prefix and the first entry of its menu |
| Login.LandingRoute | src/pages/Login.tsx:26 | the route for a role; `LandingIsFirstMenuEntry` states it is the role's prefix and the first entry of its menu |
| Login.HandleLogin | src/pages/Login.tsx:19-27 | sets the derived role, authenticates, sets the derived user name and returns the landing route; the password is not read |
| Login.HandleDemoLogin | src/pages/Login.tsx:29-34 | sets the given role, authenticates, sets the fixed demo name and returns the landing route |
| Signup.SelectedRole | src/pages/Signup.tsx:15 | a missing or empty navigation role gives consumer; any other is kept |
| Signup.MetadataOf | src/pages/Signup.tsx:35-41 | full name and role copied; empty phone becomes null; farm name present iff the role is farmer; farm location null |
| Signup.SignupEffects | src/pages/Signup.tsx:25-54 | a missing field gives only the "Missing fields" toast; otherwise loading on and the sign-up call with the metadata; a rejected call ends there; a returned call adds loading off and one toast, "Account created!" iff no error |
| Signup.LoadingBracketsCall | src/pages/Signup.tsx:29-44 | loading is on when the call is made; at the end it is unchanged after an early return, still on after a rejected call, and off otherwise |
| Signup.SignupPage.constructor | src/pages/Signup.tsx:21 | loading starts off |
| Signup.SignupPage.SetIsLoading | src/pages/Signup.tsx:21 | sets the flag and logs the change |
| Signup.SignupPage.HandleSignup | src/pages/Signup.tsx:23-56 | the handler performs exactly the effects of `SignupEffects` and leaves loading on only when the call rejected |
| AppShell.GetNavItems | src/components/AppShell.tsx:38-42 | farmer gives the farmer menu, admin the admin menu, consumer and no role the consumer menu |
| AppShell.NoRoleIsConsumer | src/components/AppShell.tsx:38-42 | no role shows the consumer menu |
| AppShell.FarmerMenuUnderPrefix | src/components/AppShell.tsx:12-20 | every farmer path starts with /farmer |
| AppShell.ConsumerMenuUnderPrefix | src/components/AppShell.tsx:22-28 | every consumer path starts with /consumer |
| AppShell.AdminMenuUnderPrefix | src/components/AppShell.tsx:30-36 | every admin path starts with /admin |
| AppShell.MenusUnderRolePrefix | src/components/AppShell.tsx:12-42 | each role's menu lies under that role's prefix |
| AppShell.MenuSizes | src/components/AppShell.tsx:12-36 | the menus hold 7, 5 and 5 items |
| AppShell.MobileNav | src/components/AppShell.tsx:126 | `slice(0, 5)`: the first min(5, n) items, in order |
| AppShell.MobileBars | src/components/AppShell.tsx:126 | the farmer's mobile bar has no Chat and no Quality Scan; the other two menus show in full (menus at lines 12-36) |
| AppShell.AtMostOneActive | src/components/AppShell.tsx:71-127 | with distinct paths, at most one item is active for a pathname |
| AppShell.IsActive | src/components/AppShell.tsx:71 | an entry is active when the path equals its own (also at line 127); `AtMostOneActive` states that at most one entry is |
| AppShell.MenusHaveDistinctPaths | src/components/AppShell.tsx:12-42 | every menu has distinct paths |
| AppShell.AvatarInitial | src/components/AppShell.tsx:92-116 | the upper-cased first character, or empty for an empty name |
| AdminUsers.LastRoleNone | src/pages/admin/AdminUsers.tsx:40 | a user id has no entry iff no roles row carries it |
| AdminUsers.LastRoleIsLastRow | src/pages/admin/AdminUsers.tsx:40 | the entry for a user id comes from the last row carrying it |
| AdminUsers.RoleMap | src/pages/admin/AdminUsers.tsx:40 | `Object.fromEntries`: a key for each user id with a row, holding the role of its last row |
| AdminUsers.RoleOf | src/pages/admin/AdminUsers.tsx:43 | a present, non-null, non-empty role is kept; anything else is consumer |
| AdminUsers.Merge | src/pages/admin/AdminUsers.tsx:41-44 | one user per profile, in order, each with its looked-up role |
| AdminUsers.MergedRoleIsLastRow | src/pages/admin/AdminUsers.tsx:40-44 | a merged user's role is that of the last roles row for its id, or consumer when it is null or empty |
| AdminUsers.MergedRoleWithoutRow | src/pages/admin/AdminUsers.tsx:43 | a user without a roles row is a consumer |
| AdminUsers.FilterUsers | src/pages/admin/AdminUsers.tsx:52-55 | an order-preserving subsequence keeping exactly the users whose lower-cased name or role contains the lower-cased search |
| AdminUsers.EmptySearchKeepsAll | src/pages/admin/AdminUsers.tsx:52-55 | an empty search keeps everyone |
| AdminUsers.CountRole | src/pages/admin/AdminUsers.tsx:68 | a role's count is at most the number of users |
| AdminUsers.RoleCountsBounded | src/pages/admin/AdminUsers.tsx:66-68 | the three role counts add up to at most the number of users |
| AdminUsers.RoleConfigOf | src/pages/admin/AdminUsers.tsx:17-21 | farmer and admin get their own config records; any other role gets the consumer config (looked up at line 105) |
| AdminUsers.AdminUsersPage.constructor | src/pages/admin/AdminUsers.tsx:23-25 | no users, loading, empty search |
| AdminUsers.AdminUsersPage.FetchUsers | src/pages/admin/AdminUsers.tsx:29-48 | with both results the users become the merge; otherwise they are unchanged; loading ends false |
| AdminUsers.AdminUsersPage.SetSearch | src/pages/admin/AdminUsers.tsx:25 | replaces the search text only |
| AdminDisputes.FilterDisputes | src/pages/admin/AdminDisputes.tsx:26 | "All" gives the list unchanged; any other filter keeps exactly the disputes with that status, in order |
| AdminDisputes.CountStatus | src/pages/admin/AdminDisputes.tsx:27-29 | a status count, taken one dispute at a time, is at most the number of disputes |
| AdminDisputes.FilterMatchesCount | src/pages/admin/AdminDisputes.tsx:26-29 | the filtered list is as long as the count for that status, so the counts are the lengths of the filtered lists |
| AdminDisputes.CountsPartition | src/pages/admin/AdminDisputes.tsx:27-29 | when every status is one of the three, the counts add up to the list length |
| AdminDisputes.CountSix | src/pages/admin/AdminDisputes.tsx:27-29 | a count over six disputes is the number of matching positions |
| AdminDisputes.SampleCounts | src/pages/admin/AdminDisputes.tsx:8-29 | the sample has 3 open, 1 in review and 2 resolved disputes, 6 in all |
| AdminDisputes.StatusConfigOf | src/pages/admin/AdminDisputes.tsx:17-58 | In Review and Resolved get their own config; any other status gets the Open config |
| ConsumerCart.SubtotalIsSum | src/pages/consumer/ConsumerCart.tsx:13 | the left-to-right `reduce` equals the sum of price × quantity taken from the front |
| ConsumerCart.Subtotal | src/pages/consumer/ConsumerCart.tsx:13 | the `reduce` from the left; `SubtotalIsSum`, `SubtotalAppend` and `TotalAtLeastDelivery` state its value |
| ConsumerCart.Total | src/pages/consumer/ConsumerCart.tsx:13-57 | subtotal plus the 40 delivery; `TotalAtLeastDelivery` and `SampleSummary` state its value |
| ConsumerCart.SubtotalAppend | src/pages/consumer/ConsumerCart.tsx:13 | one more item adds its price × quantity |
| ConsumerCart.TotalAtLeastDelivery | src/pages/consumer/ConsumerCart.tsx:13-57 | with non-negative prices and quantities the subtotal is non-negative and the total is at least 40 |
| ConsumerCart.SampleSummary | src/pages/consumer/ConsumerCart.tsx:6-57 | the sample cart has 3 items, subtotal 620 and total 660 |
| LocationSearch.LabelParts | src/components/LocationSearch.tsx:60 | `filter(Boolean)` keeps the non-empty ones of name, region and country, each of them, in that order, and no empty part |
| LocationSearch.Label | src/components/LocationSearch.tsx:60 | the parts joined by `, `; `LabelWithRegion` and `LabelWithoutRegion` state the two label shapes |
| LocationSearch.LabelWithRegion | src/components/LocationSearch.tsx:60 | with all three parts present the label is name, region and country joined by `, ` |
| LocationSearch.LabelWithoutRegion | src/components/LocationSearch.tsx:60 | a missing or empty region is dropped with its separator |
| LocationSearch.AfterSearch | src/components/LocationSearch.tsx:36-51 | a query under 2 characters clears and closes with no request; an answer opens the dropdown with its results (or none); a failure clears the results and leaves the dropdown as it was |
| LocationSearch.ResultsComeFromResponse | src/components/LocationSearch.tsx:43-47 | the dropdown only lists results that a response returned |
| LocationSearch.SearchBox.constructor | src/components/LocationSearch.tsx:19-24 | empty query and results, closed, nothing pending, not searching |
| LocationSearch.SearchBox.Search | src/components/LocationSearch.tsx:36-51 | the state after `search` is the one `AfterSearch` gives; the request is logged iff one is made; searching is false at the end |
| LocationSearch.SearchBox.HandleChange | src/components/LocationSearch.tsx:53-57 | the query shows the text at once and the one pending search is for this text |
| LocationSearch.SearchBox.FirePending | src/components/LocationSearch.tsx:56 | the timer runs the pending search, if any, and clears it |
| LocationSearch.SearchBox.HandleSelect | src/components/LocationSearch.tsx:59-64 | the query becomes the label, the dropdown closes, and the place's coordinates and label are reported once |
| LocationSearch.TypeTwice | src/components/LocationSearch.tsx:53-57 | two edits leave one search pending, for the later text, and send nothing |
| AdminSettings.Toggled | src/pages/admin/AdminSettings.tsx:27-29 | the switched flag flips; every other flag and every text field is unchanged |
| AdminSettings.WithText | src/pages/admin/AdminSettings.tsx:47-68 | the input's field becomes the raw text; every other field is unchanged |
| AdminSettings.SettingsByFields | src/pages/admin/AdminSettings.tsx:12-21 | a settings record is determined by its four flags and four text fields |
| AdminSettings.ToggleTwice | src/pages/admin/AdminSettings.tsx:28 | toggling the same switch twice restores the record |
| AdminSettings.TogglesCommute | src/pages/admin/AdminSettings.tsx:28 | toggles of two switches give the same record in either order |
| AdminSettings.LastInputWins | src/pages/admin/AdminSettings.tsx:47-68 | typing into a field twice leaves only the later text |
| AdminSettings.SettingsPage.constructor | src/pages/admin/AdminSettings.tsx:12-21 | the page starts from the listed defaults |
| AdminSettings.SettingsPage.ToggleSetting | src/pages/admin/AdminSettings.tsx:27-29 | the record becomes its toggle at that switch |
| AdminSettings.SettingsPage.SetText | src/pages/admin/AdminSettings.tsx:47-68 | the record becomes its update at that field |
| AdminSettings.SettingsPage.HandleSave | src/pages/admin/AdminSettings.tsx:23-25 | saving shows the "Settings saved" toast and leaves the settings unchanged |

## Left out

- Decimal rounding: `round`'s `Math.round`/`Math.pow` step is not modelled. A reading other than the sentinel is kept exactly. So rain (one decimal in the source) and tempMax (a whole number in the source) are compared unrounded: a T2M_MAX of 40.3 rounds to 40 in the source and raises no heat warning, but the model warns. The UV index (one decimal) and the other readings are likewise kept unrounded.
- The ×3.6 m/s to km/h conversion is exact multiplication on reals.
- `feelsLike`, the weekday names from `toLocaleDateString` and the clock that sets the request's start and end dates are not modelled. Days other than the latest are labelled `Weekday` of their date, standing for the weekday name.
- Weather.Fmt: `toISOString` is not modelled. `Fmt` starts from the ISO string and keeps its first 10 characters before removing dashes.
- NaN and non-numeric readings in the input are not modelled. A NaN that the code computes from a missing wind reading is modelled as `None` (`null` in the JSON). A missing series is modelled: `WD10M` and `ALLSKY_SFC_UV_INDEX` act as empty series (`?.` with `?? 0`); a missing other series is the `MissingSeries` error, without the engine's `TypeError` message text.
- The request URL, the `fetch` calls, CORS, `console` logging and the HTTP status codes are not modelled. The weather handler's `nasaRes.ok` failure and the AI gateway failure keep their error case, but not their message text, which formats a status number.
- JSON parsing is a parameter (`parse`), and the gateway is a function parameter.
- The prompt's date and its prose are not modelled. Only the crop list, the region and the price-history keys are.
- Pricing.Resolve: a field given as an explicit `null` is not modelled. The defaults apply only to `undefined`, so `"crops": null` makes `crops.join` throw and `"region": null` puts "null" in the prompt; the request type has no `null` case.
- Objects that are not plain records are not modelled: `Object.fromEntries` treats keys like `__proto__` specially, and a map from user id to role does not.
- Text.Lower and Text.UpperChar: case mapping is ASCII-only. JavaScript also folds non-ASCII letters, so a name with accented capitals may match a search that the model rejects.
- Lengths are counted in characters, not UTF-16 code units. This affects the 2-character query threshold and the first character of the avatar for names outside the Basic Multilingual Plane.
- Logout is not modelled: the shell reads `signOut`, which the context never supplies. Order status transitions are not modelled either, because the code has none.
- The 300 ms debounce delay, the document `mousedown` listener that closes the dropdown, and the `onFocus` handler that re-opens it when results exist (src/components/LocationSearch.tsx:74) are not modelled. Concurrent in-flight searches are not modelled: a search runs to completion inside one step.
- Browser form constraints (`required`, `minLength`) are not modelled, because the sign-up handler does not check them.
- Navigation after login is returned as the route rather than performed. Toasts are values.
- Signup.SignupEffects: the toasts' descriptions are not modelled. `emailRedirectTo` is not part of the request.
- AdminSettings.Toggled: it is only defined on the four boolean settings. The UI never toggles a text field, and in JavaScript doing so would turn the field into a boolean.
- The React rendering, the animations and the static dashboards are not part of this model.
