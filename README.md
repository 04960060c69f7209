# Flight of the day: a verified model of the feed generator

This project is a Dafny model of `generate_rss.js`. That script picks one "flight of the day" and writes it as the single item of an RSS feed. It works in these steps:

1. It derives date patterns from today's date: the day, month+day and day+month, then the two- and three-letter upper-case prefixes of the month and weekday names. Only the four name prefixes go through the de-duplicating filter; month+day and day+month are both kept even when they are equal.
2. It asks the Aviationstack flights endpoint for scheduled flights. It keeps those departing within today's UTC day and scores each one (`scoreFlight`). The score is a time-distance penalty plus bonuses for status, codes and date-pattern matches. It takes the best-scoring flight; among equal scores the earliest one wins, because the sort is stable.
3. If that yields nothing, it falls back to the OpenSky live-state list. It takes the first state whose trimmed callsign contains a date pattern, builds a record from it and, when the access key is non-empty (the placeholder key included), enriches that record with an Aviationstack lookup.
4. It looks up the aircraft model when the flight has an ICAO code. It then derives the item's title, link, guid and a six- or five-line description, building the description by appending line after line.

Every request to Aviationstack goes through `fetchJsonSafe`. That function tries up to three times. Between failed attempts it waits 2000 ms, 4000 ms, and so on. It returns the parsed body or nothing. The OpenSky request does not use it: `fetchOpenSkyFlight` calls `fetch` and `res.json()` once, with no retry and no status test, and any exception it raises yields `null`. The model takes that parsed response (or its absence) as a parameter.

The modules follow the script's structure:

| file | module | models |
|---|---|---|
| `wrappers.dfy` | `Wrappers` | `Option` |
| `text.dfy` | `Text` | JavaScript truthiness and `\|\|`, `trim`, ASCII `toUpperCase`, `includes`, `padStart(2,'0')`, joining and splitting lines |
| `dates.dfy` | `Dates` | `DATE_PATTERNS` |
| `flights.dfy` | `Flights` | the flight record and its optional-chaining reads |
| `scoring.dfy` | `Scoring` | `scoreFlight` (a method with the pattern loop, proved equal to the formula `ScoreOf`) |
| `fetch.dfy` | `Fetch` | `fetchJsonSafe` (a method with the retry loop, proved equal to `FetchSpec`) |
| `primary.dfy` | `Primary` | `fetchAviationstackFlight`: filter, score, stable descending sort, head |
| `fallback.dfy` | `Fallback` | `fetchOpenSkyFlight`: first match, base record, in-place enrichment |
| `feed.dfy` | `Feed` | `fetchAircraftModel` and `generateRSS` up to the item the XML template renders |

Each method mirrors the script's statements. It is proved equal to a specification function, and lemmas then characterise that function.

Some parts of the outside world are modelled as inputs:

- **Network.** What each request returns is a parameter. For `fetchJsonSafe` it is one `Attempt` per try: a network error, a non-OK status, an OK reply with unparsable JSON, or parsed JSON.
- **Clock.** The clock readings are parameters: the local day, month and weekday, the UTC midnight in milliseconds, `Date.now()`, and the date texts.
- **Timestamps.** A departure timestamp is a string paired with the milliseconds that `new Date(...).getTime()` gives for it.

The description's line markers are the characters the source file holds, and the model uses them as written. In the file they are mojibake: the UTF-8 bytes of each emoji were read as Windows-1252 and stored again as UTF-8. Node reads the file as UTF-8, so the program writes these characters:

| emoji meant | marker in the file | code points |
|---|---|---|
| U+1F4C5 (calendar) | `ðŸ“…` | U+00F0 U+0178 U+201C U+2026 |
| U+2708 (plane) | `âœˆ` | U+00E2 U+0153 U+02C6 |
| U+1F6EB (departure) | `ðŸ›«` | U+00F0 U+0178 U+203A U+00AB |
| U+1F6EC (arrival) | `ðŸ›¬` | U+00F0 U+0178 U+203A U+00AC |
| U+1F6E9 (small plane) | `ðŸ›©` | U+00F0 U+0178 U+203A U+00A9 |
| U+1F517 (link) | `ðŸ”—` | U+00F0 U+0178 U+201D U+2014 |

`DATE_PATTERNS` always has seven entries, because the four name prefixes are pairwise distinct for every month and weekday and the filter removes none of them. Month+day and day+month coincide exactly when the day of the month equals the month number, and then the seven entries hold six distinct values. `Dates.DatePatternsLayout` proves the count of seven and `Dates.NumericRepeat` the coincidence.

## Model

| member | source | states |
|---|---|---|
| Text.OrElse | generate_rss.js:174-179 | `o \|\| fallback` on an optional string: the value when it is present and non-empty, the fallback otherwise |
| Text.OrOpt | generate_rss.js:133-136 | `a \|\| b` on optional strings: `a` when truthy, else `b` |
| Text.Trim | generate_rss.js:111 | `trim()` returns a contiguous slice of the input; everything cut off at both ends is JavaScript white space; the result neither starts nor ends with white space |
| Text.TrimIdempotent | generate_rss.js:111 | trimming twice is trimming once |
| Text.TrimOfClean | generate_rss.js:157 | a string without white space at its ends is left unchanged by `trim()` |
| Text.ToUpper | generate_rss.js:68-73 | `toUpperCase()` keeps the length and maps each ASCII lower-case letter to its capital, leaving other characters alone |
| Text.ToUpperConcat | generate_rss.js:68-72 | upper-casing distributes over concatenation |
| Text.OccursAt | generate_rss.js:73 | `p` occurs in `s` at index `i`: the slice of `s` there is `p` |
| Text.Contains | generate_rss.js:109-113 | `s.includes(p)`: `p` occurs at some index of `s`; `Text.ContainsAcrossSpace` and `Text.ContainsInFields` characterise it |
| Text.ContainsAcrossSpace | generate_rss.js:68-73 | a pattern without white space occurs in `a + w + b`, with `w` non-empty white space, exactly when it occurs in `a` or in `b` |
| Text.ContainsInFields | generate_rss.js:68-73 | the same for three fields separated by white-space runs, as in the search text |
| Text.Pad2 | generate_rss.js:10-11 | `String(n).padStart(2,'0')` for `0 <= n < 100` has exactly two decimal digits |
| Text.Pad2RoundTrip | generate_rss.js:10-11 | the two digits read back as `n` |
| Text.Pad2Injective | generate_rss.js:10-11 | two numbers pad to the same text exactly when they are equal |
| Text.JoinLines | generate_rss.js:192-198 | lines joined with `"\n"` between them, as the `+=` chain builds the description; `Text.SplitJoinLines` and `Text.JoinLinesSnoc` characterise it |
| Text.SplitJoinLines | generate_rss.js:192-198 | splitting at newlines a text joined from newline-free lines gives the lines back |
| Text.JoinLinesSnoc | generate_rss.js:193-198 | each `description += "\n" + line` joins one more line |
| Dates.Dedup | generate_rss.js:26 | `filter((v,i,a)=>a.indexOf(v)===i)` keeps exactly the same set of values, leaves no duplicates and never grows the list |
| Dates.IndexOf | generate_rss.js:26 | `a.indexOf(v)` for a value that occurs: an index holding `v` with no earlier index holding it |
| Dates.DedupKeepsFirstOrder | generate_rss.js:26 | the filter keeps first occurrences in input order: along the result, the index of each value's first occurrence in the input strictly increases |
| Dates.DedupOfDistinct | generate_rss.js:26 | on a list without duplicates the filter changes nothing |
| Dates.MonthPrefixIsAbbrev | generate_rss.js:15-19 | the upper-cased three- and two-letter prefixes of each month name are its capital abbreviation and its first two letters |
| Dates.DayPrefixIsAbbrev | generate_rss.js:21-24 | the same for the weekday names |
| Dates.TextPrefixesDistinct | generate_rss.js:17-26 | the four name prefixes are pairwise distinct for every month and weekday, so the de-duplication removes nothing |
| Dates.MonthPrefix | generate_rss.js:17-19 | `fullMonthName.substring(0,n).toUpperCase()`; `Dates.MonthPrefixIsAbbrev` fixes its values |
| Dates.DayPrefix | generate_rss.js:22-24 | `fullDayName.substring(0,n).toUpperCase()`; `Dates.DayPrefixIsAbbrev` fixes its values |
| Dates.NumericPatterns | generate_rss.js:10-13 | `[day, month+day, day+month]` of the padded numbers; `Dates.DatePatternsLayout` and `Dates.NumericRepeat` characterise it |
| Dates.TextPatterns | generate_rss.js:15-26 | the de-duplicated name prefixes; `Dates.TextPrefixesDistinct` shows the filter removes none of them |
| Dates.DatePatterns | generate_rss.js:9-29 | `DATE_PATTERNS`: the numeric patterns followed by the de-duplicated name prefixes, always seven entries |
| Dates.DatePatternsLayout | generate_rss.js:9-29 | there are always seven patterns: the padded day (reading back as the day), month+day, day+month, then the month's two- and three-letter and the weekday's two- and three-letter capital prefixes, the last four distinct |
| Dates.DatePatternsWellFormed | generate_rss.js:9-29 | every pattern is non-empty, contains no white space and consists only of capitals and digits |
| Dates.NumericRepeat | generate_rss.js:13 | month+day and day+month coincide exactly when the day number equals the month number |
| Flights.DepartureStamp | generate_rss.js:58 | `scheduled \|\| estimated \|\| actual`: none exactly when no field is a non-empty string; otherwise `scheduled` when it is non-empty, else `estimated` when it is non-empty, else `actual` |
| Scoring.TimePenalty | generate_rss.js:60-62 | `Math.abs(depTime - now) / 36e5 * 10` is never negative |
| Scoring.SearchText | generate_rss.js:68-72 | the template literal: number, IATA and ICAO code, each empty when missing, on lines of their own; `Scoring.MatchIsPerField` states what a match in it means |
| Scoring.MatchCount | generate_rss.js:73 | the pattern bonus counts at most one match per pattern entry |
| Scoring.ScoreOf | generate_rss.js:55-75 | the score formula: a finite score never exceeds 70 plus 5 per pattern entry |
| Scoring.ScoreFlight | generate_rss.js:55-75 | the method, adding to `score` statement by statement and in the pattern loop, returns exactly the score formula `ScoreOf` |
| Scoring.NegInfIffNoDeparture | generate_rss.js:58-59 | the score is `-Infinity` exactly when the flight has no departure time |
| Scoring.StatusRanking | generate_rss.js:63-64 | all else equal, `scheduled` outscores `active` by 20 and `active` outscores any other status by 30 |
| Scoring.StatusBonus | generate_rss.js:63-64 | the status adds exactly 50 for `scheduled`, 30 for `active` and nothing otherwise to the score of the same flight without a status |
| Scoring.MatchCountCountsIndices | generate_rss.js:73 | the bonus counts entries of the pattern list, duplicates included: it is the number of indices whose upper-cased pattern occurs |
| Scoring.MatchIsPerField | generate_rss.js:68-73 | a white-space-free pattern matches the search text exactly when it matches the upper-cased number, IATA or ICAO code; no match spans two fields |
| Scoring.DatePatternMatchIsPerField | generate_rss.js:9-73 | every date pattern is such a pattern, so date bonuses are earned field by field |
| Scoring.ScoreBounds | generate_rss.js:55-75 | with a departure time the score is finite and lies between minus the penalty and 70 + 5 per pattern minus the penalty |
| Scoring.CloserIsBetter | generate_rss.js:60-62 | two flights that differ only in departure time differ in score by exactly the difference of their penalties, and the one departing closer to now scores at least as much |
| Scoring.PenaltyMonotone | generate_rss.js:60-62 | a departure closer to now never has a larger penalty |
| Fetch.FetchFrom | generate_rss.js:33-50 | the loop from attempt `i` on, as a recursive function; `Fetch.FetchFromShape` characterises it |
| Fetch.FetchSpec | generate_rss.js:32-52 | `fetchJsonSafe(url, retries)` as a function of the attempts' outcomes; `Fetch.FetchShape` characterises it |
| Fetch.FetchJsonSafe | generate_rss.js:32-52 | the retry loop returns the result and the sequence of waits of the specification `FetchSpec` |
| Fetch.FetchFromShape | generate_rss.js:33-50 | from attempt `i` on: at least one and at most the remaining attempts are made; waits come between attempts and grow by 2000 ms; every attempt but the last failed; a failing last attempt is the final one allowed; the result is the parsed body of the last attempt or nothing |
| Fetch.FetchShape | generate_rss.js:32-52 | the same from the first attempt, with waits 2000, 4000, … ms |
| Fetch.NoRetriesNoAttempt | generate_rss.js:33-51 | with no retries nothing is fetched and `null` is returned |
| Fetch.FirstAnswerDecides | generate_rss.js:38-45 | the first attempt that reaches the server with an OK status ends the loop; its parsed body, or `null` for bad JSON, is the result |
| Fetch.AllFailedExhausts | generate_rss.js:38-50 | if every attempt fails, all of them are made, with one wait fewer than attempts, and the result is `null` |
| Primary.FirstItem | generate_rss.js:155 | `data?.data?.[0]` is present exactly when the response has a non-empty `data` array, and is its first element |
| Primary.KeyConfigured | generate_rss.js:79 | the primary guard: the key is non-empty and not the placeholder `YOUR_ACCESS_KEY_HERE`; `Primary.SelectPrimaryChoice` uses it |
| Primary.InToday | generate_rss.js:86-94 | the filter's test: a departure time, and one within 00:00:00 to 23:59:59 of today's UTC day |
| Primary.Today | generate_rss.js:86-95 | the filter keeps only flights departing within 00:00:00 to 23:59:59 of today's UTC day, and is empty exactly when none does |
| Primary.TodayKeepsAll | generate_rss.js:90-95 | a flight is in the result exactly when it is in the input and in the window, and it occurs there as often as in the input |
| Primary.TodayAppend | generate_rss.js:90-95 | filtering a concatenation concatenates the filtered parts, so the kept flights keep their input order |
| Primary.ScoreAll | generate_rss.js:96 | the map pairs each flight with its own score, in order |
| Primary.Insert | generate_rss.js:97 | one insertion step keeps the elements (as a multiset) and the descending order |
| Primary.SortByScore | generate_rss.js:97 | the sort gives a permutation of its input in descending score order |
| Primary.InsertStable | generate_rss.js:97 | inserting an entry in front of the entries with its score keeps, for every score, the input order of the entries with that score |
| Primary.SortByScoreStable | generate_rss.js:97 | the sort is stable: for every score, the entries with that score come out in their input order |
| Primary.Ranked | generate_rss.js:89-97 | filter, map and sort: as many entries as flights of today, in descending score order |
| Primary.RankedCons | generate_rss.js:89-97 | the ranking of `x` followed by `rest` is the ranking of `rest` with `x` inserted, when `x` departs today |
| Primary.RankedEmptyIff | generate_rss.js:89-99 | the ranking is empty exactly when no flight departs today |
| Primary.RankedScoresAreOwn | generate_rss.js:96-97 | every ranked entry carries its own flight's score |
| Primary.RankedHeadIsFirstBest | generate_rss.js:89-99 | the head of the ranking is a flight of today whose score is maximal, and no earlier flight of today scores as much (stability) |
| Primary.SelectPrimary | generate_rss.js:79-99 | what the function returns for a key and a response; `Primary.SelectPrimaryChoice` characterises it |
| Primary.SelectPrimaryChoice | generate_rss.js:78-99 | a flight is chosen exactly when the key is set and not the placeholder, the response has a `data` array and some flight departs today; the chosen flight is the first of that day's best |
| Primary.TodayScoresFinite | generate_rss.js:58-96 | flights kept by the filter never score `-Infinity` |
| Primary.FetchAviationstackFlight | generate_rss.js:78-99 | the function, with its fetch, returns `SelectPrimary` of what `fetchJsonSafe` returned |
| Fallback.StateMatches | generate_rss.js:110-112 | the `find` callback: a non-empty callsign whose trim contains some pattern, case-sensitively |
| Fallback.FirstMatchFrom | generate_rss.js:109-113 | `find` from a position: the first state there or later whose trimmed callsign contains a pattern, or none when no such state exists |
| Fallback.FirstMatch | generate_rss.js:109-113 | `find`: the first matching state, or none when none matches |
| Fallback.BaseRecord | generate_rss.js:117-123 | the record built from the match: the untrimmed callsign as IATA code, status `active`, `Unknown Airline` and two `Unknown` airports, no number, no ICAO code and no departure time |
| Fallback.Enriched | generate_rss.js:133-138 | the six writes of the lookup result into the record; `Fallback.EnrichedFields` characterises them |
| Fallback.EnrichedFields | generate_rss.js:132-139 | the six writes take the lookup's airline, origin and destination names when they are non-empty and keep the defaults otherwise, set both IATA codes (empty when missing) and the ICAO code (`null` when missing), and change nothing else |
| Fallback.FallbackFlight | generate_rss.js:103-146 | what `fetchOpenSkyFlight` returns for a key, a live-state response and a lookup response; `Fallback.FallbackChoice` characterises it |
| Fallback.FallbackChoice | generate_rss.js:103-146 | a flight results exactly when the state list is present and some state matches; it comes from the first matching state, keeps the untrimmed callsign as its IATA code, is `active` and has no flight number; without a key or a lookup result it keeps the `Unknown` defaults and has no ICAO code |
| Fallback.FetchOpenSkyFlight | generate_rss.js:103-146 | the function, building the record and writing its fields one by one, returns `FallbackFlight` of the lookup `fetchJsonSafe` returned |
| Feed.ModelText | generate_rss.js:157 | the trimmed join of manufacturer and aircraft name: no white space at either end |
| Feed.ModelTextShape | generate_rss.js:157 | the model text has no white space at its ends; it is empty when both names are missing; for clean names it is `manufacturer aircraft`, or the one name present |
| Feed.AircraftModel | generate_rss.js:149-158 | a model exactly when the key and the ICAO code are non-empty and the response has a first aircraft type; the model has no white space at its ends |
| Feed.FetchAircraftModel | generate_rss.js:149-158 | no lookup without a key or a code; otherwise the trimmed model text of the first aircraft type, or `null` |
| Feed.FlightNumber | generate_rss.js:175 | `number \|\| iata \|\| 'N/A'` is never empty |
| Feed.Callsign | generate_rss.js:182 | `flightIata \|\| flightNumber` is never empty, and is the IATA code when that is non-empty |
| Feed.CallsignChoice | generate_rss.js:174-184 | the identifier of title, link and guid is the IATA code, else the flight number, else `N/A`, and is never empty |
| Feed.DatePart | generate_rss.js:185 | `slice(0,10)`: the first ten characters, or all of a shorter text |
| Feed.DescriptionLines | generate_rss.js:193-198 | the lines of the description, each starting with the marker the source writes: six when the model is a non-empty string, five otherwise |
| Feed.FlightLines | generate_rss.js:175-198 | the description lines of a flight, with the `Unknown Airline` and `Unknown` defaults and the callsign; `Feed.DescriptionLayout` characterises them |
| Feed.BuildDescription | generate_rss.js:192-198 | the description appended line by line, markers as the source writes them, equals the lines joined with newlines |
| Feed.ChosenFlight | generate_rss.js:163-172 | the primary choice, else the fallback's; `Feed.PrimaryComesFirst` and `Feed.NoFlightNoItem` characterise it |
| Feed.ModelFor | generate_rss.js:189-190 | the aircraft lookup only when the ICAO code is non-empty, else no model; `Feed.AircraftModel` states what the lookup returns |
| Feed.ItemFor | generate_rss.js:174-212 | the item for a flight and its model; `Feed.ItemIdentifiers` and `Feed.DescriptionLayout` characterise it |
| Feed.FeedItem | generate_rss.js:161-198 | the item of a run, or none; `Feed.NoFlightNoItem` and `Feed.PrimaryComesFirst` characterise it |
| Feed.GenerateRss | generate_rss.js:161-198 | the run (primary source, fallback only on nothing, field defaults, aircraft lookup only with an ICAO code, appended description) yields exactly the item `FeedItem` specifies, or nothing |
| Feed.PrimaryComesFirst | generate_rss.js:163-172 | when the primary source yields a flight it is used, whatever the live-state list and the lookup return |
| Feed.NoFlightNoItem | generate_rss.js:165-171 | nothing is written exactly when neither source yields a flight |
| Feed.ItemIdentifiers | generate_rss.js:181-212 | link is the tracker URL plus the identifier, guid is the identifier, a dash and the UTC date, the title names the identifier and the airline |
| Feed.DescriptionLayout | generate_rss.js:192-198 | split at newlines, the description gives back date, flight, origin, destination, the model line only when the model is non-empty, and the tracking link: six lines or five, each starting with the source's marker, for fields without newlines |

## Left out

- Network access, `AbortController` time-outs and the `setTimeout` waits: each request's outcome is a parameter, and the waits are returned as a list of durations.
- Date handling (`new Date`, `getDate`, `Date.UTC`, `toISOString`, `toLocaleDateString`, `toUTCString`, parsing departure strings): these readings are parameters of the model.
- Scoring.ScoreFlight: `Date.now()` is read once per scored flight in the source; the model takes one reading for all flights of a run.
- Scoring.ScoreOf: scores are exact reals, not IEEE doubles; rounding in `/ 36e5 * 10` is not modelled.
- Text.ToUpper: upper-cases ASCII letters only; the patterns and flight codes it is applied to are ASCII, so full Unicode case mapping is not modelled.
- JSON decoding and values of the wrong JSON type (a non-string callsign that makes `trim()` throw, non-object array elements): inputs are typed records.
- Primary.SortByScore: stability is stated by `Primary.SortByScoreStable`, not by the function's own contract. The comparator `b.score - a.score` is NaN only for two `-Infinity` scores, which the filter rules out; the sort is modelled as a stable insertion sort.
- Fetch.FetchJsonSafe: requires at least `retries` outcomes, one per attempt that may be made.
- Writing the XML file, the channel template and the console messages: the model ends at the item's five fields.
- Reading `AVIATIONSTACK_ACCESS_KEY` from the environment: the key is a parameter.
