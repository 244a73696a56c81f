# Flight lookup server: aircraft classifier and duration rule

A Dafny model of the logic in `server.js` of a small flight-lookup web app.
The `/api/flight` handler asks the AeroDataBox service for a flight. It then
checks that both airport codes are present and computes the scheduled duration
in minutes. It classifies the aircraft model text into an airframe code and
returns one JSON record. The model covers the parts of this that are pure:

- `AircraftType` models `detectAircraftType`. An absent or empty model gives
  `A320`. Otherwise the model is upper-cased and tested against a fixed chain of
  substring rules, and the first rule that matches decides. The chain is written
  as the server writes it (`Classify`, split by family into `ClassifyBoeing` and
  `ClassifyRegional` without changing the order). It is also written as an
  ordered rule table `RULES` with first-match semantics (`FirstMatch`), and the
  two are proved equal. The codes are the enumeration `Airframe`, and `Name`
  gives the string the server sends as the aircraft's `type` (`A320neo`,
  `A321`, …, `CRJ`: fifteen codes, sent as fifteen distinct strings).
- `Duration` models the duration rule. Each end's scheduled time is
  `scheduledTime.utc || scheduledTime.local`. Both must be truthy. The
  difference of the two instants goes through `Math.round(diff / 60000)`, and
  1440 is added once if the result is negative. A timestamp is its text together
  with the instant `new Date(text)` denotes, given as integer milliseconds, or
  `None` for an Invalid Date. Date parsing itself is an input, not part of the
  model.
- `FlightLookup` models what the handler does with the request and the
  provider's answer. A falsy flight number is rejected (400). An empty flight
  list and a first flight without both IATA codes are rejected (404). Otherwise
  the record is built from the first flight: upper-cased number, date, airline,
  two endpoints, the `aircraft` object with its `|| null` defaults, and the
  duration.
- `JsText` holds the JavaScript string operations these rely on: truthiness,
  `|| null`, `toUpperCase` and `includes`. `Wrappers` holds `Option` and
  `Result`.

The model follows the code. Several features one might expect in a flight-data
pipeline are not in the code, and the code behaves as follows:

- The short equipment codes `73H` and `7M8` contain no `737`. The code
  therefore classifies them as `A320`, not as the MAX variant
  (`ShortBoeingCodesFallThrough`).
- There is no timezone correction of local times in the code. There is also no
  great-circle fallback, no static airport table and no 20-minute plausibility
  threshold, so none of these is modelled.
- The duration is not always non-negative. 1440 is added only once, so an
  arrival more than a day and a half-minute before the departure stays negative
  (`WrapsOnlyOnce`, and the exact bound in `DurationFromMillis`).
- Only the provider shape with nested `airport.iata` and
  `scheduledTime.{utc,local}` exists in the code.

## Model

| member | source | states |
|---|---|---|
| `AircraftType.DetectAircraftType` | server.js:136-155 | An absent or empty model (falsy in JavaScript) gives the baseline code A320. That a truthy model's code depends only on its upper-cased text is stated by `DependsOnlyOnUpper`. |
| `AircraftType.Classify` | server.js:139-145 | Carries no contract of its own: the Airbus tests in the server's order, falling through to `ClassifyBoeing`. What it computes is stated by `ClassifyIsFirstMatch`. |
| `AircraftType.ClassifyBoeing` | server.js:146-149 | Carries no contract of its own: the Boeing tests in the server's order, falling through to `ClassifyRegional`. `BoeingIsFirstMatch` states that it is rules 7 to 14 of the table applied first-match. |
| `AircraftType.ClassifyRegional` | server.js:150-154 | Carries no contract of its own: the regional tests in the server's order, then the fall-through A320. `RegionalIsFirstMatch` states that it is rules 11 to 14 of the table applied first-match. |
| `AircraftType.BoeingIsFirstMatch` | server.js:146-154 | The Boeing part of the chain equals the rule table from rule 7 on, applied with first-match semantics. |
| `AircraftType.RegionalIsFirstMatch` | server.js:150-154 | The regional part of the chain equals the rule table from rule 11 on, applied with first-match semantics, with A320 when nothing matches. |
| `AircraftType.Name` | server.js:139-154 | Carries no contract of its own: the string returned for each of the fifteen codes. `NameInjective` states that the strings are distinct, and `FlightLookup.AircraftOf` that the aircraft's `type` is this string. |
| `AircraftType.ClassifyIsFirstMatch` | server.js:139-154 | The chain of conditional returns equals the ordered rule table applied with first-match semantics, with A320 when nothing matches. |
| `AircraftType.FirstMatchIsFirst` | server.js:139-154 | First-match semantics: when no rule passes, the result is the default. When rule k is the first that passes, the result is rule k's code. One of these two cases always holds. |
| `AircraftType.RuleCodesDistinct` | server.js:139-153 | No two rules of the chain return the same code. |
| `AircraftType.DetectCodeIff` | server.js:139-153 | For a truthy model and any code other than A320: the classifier returns that code exactly when its rule is the first rule that passes. Both directions are proved. |
| `AircraftType.DetectDefaultIff` | server.js:137-154 | A320 comes out exactly when the model is falsy, when no rule passes, or when the generic A320 rule is the first that passes. |
| `AircraftType.DependsOnlyOnUpper` | server.js:138 | Two models with the same upper-cased text get the same code. |
| `AircraftType.CaseInsensitive` | server.js:138 | Upper-casing or lower-casing a model does not change its code. |
| `AircraftType.NeoBeforeGenericA320` | server.js:139-142 | A model containing both A320 and NEO is an A320neo. It is never the generic A320, because that rule comes later. |
| `AircraftType.MaxNeverGeneric737` | server.js:146-147 | A model containing both 737 and MAX is never classified as B738. |
| `AircraftType.DashIsCrj` | server.js:153 | A model containing DASH that passes none of the earlier fourteen rules is classified CRJ. |
| `AircraftType.NameInjective` | server.js:139-154 | Two codes are sent as the same `type` string exactly when they are the same code. |
| `AircraftType.E190Rule` | server.js:139-150 | A model naming E190 or ERJ-190 that lacks '7', and lacks 'A' or '3', is classified E190 (so "Embraer E190" is). |
| `AircraftType.CrjRule` | server.js:139-153 | A model naming CRJ or DASH is classified CRJ when it lacks '7', lacks 'A' or '3', lacks 'E' or '1', and lacks 'A' or 'T'. |
| `AircraftType.Dash8IsCrj` | server.js:153 | "Dash 8", in any letter case, is classified CRJ. |
| `AircraftType.DeHavillandDash8IsCrj` | server.js:150-153 | "De Havilland Dash 8", in any letter case, is classified CRJ. Its 'E' does not reach an Embraer rule. |
| `AircraftType.A321Rule` | server.js:139-140 | A model naming A321 without the digit 0 (so without A320) is classified A321. |
| `AircraftType.A319Rule` | server.js:139-141 | A model naming A319 without the digit 2 (so without A320 or A321) is classified A319. |
| `AircraftType.A320Rule` | server.js:139-142 | A model naming A320 without 'N' (so without NEO) and without '1' (so without A321 or A319) is the generic A320. |
| `AircraftType.A330Rule` | server.js:139-143 | A model naming A330 without the digits 1 and 2 is classified A330. |
| `AircraftType.A350Rule` | server.js:139-144 | A model naming A350, without the digits 1 and 2 and with no occurrence of A330, is classified A350. |
| `AircraftType.A380Rule` | server.js:139-145 | A model naming A380, without the digits 1, 2 and 5 and with no occurrence of A330, is classified A380. |
| `AircraftType.B738Rule` | server.js:139-147 | A model naming 737 without 'A' (so without MAX or any Airbus pattern) is classified B738. |
| `AircraftType.B787Rule` | server.js:139-148 | A model naming 787 without the digit 3 (so without an Airbus pattern or 737) is classified B787. |
| `AircraftType.B777Rule` | server.js:139-149 | A model naming 777 without the digits 3 and 8 (so without an Airbus pattern, 737 or 787) is classified B777. |
| `AircraftType.E195Rule` | server.js:139-151 | A model naming E195 that lacks '7' and '0', and lacks 'A' or '3', is classified E195. |
| `AircraftType.ATRRule` | server.js:139-152 | A model naming ATR that lacks '3' and '7', and lacks 'E' or '1', is classified ATR. |
| `AircraftType.AirbusPatternsRoundTrip` | server.js:139-145 | A model that is exactly one Airbus pattern in any letter case (A321, A319, A320, A330, A350, A380, or A320 followed by NEO) is classified with that rule's code. |
| `AircraftType.BoeingPatternsRoundTrip` | server.js:146-149 | A model that is exactly 737, 787 or 777 (or 737 followed by MAX) is classified with that rule's code. |
| `AircraftType.RegionalPatternsRoundTrip` | server.js:150-153 | A model that is exactly E190, ERJ-190, E195, ATR, CRJ or DASH in any letter case is classified with that rule's code. |
| `AircraftType.NeoRule` | server.js:139 | A model with A320 and NEO at given offsets is classified A320neo. |
| `AircraftType.AirbusA320neo` | server.js:139 | "Airbus A320neo", in any letter case, is classified A320neo. |
| `AircraftType.MaxRule` | server.js:140-146 | A model containing 737 and MAX, and none of the digits 0, 1 and 2, passes no Airbus rule and is classified B38M. |
| `AircraftType.Boeing737Max8` | server.js:146 | "Boeing 737 MAX 8", in any letter case, is classified B38M. |
| `AircraftType.ThreeCharCodeRule` | server.js:139-154 | Every three-character model other than 737, 787, 777, ATR and CRJ falls through to A320. Every single-pattern rule other than those five has a pattern longer than three characters. NEO and MAX have three characters, but they pass a rule only together with A320 or 737, and a three-character model cannot contain A320, nor 737 and MAX together. |
| `AircraftType.ShortBoeingCodesFallThrough` | server.js:146-154 | "73H" and "7M8" are classified A320, not B38M or B738. |
| `JsText.Truthy` | server.js:54 | A string is falsy exactly when it is absent (`undefined` or `null`) or empty. The same test guards the number (server.js:18) and the model (server.js:137). |
| `JsText.Upper` | server.js:138 | `toUpperCase` keeps the length of the string (also used for the flight number, server.js:78). |
| `JsText.UpperAt` | server.js:138 | Each character of the upper-cased string is the corresponding character upper-cased on its own. |
| `JsText.Includes` | server.js:139-153 | The empty pattern is in every string, and a pattern that is included is no longer than the string. That it holds exactly when the pattern occurs at some offset is stated by `IncludesIffOccurs`. |
| `JsText.OrNull` | server.js:101-103 | Defaulting a string to null gives null exactly when the string is falsy. Otherwise it gives the string unchanged, so never the empty string. |
| `JsText.IncludesIffOccurs` | server.js:139-153 | The recursive substring test used for `includes` holds exactly when the pattern occurs at some offset. |
| `JsText.UpperIdempotent` | server.js:138 | Upper-casing twice is the same as upper-casing once. |
| `JsText.UpperOfLower` | server.js:138 | Upper-casing a lower-cased string is the same as upper-casing the original. |
| `Duration.Present` | server.js:65-68 | Carries no contract of its own: a scheduled time is truthy when it exists and its text is not empty. `PickTime` and `ScheduledDuration` state how this decides the choice of time and whether there is a duration. |
| `Duration.PickTime` | server.js:65-66 | The chosen time is the UTC one whenever its text is truthy, and the local one otherwise. |
| `Duration.RoundedMinutes` | server.js:69 | The rounded minute count r satisfies 60000·r − 30000 ≤ ms < 60000·r + 30000. This is the nearest minute, with an exact half rounded up. |
| `Duration.RoundedMinutesUnique` | server.js:69 | Only one integer satisfies that bound, so the bound defines the rounding. |
| `Duration.RoundedMinutesMonotonic` | server.js:69 | Rounding preserves the order of two differences. |
| `Duration.WrapNegative` | server.js:70 | The correction adds 0 or 1440. It leaves the value unchanged exactly when the value is non-negative. The result is non-negative exactly when the input is at least −1440. A corrected value is below 1440. |
| `Duration.DurationFromMillis` | server.js:67-71 | There is a duration exactly when both instants are valid. Forward differences give the rounded minutes. The value is the corrected rounded difference of the two instants. Forward differences are not corrected. The result is non-negative exactly when the arrival is at most 86,430,000 ms before the departure. The result is congruent to the raw rounded minutes modulo 1440. |
| `Duration.ScheduledDuration` | server.js:65-71 | The duration is null whenever either chosen scheduled time is falsy. When both are truthy, it is the duration of the two chosen instants. |
| `Duration.NegativeWithinADayWraps` | server.js:69-70 | An arrival before the departure by at most one day and half a minute gives a duration in [0, 1440). This includes an arrival less than half a minute early, which rounds to 0. |
| `Duration.MinusThirtyMinutes` | server.js:69-70 | A raw difference of −30 minutes becomes 1410. |
| `Duration.WrapsOnlyOnce` | server.js:70 | A raw difference of −1500 minutes becomes −60: one day is added once, not repeatedly. |
| `Duration.ShiftInvariant` | server.js:69 | Shifting both instants by the same amount does not change the duration. |
| `Duration.UtcPreferred` | server.js:65-66 | When both UTC texts are truthy, the local times play no part and the duration is computed from the UTC instants. |
| `Duration.InvalidUtcIsNotReplaced` | server.js:65-69 | A truthy UTC text that does not parse is still the one chosen, so the duration is null even if a valid local time exists. |
| `Duration.MixedUtcAndLocal` | server.js:65-71 | Each end chooses its time on its own. A departure with a truthy UTC text and an arrival with only a local text are combined as they are. |
| `Duration.LocalFallback` | server.js:65-66 | With no truthy UTC text at either end, the local instants are used. |
| `FlightLookup.TextOf` | server.js:88 | Carries no contract of its own: `scheduledTime?.local`, the text of the local time or `undefined` when there is none (also at server.js:97). `EndpointOf` states how it becomes `scheduledLocal`. |
| `FlightLookup.EndpointOf` | server.js:82-99 | An endpoint carries the flight's IATA code, which is non-empty. Its local scheduled text and its terminal default to null when falsy. |
| `FlightLookup.AircraftOf` | server.js:100-104 | The aircraft `type` is the name of the code the classifier gives for the model. Model and registration default to null when falsy. |
| `FlightLookup.Lookup` | server.js:16-106 | A falsy number gives MissingFlightNumber. An empty flight list gives NoFlightOnDate. A first flight lacking either IATA code gives AirportDataUnavailable; both directions are proved. Otherwise the record holds the upper-cased number, the date or today, the defaulted airline, both endpoints, the aircraft and the scheduled duration of the first flight. |
| `FlightLookup.OnlyFirstFlightUsed` | server.js:50 | Flights after the first in the provider's list do not affect the result. |
| `FlightLookup.RecordIffCodesPresent` | server.js:51-56 | A record is produced exactly when the number is truthy, a flight exists and both its IATA codes are truthy. No partial record is returned. |
| `FlightLookup.NoModelMeansBaseline` | server.js:100-104 | In every record, an aircraft whose model is null has type "A320", and the model is never the empty string. |

## Left out

- HTTP plumbing: the Express app, static file serving, the catch-all route and `app.listen` (server.js:1-12, 157-164).
- Network I/O: the flight `fetch`, its status handling (a 404 or another error status from AeroDataBox), `fetchAirport` and the `Promise.all` around the two airport fetches (server.js:29-45, 59-62, 114-134). The flight list is an input. A `null` list body is treated like an empty one, since the model takes a sequence.
- Each endpoint's `name`, `city`, `lat` and `lon` (server.js:84-87, 93-96). `city`, `lat` and `lon` come from `fetchAirport`, and the coordinates are floating-point values passed through unchanged. `name` is the airport record's name or, if that is falsy, the provider flight's own `airport.name`. Both sources are data the model does not carry.
- The API key lookup in `process.env` and the `catch` block's 500 response (server.js:22-25, 108-111): environment and transport.
- The clock: when no `date` is given, the current date is the parameter `today` of `Lookup`.
- Date parsing: `new Date(text)` is an input, the `millis` part of a `Timestamp`.
- JsText.Upper: only the ASCII letters a-z are upper-cased. JavaScript's full Unicode mapping is not modelled (for example 'ı' to 'I', 'ſ' to 'S', or ligatures that change the length).
- RoundedMinutes: computes `Math.round(diff / 60000)` in exact integer arithmetic. The floating-point division is not modelled. The two agree for differences below about 2^36 minutes, far beyond any flight. JavaScript's `-0` for differences in [−30 s, 0) prints as `0`, which the model gives.
- JavaScript truthiness is modelled only for strings. A provider field that is a number or an object instead of a string is not modelled. The query parameters `number` and `date` are also taken to be strings. A repeated `number` parameter arrives as an array, so `toUpperCase` throws and the handler answers 500; that path is not modelled.
- MaxRule: covers models containing 737 and MAX without the digits 0, 1 and 2, so "737 MAX 10" is not among its cases. Such models are covered only by the general `DetectCodeIff`.
