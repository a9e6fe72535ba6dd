# bread-log in Dafny

bread-log records a bakery team's dough makes. For each make it keeps:

- when its six process steps happened: autolyse, mix, bulk, preshape, final shape and fridge;
- five temperature readings and their unit;
- the stretch folds performed;
- notes.

The system has two halves:

- **A Python backend.** Pydantic record models, a psycopg data layer and FastAPI endpoints.
- **A React frontend.** A form hook, a team-makes hook, the main `BreadApp` component and a temperature utility.

This project models the logic of both halves in Dafny and proves properties of the model:

- **The backend validator.** It adjusts the step timestamps across midnight, then checks their order.
- **The endpoint flows that use the validator.** These are create, the partial-update merge and re-validation, account make registration, and the calendar-date check.
- **The data layer's query building and result rules.**
- **The frontend's form-state transformations.** These are temperature conversion and ranges, stretch-fold list edits, make-key derivation and the duplicate check, the submission payload, and combining a date and a time.

### Representation

- **Timestamps** are whole seconds (`int`). A dayjs or `Date` value is `Option<int>`, with `None` for `null`.
- **Backend dates** are `(year, month, day)` triples.
- **Frontend temperatures** are exact `real`s. `Math.round(x)` is `floor(x + 1/2)`.
- **Strings** are `seq<char>`.
- **JavaScript's `\s`** is the ECMAScript white-space and line-terminator set.
- **`toLowerCase`** maps only the ASCII letters.

### Stateful code

Code that works step by step is written as Dafny classes and methods:

- the hooks' `useState` cells are the fields of `BreadForm.BreadFormHook`, `TeamMakes.TeamMakesHook` and `BreadApp.BreadAppState`;
- the pool singleton is a field of `Db.PoolRegistry`;
- the day-boundary adjustment, the ordering check and the duplicate-key scan of `create_make_for_account` are `for` loops with invariants.

Each method's ensures give its result and new state in terms of the model's functions.

Collaborators are parameters of the operations that call them:

- database reads and writes;
- the clock;
- the API calls;
- the account lookup.

Each flow returns the calls it would make.

### Modules

| file | module | models |
|---|---|---|
| wrappers.dfy | Wrappers | `Option` and `Result` |
| text.dfy | Text | joining, repetition, character counts and decimal rendering, in the form the SQL builders use them |
| models.dfy | Models | `backend/models.py`: record shapes, defaults, the make-name set, request validation, the partial-update merge and `model_dump` |
| service.dfy | Service | `backend/service.py`: the validator, `validate_date`, and the create, get, update and register-make flows |
| db.dfy | Db | `backend/db.py` and `backend/exceptions.py`: the pool singleton, INSERT and UPDATE construction, row mapping, and the not-found rules |
| js_string.dfy | JsString | the JavaScript string operations the frontend uses: `trim`, `toLowerCase` and the regex replacements |
| bread_types.dfy | BreadTypes | `src/types/bread.ts`: the unit enum, record shapes and default constants |
| temperature.dfy | Temperature | `src/utils/temperature.ts` |
| bread_form.dfy | BreadForm | `src/hooks/useBreadForm.ts` |
| team_makes.dfy | TeamMakes | `src/hooks/useTeamMakes.ts` |
| bread_app.dfy | BreadApp | the logic of `src/BreadApp.tsx` |

### Behaviour of the code that the model makes explicit

1. **Backward steps after a midnight crossing.** The comment at backend/service.py:330-331 reads a step more than 12 hours earlier than its predecessor as the next day. The code compares each raw timestamp with the previous *adjusted* one, and it adds days cumulatively.
   - So once a day has been added, each later step is shifted by that day as well, and a small backward step then passes (`Service.AfterRolloverStepsPass`).
   - A step earlier than its predecessor by at most 12 hours fails only while no day has been added (`Service.ShortRegressionFails`).
2. **Equal timestamps.** The ordering check is non-strict (`>`), so equal adjacent timestamps pass (`Service.TimestampError`).
3. **The create flow's error.** Inside `create_make`, the `ValueError` from the validator is caught by the generic handler, so the client receives HTTP 500. The update flow turns the same error into HTTP 400.
4. **Reading back what was stored.** The row mapping turns a stored temperature of 0 into `None`, and it truncates fractional readings (`Db.TemperatureMapping`).
5. **No stored make is ever returned.** `get_dough_make` builds its `DoughMake` from the old `start_ts` and `pull_ts` columns, and passes no `mix_ts`, `bulk_ts` or `dough_temp`, all three required by `DoughMake`. Pydantic therefore rejects every matched row (`Db.FetchedNeverLoads`), and `get_make` answers 500.
6. **An empty update.** The `HTTPException(400)` for an update with no field is raised inside the `try`, so the generic handler turns it into a 500 whose detail wraps the 400 (`Service.UpdateMake`).
7. **No create or update reaches the database.** `insert_dough_make` reads `dough_make.start` (backend/db.py:64), which `DoughMake` does not declare, so every create that passes validation answers 500 with "'DoughMake' object has no attribute 'start'" and stores nothing (`Db.InsertMissesStart`, `Service.CreateMake`). `update_make` calls `update_dough_make` with keywords (`date`, `name`, `created_at`) that are not among its parameters (`make_date`, `make_name`, `make_num`), so the call raises `TypeError` and the update answers 500 (`Service.UpdateCallError`, `Service.UpdateMake`); that path is reached only past the lookup of item 5, which fails already.
8. **The frontend and the backend disagree on field names.** The form's payload carries `start_ts`, `pull_ts` and `temp_unit` and no `mix_ts` or `bulk_ts` (`BreadApp.PayloadOf`, `BreadForm.PrepareSubmission`), while the backend's request requires `mix_ts` and `bulk_ts` and reads the unit from `temperature_unit` (`Models.ParseRequest`).

## Model

| member | source | states |
|---|---|---|
| Text.Join | backend/db.py:73-74 | the joined text starts with the first part, and its length is the parts' total plus one separator between each pair of neighbours |
| Text.Repeat | backend/db.py:74 | `["%s"] * n` is n copies of the text |
| Text.CountChar | backend/db.py:73-75 | a character count never exceeds the text's length |
| Text.CountCharAppend | backend/db.py:74-75 | counting a character distributes over concatenation |
| Text.CountCharJoin | backend/db.py:74-75 | joining n parts that each hold one `%`, with a separator that holds none, gives exactly n `%` |
| Text.CountCharAbsent | backend/db.py:141 | a text without the character counts zero |
| Text.CountCharJoinNone | backend/db.py:141 | joining `%`-free parts with a `%`-free separator gives no `%` |
| Text.DigitChar | backend/db.py:76-80 | a digit value renders as a character in '0'..'9' |
| Text.NatToString | backend/db.py:76-80 | decimal rendering is made only of digits and is non-empty, with at most 2 digits below 100 and 4 below 10000 |
| Text.NatToStringValue | backend/db.py:109-110 | the decimal digits of n denote n, and only 0 starts with '0' |
| Text.IntToString | src/utils/temperature.ts:29 | an integer renders as a non-empty text |
| Text.IntToStringValue | src/utils/temperature.ts:29 | the text starts with '-' exactly for a negative number, and the digits after the sign denote its magnitude |
| Text.ZeroPad | backend/db.py:109-110 | zero padding reaches the width, exactly when the number is short enough, and keeps only digits |
| Text.ZerosValue | backend/db.py:109-110 | a run of zeros denotes 0 |
| Text.LeadingZerosValue | backend/db.py:109-110 | leading zeros do not change the number a digit string denotes |
| Text.ZeroPadValue | backend/db.py:109-110 | the padded digits still denote n |
| Models.MakeNames | backend/models.py:8-21 | `MAKE_NAMES` holds every enum value and nothing else: exactly {"demi-baguette","hoagie","ube","team"} |
| Models.MakeNamesCount | backend/models.py:8-21 | distinct enum members have distinct values, so the set has four elements |
| Models.TempUnitValue | backend/models.py:17-19 | the unit enum's value is "Fahrenheit" or "Celsius", and is "Celsius" exactly for Celsius |
| Models.ParseRequest | backend/models.py:49-70 | a request body validates iff all six timestamps are present, all five temperatures are present and integral, and neither the unit nor the folds is an explicit null. On success the fields carry over, an absent unit defaults to "Fahrenheit", absent folds default to [], and `created_at` and `notes` stay optional. A missing autolyse timestamp is reported first, a null unit is reported, and null folds are reported last |
| Models.TsEntries | backend/models.py:28-35 | the dumped timestamp entries are empty iff no timestamp field is set, with at most six entries, all timestamps |
| Models.TempEntries | backend/models.py:37-41 | the dumped temperature entries are empty iff no temperature is set, with at most five entries, all numbers |
| Models.OtherEntries | backend/models.py:42-46 | unit, folds and notes entries are empty iff none of them is set, and none is `None` |
| Models.UpdateData | backend/service.py:155 | `model_dump(exclude_none=True)` of an update is empty iff every field is unset, and holds no `None` value |
| Models.Merge | backend/service.py:162-167 | a merged make keeps the stored name, date and `created_at`. A failure names between one and five temperature fields, with `room_temp` first when its update is fractional |
| Models.MergeFields | backend/service.py:162-167 | `DoughMake(**{**existing, **update})` fails iff an update temperature is non-integral. Otherwise each of the fourteen update fields wins when set and keeps the stored value when not, and name, date and `created_at` are kept |
| Models.MergeNothing | backend/service.py:162-167 | merging an empty update gives back the existing make |
| Models.MergeIdempotent | backend/service.py:162-167 | merging the same update twice equals merging it once |
| Models.RequestDump | backend/service.py:120 | a request's `model_dump()` has 15 entries |
| Models.Dump | backend/service.py:170-175 | a make's `model_dump()` has 17 entries |
| Models.Keys | backend/db.py:73 | the key list is the entries' keys, in order |
| Models.FieldNamesDistinct | backend/models.py:49-74 | the 17 field names of `DoughMake` are pairwise distinct |
| Models.DumpKeys | backend/models.py:49-74 | the dump's keys are exactly the field names in declaration order, so no key repeats |
| Models.LookupItem | backend/service.py:167 | an entry whose key no earlier entry has is what the dictionary holds for that key |
| Models.LookupAbsent | backend/service.py:167 | a key no entry has is not in the dictionary |
| Models.LookupDistinct | backend/service.py:167 | in a dictionary with distinct keys, each entry is found under its key |
| Models.LoadFields | backend/models.py:49-74 | keyword arguments holding every field with a value of its own type build exactly that make |
| Models.LoadNeedsField | backend/models.py:49-74 | keyword arguments missing a required field build nothing |
| Models.DumpRoundTrip | backend/service.py:162-175 | reading a make's dump back with `DoughMake(**d)` gives the make that was dumped |
| Models.MakeArgumentsKeys | backend/service.py:117-120 | `name`, `date` and the request's dump name each field once |
| Models.MakeArgumentsLoad | backend/service.py:117-120 | those keyword arguments build exactly the request with the name and date added |
| Models.MakeFromRequest | backend/service.py:117-120 | `DoughMake(name=name, date=date, **req.model_dump())` is the request, unchanged, with that name and date |
| Service.DaysAt | backend/service.py:320-340 | the days added up to position i are at most i |
| Service.AdjustedAt | backend/service.py:336-340 | an adjusted timestamp is never earlier than the raw one, and the first is unchanged |
| Service.Adjusted | backend/service.py:319-344 | the adjusted list has the input's length, and position i holds the raw value plus the day offset at i |
| Service.DaysAtPrefix | backend/service.py:327-340 | the day offset at i depends only on the timestamps up to i |
| Service.AdjustShape | backend/service.py:319-342 | the first timestamp is unchanged, every later one shifts by whole days, and the offset at i is between 0 and i |
| Service.DaysMonotone | backend/service.py:332-335 | the day offset never decreases and grows by at most one per step |
| Service.AdjustForDayBoundaries | backend/service.py:319-344 | the loop's output equals `Adjusted(timestamps)` |
| Service.FirstDescentFrom | backend/service.py:355-357 | none iff the list is non-decreasing from k; otherwise the first index at or after k where it descends |
| Service.FirstDescentAt | backend/service.py:355-357 | the first descending pair after a non-decreasing run is the one reported |
| Service.Timestamps | backend/service.py:348-360 | the validator reads six timestamps in process order |
| Service.OrderMessage | backend/service.py:357 | the message starts with the earlier step's name and ends with the later step's name and " time" |
| Service.TimestampError | backend/service.py:346-359 | there is no error iff the adjusted timestamps are non-decreasing. An error names the first descending pair, after a non-decreasing prefix |
| Service.ValidateTimestamps | backend/service.py:346-359 | the index loop with its early exit produces exactly `TimestampError` of the six timestamps |
| Service.ValidationError | backend/service.py:313-360 | a make is rejected iff its adjusted timestamps are out of order |
| Service.ValidateDoughMake | backend/service.py:313-360 | `validate_dough_make` produces exactly the model's validation error of the make |
| Service.NoShiftWhileOrdered | backend/service.py:332-335 | while the raw timestamps are non-decreasing, no day is added |
| Service.OrderedInputUnchanged | backend/service.py:319-344 | non-decreasing input is returned unchanged by the adjustment |
| Service.OrderedInputValidates | backend/service.py:319-359 | non-decreasing input passes validation |
| Service.ShortRegressionFails | backend/service.py:332-357 | with no day added yet, a step earlier than the previous one by at most 12 h fails with that pair's message |
| Service.LongRegressionPasses | backend/service.py:332-340 | a step more than 12 h and at most 24 h earlier, with no day added before, gets one day and comes out in order |
| Service.AfterRolloverStepsPass | backend/service.py:327-340 | once a day has been added, a later step less than a day before its predecessor is in order after adjustment |
| Service.OvernightOutOfOrderPasses | backend/service.py:319-359 | a concrete overnight make with a backward fridge step passes |
| Service.DecemberOvernightValidates | backend/service.py:319-359 | a concrete overnight make with ordered absolute timestamps passes |
| Service.DecemberFridgeTooEarlyFails | backend/service.py:349-357 | a fridge step before final shape fails with the final shape/fridge message |
| Service.FridgeMessage | backend/service.py:349-357 | the last pair's message is "Final shape time must occur before Fridge time" |
| Service.DaysInMonth | backend/service.py:304-311 | every month has 28 to 31 days |
| Service.DaysBeforeMonth | backend/service.py:304-311 | the days before month m lie between 28(m-1) and 31(m-1), and the whole year has 365 or 366 |
| Service.DaysBeforeMonthBound | backend/service.py:304-311 | the days before any month never exceed the year's length |
| Service.IsValidDate | backend/service.py:304-311 | an accepted date's ordinal in its year lies between 1 and 365, or 366 in a leap year |
| Service.ValidateDate | backend/service.py:304-311 | a date is returned iff (y,m,d) is a proleptic Gregorian date in years 1..9999. Overflow happens exactly when a part does not fit a C int. Otherwise the error carries the triple |
| Service.LeapDay | backend/service.py:304-311 | 29 February is valid exactly in leap years, and 30 February never |
| Service.DigitCount | backend/service.py:185-189 | a number from 100 to 999 renders with three digits |
| Service.HttpText | backend/service.py:185-189 | `str(e)` of an `HTTPException` with a three-digit status is the status's digits, ": " and the detail |
| Service.StampCreatedAt | backend/service.py:114-115 | `created_at` is set to now only when absent, and nothing else changes |
| Service.InsertError | backend/db.py:64 | handed a `DoughMake`, the insert raises `AttributeError` "'DoughMake' object has no attribute 'start'" before reaching the database |
| Service.CreateMake | backend/service.py:109-137 | a bad date is raised uncaught. The insert is called iff the date is valid and the stamped make validates, and it is called with exactly that make. A validator error becomes HTTP 500 with its message; otherwise the insert's `AttributeError` on `start` becomes HTTP 500. No create succeeds |
| Service.GetMake | backend/service.py:208-237 | the fetched make is returned iff the date is valid, `created_at` parses and the read succeeds; a database error is a 400 |
| Service.UpdateCallError | backend/service.py:170-175 | the call's keywords `date`, `name`, `created_at`, `updates` do not bind to `update_dough_make(make_date, make_name, make_num, updates)`; it raises `TypeError` on `date` |
| Service.UpdateMake | backend/service.py:140-190 | a bad date or `created_at` fails before anything else. An empty update writes nothing and is a 500 "Unexpected error occurred: 400: No valid fields to update were provided", because the generic handler catches the 400. The `update_dough_make` call is made iff the merge succeeds and re-validates, and it is passed the merged make's dump. A validation failure is a 400. The call itself always raises `TypeError` on the keyword `date`, which becomes a 500 "Unexpected error occurred: …". No update succeeds |
| Service.CreateMakeForAccount | backend/service.py:82-105 | a lookup failure is a 500 and a key already registered is a 400, in both cases with no add. Otherwise the add is called with the account and the request's name and key, and its result is returned |
| Service.RegistrationKeepsKeysDistinct | backend/service.py:87-98 | registering only absent keys keeps an account's keys distinct |
| Db.DatabasePool.constructor | backend/db.py:17-23 | the pool's connection string is built from dbname and user, with sizes 2 and 10, open |
| Db.DatabasePool.Close | backend/db.py:44-45 | closing marks the pool closed and changes nothing else |
| Db.PoolRegistry.constructor | backend/db.py:15 | the registry starts without an instance |
| Db.PoolRegistry.GetInstance | backend/db.py:26-29 | the first call creates and stores a fresh pool, and every later call returns the stored one whatever its arguments |
| Db.GetInstanceTwice | backend/db.py:26-29 | two calls with any arguments return the same pool |
| Db.DBConnector.constructor | backend/db.py:47-52 | the connector's user is fixed and its pool is the registry's single instance |
| Db.Values | backend/db.py:75 | the value list is the entries' values, in order |
| Db.FirstUndeclared | backend/db.py:57-69 | the position found holds an undeclared name and every name before it is declared; none is found only when all are declared |
| Db.FirstUndeclaredAt | backend/db.py:57-69 | a position whose name is undeclared, after declared names only, is the one found |
| Db.InsertMissesStart | backend/db.py:57-69 | of the attributes the insert reads, the first that `DoughMake` does not declare is the seventh, `start` |
| Db.InsertItems | backend/db.py:57-70 | the insert dict has 12 entries, starting with dough name and make date |
| Db.OptionalItems | backend/db.py:59-68 | the ten optional columns |
| Db.DropNone | backend/db.py:72 | filtering keeps exactly the entries whose value is not `None`, and removes every `None` |
| Db.DropNoneAppend | backend/db.py:72 | filtering distributes over concatenation, so order is kept |
| Db.DropNoneKeepsValues | backend/db.py:72 | a list without `None` values is left as it is |
| Db.DropNoneIdempotent | backend/db.py:72 | filtering twice equals filtering once |
| Db.InsertDataHead | backend/db.py:57-72 | the always-present name and date lead the filtered insert data |
| Db.PlaceholderCount | backend/db.py:74 | the placeholder list for n columns holds exactly n `%s` |
| Db.InsertColumnsMatchValues | backend/db.py:73-80 | columns, placeholders and parameters have equal length, and column i pairs with parameter i as in the data |
| Db.InsertParams | backend/db.py:72-80 | no insert parameter is `None`, and the first two are the name and the date |
| Db.UpdateCommand | backend/db.py:141-153 | parameters are the update values in key order, followed by name, date and make number |
| Db.UpdatePlaceholdersMatch | backend/db.py:141 | the SET clause has one `%s` per update key when keys contain no `%` (`updated_at` takes none) |
| Db.InsertDoughMake | backend/db.py:55-89 | the insert sends the built command and commits iff the execution does not fail; a failure is reported |
| Db.UpdateDoughMake | backend/db.py:130-162 | the update sends the built command and commits iff no fault; a fault resurfaces as a `DatabaseError` |
| Db.DateText | backend/db.py:109-110 | a date in range renders as ten characters `YYYY-MM-DD`, digits except at the two dashes |
| Db.Truncate | backend/db.py:123-126 | `int()` truncates toward zero |
| Db.TruncateOrNone | backend/db.py:123-126 | a falsy temperature (absent or 0) maps to `None`, and any other is truncated |
| Db.MapRow | backend/db.py:114-127 | the row's name, date and step timestamps are copied, and its temperatures truncated with 0 mapped to `None` |
| Db.TemperatureMapping | backend/db.py:123-126 | a stored 0 comes back as `None`, and any other whole temperature as itself |
| Db.FetchedArguments | backend/db.py:114-127 | the keyword arguments built from a row carry no `mix_ts`, `bulk_ts` or `dough_temp` |
| Db.FetchedNeverLoads | backend/db.py:114-127 | no matched row builds a `DoughMake` |
| Db.GetDoughMake | backend/db.py:92-127 | never returns a make. A failed read is the unbound-variable error, no match raises the not-found `DatabaseError`, and a match fails pydantic's validation |
| Db.DeleteDoughMake | backend/db.py:165-185 | parameters are name, date and number. It commits iff the execution affects at least one row; zero rows raises without committing, and any failure resurfaces as a `DatabaseError` |
| Db.Matching | backend/db.py:181 | the rowcount is at most the table size |
| Db.Remove | backend/db.py:165-185 | deleting removes exactly the matching rows |
| Db.RemoveLeavesNone | backend/db.py:165-185 | after a delete no row matches |
| Db.DeleteTwice | backend/db.py:181-182 | deleting a present make commits, and deleting it again fails as not found |
| Db.MatchingPositive | backend/db.py:181 | a present make is matched at least once |
| JsString.LowerSpec | src/hooks/useTeamMakes.ts:62-74 | `toLowerCase` keeps the length, maps A–Z to a–z, fixes every other character, and keeps white space |
| JsString.TrimStart | src/hooks/useTeamMakes.ts:56-73 | trimming the start never lengthens |
| JsString.TrimStartSpec | src/hooks/useTeamMakes.ts:56-73 | the result is a suffix, starts with a non-space when non-empty, and only spaces were cut |
| JsString.TrimEnd | src/hooks/useTeamMakes.ts:56-73 | trimming the end never lengthens |
| JsString.TrimEndSpec | src/hooks/useTeamMakes.ts:56-73 | the result is a prefix, ends with a non-space when non-empty, and only spaces were cut |
| JsString.Trim | src/hooks/useTeamMakes.ts:56-73 | trimming never lengthens |
| JsString.TrimSpec | src/hooks/useTeamMakes.ts:56-59 | a non-empty trim starts and ends with non-space, and the trim is empty iff the text is all white space |
| JsString.TrimNoSpace | src/hooks/useTeamMakes.ts:73 | a text without white space trims to itself |
| JsString.ReplaceSpaceRuns | src/hooks/useTeamMakes.ts:62-74 | `replace(/\s+/g, c)` never lengthens |
| JsString.ReplaceSpaceRunsSpec | src/hooks/useTeamMakes.ts:62-74 | with a non-space replacement the result has no white space, and holds only the replacement or input characters |
| JsString.ReplaceSpaceRunsNoSpace | src/hooks/useTeamMakes.ts:62-74 | a text without white space is left as it is |
| JsString.ReplaceSpaceRunsBetween | src/hooks/useTeamMakes.ts:62-74 | one run of spaces between two space-free words becomes one replacement character |
| JsString.TrimStartAll | src/hooks/useTeamMakes.ts:62-74 | trimming a whole space run in front of a word leaves the word |
| JsString.PrefixNoSpace | src/hooks/useTeamMakes.ts:62-74 | a space-free prefix passes through the replacement unchanged |
| JsString.KeepKeyChars | src/hooks/useTeamMakes.ts:74 | `replace(/[^a-z0-9-]/g, '')` never lengthens |
| JsString.KeepKeyCharsSpec | src/hooks/useTeamMakes.ts:74 | only [a-z0-9-] remain, and a text made of them is unchanged |
| JsString.KeepWordSpaceDash | src/BreadApp.tsx:285-288 | `replace(/[^\w\s-]/g, '')` never lengthens |
| JsString.KeepWordSpaceDashSpec | src/BreadApp.tsx:285-288 | only word characters, white space and '-' that were in the input remain |
| JsString.KeepWordSpaceDashAll | src/BreadApp.tsx:285-288 | a text made only of those characters is unchanged |
| BreadTypes.UnitName | src/types/bread.ts:3-6 | the enum's value is "Celsius" exactly for Celsius and "Fahrenheit" exactly for Fahrenheit |
| BreadTypes.ParseUnit | src/types/bread.ts:3-6 | a parsed unit's name is the parsed text |
| BreadTypes.UnitNamesRoundTrip | src/types/bread.ts:3-6 | a unit's name parses back to it, and exactly "Celsius" and "Fahrenheit" parse |
| BreadTypes.SetTemperature | src/types/bread.ts:8-15 | setting a reading keeps the unit |
| BreadTypes.SetThenGetTemperature | src/types/bread.ts:8-15 | a set reading reads back, and the other four are unchanged |
| BreadTypes.DefaultKeysDistinct | src/types/bread.ts:80-84 | the default makes' keys are pairwise distinct and are exactly hoagie, demi and ube |
| Temperature.Round | src/utils/temperature.ts:14-18 | `Math.round` lies within half a unit, with halves rounded up |
| Temperature.RoundUnique | src/utils/temperature.ts:14-18 | only one integer lies within that half unit |
| Temperature.RoundMonotone | src/utils/temperature.ts:14-18 | rounding preserves order |
| Temperature.ConvertTemperature | src/utils/temperature.ts:6-22 | equal units leave the reading unchanged. A cross-unit result is a whole number within half a degree of the exact conversion |
| Temperature.ConvertMonotone | src/utils/temperature.ts:13-19 | for fixed units, conversion never reverses the order of readings |
| Temperature.RangeEndsCorrespond | src/utils/temperature.ts:14-39 | −50 °C ↔ −58 °F and 200 °C ↔ 392 °F exactly, both ways |
| Temperature.CelsiusRoundTrip | src/utils/temperature.ts:13-19 | a whole Celsius reading survives the trip to Fahrenheit and back |
| Temperature.FahrenheitRoundTripFails | src/utils/temperature.ts:13-19 | a whole Fahrenheit reading need not: 33 °F → 1 °C → 34 °F |
| Temperature.IsValidTemperature | src/utils/temperature.ts:35-41 | the Celsius range is the Fahrenheit range converted: a Celsius reading is in range iff its Fahrenheit value is |
| Temperature.ConvertKeepsValid | src/utils/temperature.ts:13-41 | an in-range reading stays in range when converted |
| Temperature.InitialSettingsValid | src/types/bread.ts:86-93 | the default readings are within the Fahrenheit range |
| Temperature.UnitAbbreviation | src/utils/temperature.ts:28 | the abbreviation is "°C" exactly for Celsius and "°F" otherwise |
| Temperature.FormatTemperature | src/utils/temperature.ts:27-30 | the formatted reading is its digits followed by the unit's abbreviation |
| Temperature.FormatShowsUnit | src/utils/temperature.ts:27-30 | equal formatted texts have the same unit |
| BreadForm.InitialProcesses | src/hooks/useBreadForm.ts:16-23 | the six steps are in order, all timed now |
| BreadForm.FindTime | src/hooks/useBreadForm.ts:208-213 | finding a step's time gives the time of a process with that step, or none when there is none |
| BreadForm.SetProcessTime | src/hooks/useBreadForm.ts:89-96 | length and steps are kept, matching steps get the new time, and other times are kept |
| BreadForm.HasStepTail | src/hooks/useBreadForm.ts:208-213 | a step not at the head is found iff it is in the tail |
| BreadForm.SetThenFindTime | src/hooks/useBreadForm.ts:89-96 | after setting, the step's time is found iff the step exists |
| BreadForm.SetKeepsOtherTimes | src/hooks/useBreadForm.ts:89-96 | other steps' found times are unchanged |
| BreadForm.MaxId | src/hooks/useBreadForm.ts:99 | `Math.max(...ids, 0)` is at least 0, bounds every id, and is 0 or some fold's id |
| BreadForm.AddStretchFold | src/hooks/useBreadForm.ts:98-107 | exactly one unperformed, untimed fold is appended, with id max+1, above every existing id |
| BreadForm.RemoveStretchFold | src/hooks/useBreadForm.ts:109-114 | exactly the folds with other ids are kept |
| BreadForm.RemoveStretchFoldAppend | src/hooks/useBreadForm.ts:109-114 | removal distributes over concatenation, so order is kept |
| BreadForm.RemoveAbsentId | src/hooks/useBreadForm.ts:109-114 | removing an id no fold has changes nothing |
| BreadForm.RemoveUndoesAdd | src/hooks/useBreadForm.ts:98-114 | removing the fold just added restores the list |
| BreadForm.MergeFold | src/hooks/useBreadForm.ts:119 | `{...sf, ...updates}` takes each set field from the update and keeps the rest |
| BreadForm.UpdateStretchFold | src/hooks/useBreadForm.ts:116-123 | length and order are kept, only folds with the id change, and they get the merge |
| BreadForm.UpdateStretchFoldLaws | src/hooks/useBreadForm.ts:116-123 | an empty update or an absent id changes nothing, and an update keeping the id is idempotent |
| BreadForm.ToggleTemperatures | src/hooks/useBreadForm.ts:67-87 | the current unit is a no-op. Otherwise the unit is set and all five readings are converted |
| BreadForm.ToggleCelsiusRoundTrip | src/hooks/useBreadForm.ts:67-87 | whole Celsius readings survive toggling to Fahrenheit and back |
| BreadForm.ToggleKeepsValid | src/hooks/useBreadForm.ts:67-87 | in-range readings stay in range after a toggle |
| BreadForm.ValidateForm | src/hooks/useBreadForm.ts:147-156 | a missing date is reported first, then an empty team make, and otherwise nothing |
| BreadForm.RenumberFolds | src/hooks/useBreadForm.ts:177-184 | loaded folds become ids 1..n in order, all performed, keeping their timestamps |
| BreadForm.PopulateForm | src/hooks/useBreadForm.ts:158-202 | the date and name are taken from the make, and the unit is Celsius iff `temp_unit` is 'Celsius'. Non-empty folds are renumbered 1..n and performed, absent or empty ones give the initial folds, and the six steps stay in order |
| BreadForm.SubmittedFolds | src/hooks/useBreadForm.ts:220-223 | only performed folds are sent, with fold number = id, and none are sent when none is performed |
| BreadForm.SubmittedFoldsAppend | src/hooks/useBreadForm.ts:220-223 | the fold filter distributes over concatenation, so order is kept |
| BreadForm.SubmittedFoldsAllPerformed | src/hooks/useBreadForm.ts:220-223 | when every fold is performed, all are sent in order |
| BreadForm.PrepareSubmission | src/hooks/useBreadForm.ts:204-226 | the payload's folds are the submitted folds and its unit is the enum value |
| BreadForm.PopulateThenPrepare | src/hooks/useBreadForm.ts:158-226 | loading a make and submitting sends back its times, its readings (missing ones as 0), its unit, its folds numbered 1..n, and its notes, with empty notes as null |
| BreadForm.FindTimeAt | src/hooks/useBreadForm.ts:208-213 | `find` reports the first process with the step |
| BreadForm.StepsDistinct | src/hooks/useBreadForm.ts:16-23 | the six step names are pairwise distinct |
| BreadForm.ProcessesFound | src/hooks/useBreadForm.ts:167-213 | each step of a loaded make is found with that make's time |
| BreadForm.BreadFormHook.constructor | src/hooks/useBreadForm.ts:25-39 | the hook starts with the initial form, not loading, with no error or success |
| BreadForm.BreadFormHook.HandleInputChange | src/hooks/useBreadForm.ts:41-47 | the named text field is set, and nothing else changes |
| BreadForm.BreadFormHook.HandleDateChange | src/hooks/useBreadForm.ts:49-54 | the date is set, and nothing else changes |
| BreadForm.BreadFormHook.HandleTemperatureChange | src/hooks/useBreadForm.ts:56-65 | the reading is set to the parsed number, or 0, and nothing else changes |
| BreadForm.BreadFormHook.ToggleTemperatureUnit | src/hooks/useBreadForm.ts:67-87 | the temperatures become their toggle, with no change for the current unit |
| BreadForm.BreadFormHook.HandleProcessTimeChange | src/hooks/useBreadForm.ts:89-96 | the processes become `SetProcessTime` of the old ones |
| BreadForm.BreadFormHook.AddFold | src/hooks/useBreadForm.ts:98-107 | the folds become `AddStretchFold` of the old ones |
| BreadForm.BreadFormHook.RemoveFold | src/hooks/useBreadForm.ts:109-114 | the folds become `RemoveStretchFold` of the old ones |
| BreadForm.BreadFormHook.UpdateFold | src/hooks/useBreadForm.ts:116-123 | the folds become `UpdateStretchFold` of the old ones |
| BreadForm.BreadFormHook.ResetForm | src/hooks/useBreadForm.ts:125-145 | the form is the initial one at the new time, and the error and success are cleared |
| BreadForm.BreadFormHook.PopulateFormWithDough | src/hooks/useBreadForm.ts:158-202 | the form becomes `PopulateForm` of the make |
| BreadForm.BreadFormHook.SubmitForm | src/hooks/useBreadForm.ts:228-253 | an invalid form sets the error and sends nothing. A valid form sends its data and then records success, or the thrown message |
| BreadForm.BreadFormHook.UpdateForm | src/hooks/useBreadForm.ts:255-295 | an invalid form sets the error and sends nothing. A valid one sends the update with the lower-cased name, then records success and the custom message, or the thrown message |
| TeamMakes.CheckKey | src/hooks/useTeamMakes.ts:62 | the duplicate-check key never lengthens the name |
| TeamMakes.CheckKeySpec | src/hooks/useTeamMakes.ts:62 | the duplicate-check key has no white space |
| TeamMakes.SubmitKey | src/hooks/useTeamMakes.ts:73-74 | the submitted key never lengthens the name |
| TeamMakes.SubmitKeySpec | src/hooks/useTeamMakes.ts:74 | the submitted key holds only [a-z0-9-] |
| TeamMakes.KeysAgreeOnPlainNames | src/hooks/useTeamMakes.ts:62-74 | a name already made of [a-z0-9-] is both its check key and its submitted key |
| TeamMakes.LowerConcat | src/hooks/useTeamMakes.ts:62-74 | lower-casing distributes over concatenation |
| TeamMakes.LowerWord | src/hooks/useTeamMakes.ts:62-74 | a lower-cased alphanumeric word stays a space-free key of the same length |
| TeamMakes.TwoWordKeys | src/hooks/useTeamMakes.ts:62-74 | for "a b", the check key is `a_b` and the submitted key is `a-b`, lower-cased |
| TeamMakes.DuplicateCheckMissesSubmittedKey | src/hooks/useTeamMakes.ts:62-74 | for every two-word name the keys differ, so a make holding the submitted key is not caught by the check |
| TeamMakes.CheckedAndSubmittedKeysDiffer | src/hooks/useTeamMakes.ts:62-74 | "Team Make" is checked as "team_make" but submitted as "team-make" |
| TeamMakes.FetchedMakes | src/hooks/useTeamMakes.ts:24-34 | a non-empty result replaces the list, and an empty result or an error gives the defaults |
| TeamMakes.CheckNewMake | src/hooks/useTeamMakes.ts:55-80 | blank iff all white space, and a similar-name error iff the check key exists. Otherwise the request is the trimmed name with the submitted key |
| TeamMakes.AddMake | src/hooks/useTeamMakes.ts:55-94 | a request is sent iff the check passes. The list grows by the created make exactly when one is created, the error is cleared exactly then, and the modal closes exactly then |
| TeamMakes.BlankNameRejected | src/hooks/useTeamMakes.ts:56-59 | a blank name only sets "Make name is required", with no request |
| TeamMakes.SimilarNameRejected | src/hooks/useTeamMakes.ts:62-67 | an existing check key only sets the similar-name error, with no request |
| TeamMakes.NewNameSent | src/hooks/useTeamMakes.ts:70-93 | otherwise a request is sent. On success the make is appended, earlier entries are kept, and the modal resets; on failure the message is shown |
| TeamMakes.TeamMakesHook.constructor | src/hooks/useTeamMakes.ts:6-11 | the hook starts with no makes, closed, with empty name and no error |
| TeamMakes.TeamMakesHook.FetchTeamMakes | src/hooks/useTeamMakes.ts:13-41 | the list becomes `FetchedMakes` of the result and loading stops, with nothing else changed |
| TeamMakes.TeamMakesHook.SetNewMakeName | src/hooks/useTeamMakes.ts:6-11 | only the name changes |
| TeamMakes.TeamMakesHook.OpenAddMakeModal | src/hooks/useTeamMakes.ts:43-47 | opens, clearing the name and the error |
| TeamMakes.TeamMakesHook.CloseAddMakeModal | src/hooks/useTeamMakes.ts:49-53 | closes, clearing the name and the error |
| TeamMakes.TeamMakesHook.HandleAddMake | src/hooks/useTeamMakes.ts:55-94 | the new state and the request are exactly `AddMake` of the old state |
| BreadApp.AppConvertTemperature | src/BreadApp.tsx:743-751 | identity for equal units, and otherwise a whole number within half a degree of the exact conversion |
| BreadApp.AppConvertAgrees | src/BreadApp.tsx:743-751 | the component's copy agrees with the utility on every input |
| BreadApp.InstantFields | src/BreadApp.tsx:431-439 | day, hour, minute and second are read back from their combination |
| BreadApp.DivMod | src/BreadApp.tsx:431-439 | quotient and remainder are unique |
| BreadApp.CombineDateTime | src/BreadApp.tsx:431-439 | null iff either input is null. Otherwise the date's day, the time's hour and minute, and second 0 |
| BreadApp.CombineDateTimeUnique | src/BreadApp.tsx:431-439 | that instant is the only one with those fields |
| BreadApp.InstantOf | src/BreadApp.tsx:431-439 | an instant is its day, hour, minute and second combined |
| BreadApp.CombineSameInstant | src/BreadApp.tsx:431-439 | combining an instant with itself drops its seconds |
| BreadApp.CheckFold | src/BreadApp.tsx:236-247 | other folds are unchanged. Checking keeps an existing time or sets now, and unchecking clears it |
| BreadApp.CheckFoldLaws | src/BreadApp.tsx:236-247 | checking twice equals checking once, and unchecking after checking equals unchecking |
| BreadApp.TimeChangeFold | src/BreadApp.tsx:250-259 | only the fold with the id gets the new time |
| BreadApp.TimeChangeLastWins | src/BreadApp.tsx:250-259 | of two time changes, the later one wins |
| BreadApp.PayloadFolds | src/BreadApp.tsx:373-378 | every sent fold comes from a performed, timed fold, and every performed, timed fold is sent |
| BreadApp.PayloadFoldsAppend | src/BreadApp.tsx:373-378 | the payload filter distributes over concatenation, so order is kept |
| BreadApp.UncheckRemovesFromPayload | src/BreadApp.tsx:373-378 | after unchecking a fold, no payload entry carries its id |
| BreadApp.CheckAddsToPayload | src/BreadApp.tsx:373-378 | after checking a fold, it is in the payload |
| BreadApp.CreateMakeKey | src/BreadApp.tsx:285-288 | the key never lengthens the name |
| BreadApp.CreateMakeKeySpec | src/BreadApp.tsx:285-288 | the key has no white space and holds only lower-case letters, digits, '_' and '-' |
| BreadApp.CreateMakeKeyAgreesOnTwoWords | src/BreadApp.tsx:285-288 | for two alphanumeric words the key equals the team-makes hook's submitted key |
| BreadApp.StepTs | src/BreadApp.tsx:383-388 | a step's time is sent iff the form has a date and the step a time, on the form's day, at whole minutes |
| BreadApp.PayloadOf | src/BreadApp.tsx:373-404 | without a date no step time is sent, the unit is "Celsius" exactly for Celsius, at most the form's folds are sent, and the notes are the form's |
| BreadApp.AppInitialFormData | src/BreadApp.tsx:91-105 | the component's first form is the form hook's first form with make 'Hoagie' and four unperformed folds |
| BreadApp.SetTimeAt | src/BreadApp.tsx:222-233 | the process at the index keeps its step and takes the new time, and every other process is unchanged |
| BreadApp.SetTimeAtIsByStep | src/BreadApp.tsx:222-233 | with distinct step names, setting by position equals the form hook's setting by step name |
| BreadApp.InitialMakeNotAKey | src/BreadApp.tsx:352-357 | the initial team make "Hoagie" is not a default key, so submitting the untouched form is rejected |
| BreadApp.InitialPayload | src/BreadApp.tsx:373-404 | the initial form's payload has no folds and unit "Fahrenheit" |
| BreadApp.FetchedMakes | src/BreadApp.tsx:121-169 | an ok response gives its list, even an empty one, and a failure gives the defaults |
| BreadApp.CreateErrorText | src/BreadApp.tsx:333-336 | a create error is non-empty and is the server's detail when one is given |
| BreadApp.BreadAppState.constructor | src/BreadApp.tsx:91-115 | the component starts with the initial form, no makes, and everything closed and cleared |
| BreadApp.BreadAppState.FetchTeamMakes | src/BreadApp.tsx:121-169 | the list becomes `FetchedMakes` of the response and loading stops, with nothing else changed |
| BreadApp.BreadAppState.ToggleTemperatureUnit | src/BreadApp.tsx:172-192 | the temperatures become their toggle, with no change for the current unit, and nothing else changes |
| BreadApp.BreadAppState.HandleInputChange | src/BreadApp.tsx:194-200 | the named text field is set, and nothing else changes |
| BreadApp.BreadAppState.HandleDateChange | src/BreadApp.tsx:202-207 | the date is set, and nothing else changes |
| BreadApp.BreadAppState.HandleTimeChange | src/BreadApp.tsx:222-233 | the processes become `SetTimeAt` of the old ones, and nothing else changes |
| BreadApp.BreadAppState.HandleStretchFoldCheck | src/BreadApp.tsx:236-247 | the folds become `CheckFold` of the old ones |
| BreadApp.BreadAppState.HandleStretchFoldTimeChange | src/BreadApp.tsx:250-259 | the folds become `TimeChangeFold` of the old ones |
| BreadApp.BreadAppState.AddNewDough | src/BreadApp.tsx:262-266 | opens the modal with an empty name and no error |
| BreadApp.BreadAppState.HandleModalClose | src/BreadApp.tsx:269-271 | only closes the modal |
| BreadApp.BreadAppState.SetNewMakeName | src/BreadApp.tsx:107-115 | only the name changes |
| BreadApp.BreadAppState.HandleCreateMake | src/BreadApp.tsx:274-343 | a blank name sets an error and sends nothing. Otherwise it sends the untrimmed name with `CreateMakeKey`. An ok response appends the make and selects its key; a failure shows the detail or the fixed error |
| BreadApp.BreadAppState.HandleSubmit | src/BreadApp.tsx:345-428 | a team make not among the keys is rejected with no request. Otherwise it sends date, key and payload, then records success, a server error or a failure |

## Left out

- I/O of every kind is represented only by the outcomes it produces: HTTP, the database connection, `fetch`, `localStorage` caching, the clock and logging.
- Authentication is left out: the OAuth stub `get_current_user` and routing/CORS (backend/service.py:45-71). `UserContext` is a record.
- The thin read and delete endpoints are left out because they only forward to the data layer: `get_makes_for_account` (backend/service.py:74-80), `get_makes_date` (backend/service.py:192-206) and `delete_make` (backend/service.py:240-259). The rules they rely on are modelled in `Db` and `Service.ValidateDate`.
- The recipe endpoint and the unimplemented endpoints (backend/service.py:263-302) are left out.
- psycopg internals are left out: the pool's `get_connection` context manager (backend/db.py:32-42), cursors and SQL execution. Query results and `rowcount` are inputs.
- The data layer keeps its own stale signatures (`make_num`; the attributes `start`, `pull` and `autolyse`), and `Db` models them as written on a record that has those attributes (`Db.DbDoughMake`). `Service` reaches neither statement: it models where the calls fail instead.
- Service.CreateMake: does not connect to `Db.InsertDoughMake`, because the insert raises on `dough_make.start` before it builds its statement; every valid create therefore answers 500 with "'DoughMake' object has no attribute 'start'", and the model states exactly that.
- Service.UpdateMake: does not connect to `Db.UpdateDoughMake`, because the call raises `TypeError` on its first keyword, `date`, before the data layer runs; the message is rendered in the form of Python 3.10 and later ("DBConnector.update_dough_make() got an unexpected keyword argument 'date'"). The path is behind `Service.GetMake`'s lookup, which already always fails (`Db.FetchedNeverLoads`).
- `datetime.fromisoformat` is an input: the parse of `created_at` is an `Option`.
- The backend's ISO text of a date, dayjs formatting, `toISOString`, `toLocaleString` and the year/month/day split of a dayjs value are left out, because they are date-library behaviour.
- `parseFloat` is an input: the parsed temperature is an `Option<real>`.
- Floating point is left out: temperatures are exact reals.
- `Temperature.FormatTemperature`: models only whole readings, because JavaScript's rendering of fractional numbers is not modelled.
- `JsString.LowerSpec`: `toLowerCase` maps only ASCII letters, because Unicode case mapping is not modelled.
- The unreachable final `return temp` of `convertTemperature` (src/utils/temperature.ts:21) has no counterpart, because two units leave no third case.
- `BreadApp` `handleTempChange` (src/BreadApp.tsx:209-220) is left out. For an empty input it stores the string '' in a numeric temperature, which the model's `TemperatureSettings` (numbers only) cannot hold; for a NaN input it leaves the state unchanged.
- `BreadApp.BreadAppState.HandleTimeChange`: requires an index inside the list. For any other index JavaScript would grow the array with an entry that has no step, which `DoughProcess` cannot hold; the component only passes the indices of the processes it renders.
- The `isStretchFoldsExpanded` toggle is left out because it is display state only.
- The rendering components, navigation, the date picker, the API client and `useSavedMakes` are left out because they hold no logic of their own.
- `Service.GetMake`: the fetched make is an input. In the program that input is never a make: the conversion of a matched row into `DoughMake` always fails (`Db.FetchedNeverLoads`), so `get_make`, and `update_make` through it, answer 500 for every stored make.
- `Models.Load`: accepts each field only as a value of its own type, as a dump produces it; pydantic's coercion of other JSON types is not modelled (the update's real temperatures are handled by `Models.Merge`), and its error list is reduced to a failure.
- `Models.ParseRequest`: an explicit null is distinguished only for `temperature_unit` and `stretch_folds`, the two fields with a non-`None` default; for required fields absence and null give the same error name, and for `Optional` fields both give `None`.
