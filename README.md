# whereisgodata import: a Dafny model

This project models the import logic of `internal/importdata/importdata.go`. Each
run of the import reads the transit agency's feeds and writes to two stores:

- a relational store with the `stations` and `trips` tables;
- a key/geo store with one position key per trip and the `locates` geo set.

The model covers the following, over abstract stores:

- **Classifiers.** `getStationType` is the reverse lookup in `stationTypeToString`,
  over any order in which Go may range over the map. `getBusType` maps a bus type
  string to 0 or 1.
- **Station flow (`updateAllStops`).** Each listed station whose detail fetch
  succeeds becomes one `CompleteStation`: code and name from the listing, type
  from `getStationType`, zone from `strconv.Atoi`, latitude and longitude from
  `ParseFloat`. Each record received from the workers queues one upsert. The
  batch is sent and its per-row results are tallied.
- **Trip flow (`updateBusLocations`).** The feed is walked in order:
  - a stationary trip is skipped;
  - a trip whose ModifiedDate, TripNumber, FirstStopCode or LastStopCode does not
    parse is skipped;
  - a PrevStopCode that does not parse becomes the sentinel -1;
  - every surviving trip queues one `trips` upsert, appends one member to
    `positions`, and, when its position encodes, sets its key for one hour.

  After the loop the batch is sent and tallied. Then `DEL locates` and
  `GEOADD locates` run, each failing or succeeding independently.
- **Store semantics.**
  - The `stations` upsert replaces every column of the row under its key.
  - The `trips` upsert inserts a new trip whole. For a known trip it changes only
    `prev_stop` and `delay`.
  - A batch applies exactly the rows the store accepts, in queue order.
  - `GEOADD` adds all its members or none.
- **`strconv.Atoi` as Go implements it for 64-bit `int`.** An optional sign and
  one or more ASCII digits are accepted. The digits are read left to right:
  - a number that exceeds 2^64 - 1 is a range error as soon as its digits
    overflow, even when a non-digit follows;
  - other text that is not a sign and digits is a syntax error, and the value
    is then 0;
  - a well-formed number outside the int64 range is a range error.

  On a range error the value is the int64 bound with the text's sign.

Modules, one file each:

| module | holds |
|---|---|
| `Wrappers` | `Option` |
| `Strconv` | `Atoi` and decimal formatting |
| `Classify` | the two classifiers |
| `Clock` | `estToUnix` |
| `Records` | the records the import reads and writes |
| `Stores` | the batch, the relational store and the key/geo store, as classes, with the upsert semantics and the tally loop |
| `Stations` | the station flow |
| `Trips` | the trip flow |

Behaviours of the code the model keeps:

- **ZoneCode.** It is not always zero when it fails to parse. `strconv.Atoi`
  returns the clamped bound on a range error, and line 194 keeps that value.
- **Trip timestamp.** Rows and positions carry `estToUnix` as written (lines
  356 and 370), with the day of month in the seconds place (see Findings). A
  time zone that fails to load gives the timestamp -1. The trip is not dropped
  (lines 252-257).
- **Trips conflict.** The `trips` upsert refreshes only `prev_stop` and `delay`
  on conflict (line 308). No other column is updated.
- **Batch.** The model treats the rows of a batch as independent: each row is
  drained and counted on its own (lines 154-164, 396-406).

## Model

| member | source | states |
|---|---|---|
| `Strconv.Atoi` | internal/importdata/importdata.go:322-344 | A syntax error exactly when the text is not an optional sign followed by one or more digits and its leading digits do not exceed 2^64 - 1. A parse exactly when the text is well formed and its value lies in int64, and then the value is the text's signed number. A range error otherwise, carrying the int64 bound with the text's sign. |
| `Strconv.AtoiValue` | internal/importdata/importdata.go:194 | The value `zoneCode, _ := strconv.Atoi(...)` keeps. It is always within int64. It is 0 on a syntax error, the signed number when the text parses, and the bound with the text's sign when the number is too large, including leading digits that overflow before a non-digit. |
| `Strconv.OverflowBeforeNonDigit` | internal/importdata/importdata.go:322-344 | A run of digits whose value exceeds 2^64 - 1, whatever follows it, is a range error clamped to the largest int64, for example "99999999999999999999x". |
| `Strconv.ScanDigits` | internal/importdata/importdata.go:322-344 | The digit scan stops with an overflow exactly when the text's leading digits exceed 2^64 - 1. It completes exactly when the whole text is digits within 2^64 - 1, and then yields their value. |
| `Strconv.AtoiFormatInt` | internal/importdata/importdata.go:322-344 | Round trip: every int64 written in decimal parses back to itself. |
| `Strconv.LettersAreNotNumbers` | internal/importdata/importdata.go:322-326 | A text starting with a lowercase letter is a syntax error, so it can never be a trip id. |
| `Classify.LookupInOrder` | internal/importdata/importdata.go:82-87 | Given any visiting order of the table's keys, the result is -1 exactly when no visited key's label equals the text. Otherwise it is a visited key whose label is the text. |
| `Classify.GetStationType` | internal/importdata/importdata.go:81-88 | -1 exactly when the text is not a label in the table. Otherwise the result is a station type whose label is the text. |
| `Classify.LookupOrderIndependent` | internal/importdata/importdata.go:81-88 | Every order in which `range` can visit the five keys gives the same answer. |
| `Classify.GetStationTypeLabels` | internal/importdata/importdata.go:73-88 | "Bus Stop", "Bus Terminal", "Park & Ride", "Train & Bus Station" and "Train Station" give 0 to 4, by exact case-sensitive match. Any other string gives -1. |
| `Classify.LabelRoundTrip` | internal/importdata/importdata.go:73-88 | Looking up a station type's own label gives that station type back. |
| `Classify.LabelsDistinct` | internal/importdata/importdata.go:73-79 | No two station types share a label. |
| `Classify.GetBusType` | internal/importdata/importdata.go:270-277 | 0 exactly when the string is "Coach". Otherwise 1. |
| `Clock.EstToUnixAsWritten` | internal/importdata/importdata.go:252-268 | estToUnix as written. A zone that fails to load gives -1. |
| `Clock.AsWrittenOffset` | internal/importdata/importdata.go:259-267 | As written, the result is off from the intended instant by (day of month - seconds) seconds. |
| `Clock.AsWrittenLosesSeconds` | internal/importdata/importdata.go:259-267 | As written, 2024-01-05 10:00:30 and 10:00:31 give the same timestamp, which is that of 10:00:05. |
| `Clock.EstToUnix` | internal/importdata/importdata.go:252-268 | estToUnix with every field in its place. A zone that fails to load gives -1. |
| `Clock.EstToUnixKeepsSeconds` | internal/importdata/importdata.go:252-268 | Two readings of the same minute are as many seconds apart as their seconds fields. |
| `Clock.EpochIsZero` | internal/importdata/importdata.go:259-267 | 1970-01-01 00:00:00 at offset zero is instant 0. |
| `Stores.UpsertStationRow` | internal/importdata/importdata.go:126-129 | The key set gains the row's location code. The row under that key becomes the new row whatever it held before. Every other key is unchanged. |
| `Stores.UpsertTripRow` | internal/importdata/importdata.go:305-308 | A new trip id is inserted whole. A known trip id gets the new prev_stop and delay and keeps its route, start and end time, bus type, first and last stop and timestamp. Other keys are unchanged. |
| `Stores.Outcomes` | internal/importdata/importdata.go:145 | One result per queued statement. It is an error exactly at the failing indices. |
| `Stores.Postgres.SendBatch` | internal/importdata/importdata.go:145 | One result per queued row. The tables afterwards are the old tables with exactly the rows that succeeded applied, in queue order. |
| `Stores.Batch.Queue` | internal/importdata/importdata.go:142 | The statement is appended after those already queued. |
| `Stores.FailuresAndSuccesses` | internal/importdata/importdata.go:154-164 | Every row is counted either as a failure or as a success. |
| `Stores.NoFailures` | internal/importdata/importdata.go:154-164 | A batch with no failing row reports all of its rows as inserted. |
| `Stores.CountErrors` | internal/importdata/importdata.go:154-164 | The tally loop, shared by both flows (also lines 396-406). It visits every row and counts the failures. It never aborts. The reported `batch.Len() - errorCount` equals the number of successful rows, and 0 <= errorCount <= batch.Len(). |
| `Stores.GeoNames` | internal/importdata/importdata.go:413 | Every member passed to GEOADD is named in the set, and every name in it comes from a member. |
| `Stores.Redis.Set` | internal/importdata/importdata.go:379 | The key holds the new value with the given lifetime. Other keys and `locates` are unchanged. |
| `Stores.Redis.DelLocates` | internal/importdata/importdata.go:408-411 | On success `locates` is empty. On failure it is unchanged. Keys are untouched. |
| `Stores.Redis.GeoAdd` | internal/importdata/importdata.go:413-416 | It fails when the store fails, when there is no member, or when any coordinate is out of bounds, and then adds nothing. Otherwise it adds every member's name. |
| `Stations.GetCompleteStation` | internal/importdata/importdata.go:191-204 | The record copies code and name from the listing and city from the details. Its type is `getStationType` of the listing type, within -1..4. Its zone is 0 on a syntax error, the number when it parses and the clamped bound on a range error. Latitude and longitude are the parsed values, and 0 when they do not parse. |
| `Stations.UnparsableLatitudeIsZero` | internal/importdata/importdata.go:192 | A latitude that does not parse still yields a record, with latitude 0. |
| `Stations.Produced` | internal/importdata/importdata.go:167-205 | The workers send at most one record per listed station. |
| `Stations.ProducedFromListing` | internal/importdata/importdata.go:167-205 | Every record sent is the enrichment of some listed station whose fetch succeeded. |
| `Stations.ProducedAllIffFetchedAll` | internal/importdata/importdata.go:172-189 | One record arrives per listed station exactly when every detail fetch succeeds. |
| `Stations.FanIn` | internal/importdata/importdata.go:110-131 | Whatever order the workers finish in, the aggregator receives at most one record per listed station. It receives all of them exactly when every fetch succeeded, and each record traces to its listing entry. |
| `Stations.StationUpserts` | internal/importdata/importdata.go:131-143 | One upsert per received record, in the order received, carrying that record. |
| `Stations.QueueStations` | internal/importdata/importdata.go:131-143 | After the aggregation loop the batch holds the upserts of the received records, in order, after what it held before. |
| `Stations.UpdateAllStops` | internal/importdata/importdata.go:125-164 | The tables afterwards are the old tables with the accepted station rows applied in order. The count reported is the number of accepted rows, between 0 and the number received. |
| `Stations.ApplyStationsOverride` | internal/importdata/importdata.go:126-129 | Writing station rows over a table overrides it key by key. The outcome does not depend on what else the table held. |
| `Stations.StationUpsertIdempotent` | internal/importdata/importdata.go:126-129 | Applying the same station rows twice leaves the table as applying them once. |
| `Stations.StationBatchAllOk` | internal/importdata/importdata.go:125-164 | A station batch with every row accepted replaces the `stations` table by the rows applied in order and leaves `trips` unchanged. |
| `Stations.StationRunIdempotent` | internal/importdata/importdata.go:125-164 | Re-running the station import on the same records, all accepted, changes nothing further. |
| `Trips.TransformTrip` | internal/importdata/importdata.go:311-314 | A trip that is not in motion is skipped. |
| `Trips.TransformTripSpec` | internal/importdata/importdata.go:311-357 | A trip is kept exactly when it is in motion and its ModifiedDate, TripNumber, FirstStopCode and LastStopCode all parse. A kept row carries the parsed ids, prev_stop as parsed or -1, route, start and end time, bus type, delay and the timestamp `estToUnix` gives as written. Its member is named by the raw TripNumber, and its position carries the same timestamp. |
| `Trips.KeptTimestampOffset` | internal/importdata/importdata.go:356-370 | With a loaded zone, the timestamp of a kept trip's row and of its position are equal, and off from the ModifiedDate's instant by (day of month - seconds) seconds. |
| `Trips.Transform` | internal/importdata/importdata.go:311-384 | The feed yields at most one survivor per trip. |
| `Trips.SurvivorsIsSubsequence` | internal/importdata/importdata.go:311-364 | The survivors are exactly the kept trips, each once, in feed order. |
| `Trips.TransformAppend` | internal/importdata/importdata.go:311-384 | The loop is a fold over the feed: the survivors of a concatenated feed are the concatenated survivors. |
| `Trips.TransformStep` | internal/importdata/importdata.go:311-384 | One more trip adds its kept part, if any, at the end. |
| `Trips.DroppedTripContributesNothing` | internal/importdata/importdata.go:312-344 | A skipped trip, wherever it is in the feed, contributes no row, no member and no key. |
| `Trips.PrevStopSentinel` | internal/importdata/importdata.go:334-338 | A well-formed moving trip with a non-numeric PrevStopCode is kept, with prev_stop = -1. |
| `Trips.LockStep` | internal/importdata/importdata.go:346-364 | The batch and `positions` have the same length. Row j and member j are the row and member of the same kept trip of the feed. That trip's index increases with j, and every kept trip has such an index. The member's name is that trip's TripNumber and parses to the row's trip id. |
| `Trips.KeptNameIsTripNumber` | internal/importdata/importdata.go:346-364 | A kept trip's member is named by its raw TripNumber, which parses to the row's trip id. |
| `Trips.SurvivorNames` | internal/importdata/importdata.go:360-364 | The names of the members are exactly the names of the kept trips. |
| `Trips.SnapshotNamesAreSurvivors` | internal/importdata/importdata.go:360-416 | A name is among those GEOADD writes exactly when some trip of the feed with that TripNumber is kept. |
| `Trips.PositionKeysAvoidLocates` | internal/importdata/importdata.go:379 | No position key is `locates`, because every kept TripNumber parses as an integer. |
| `Trips.WritePositionsSets` | internal/importdata/importdata.go:366-383 | Every kept trip whose position encodes has its key, with a one-hour lifetime. |
| `Trips.WritePositionsKeepsOthers` | internal/importdata/importdata.go:379 | A key that names no kept trip keeps its presence and value. |
| `Trips.Snapshot` | internal/importdata/importdata.go:408-416 | When DEL succeeds, no stale member survives. When both calls succeed and GEOADD accepts the members, `locates` is exactly their names. When DEL fails, the old members stay, and if GEOADD succeeds the new names are added to them. When GEOADD fails, nothing is added. |
| `Trips.QueueTrip` | internal/importdata/importdata.go:311-384 | One pass of the loop body. A kept trip queues its row, appends its member and, when its position encodes, sets its key. A skipped trip changes nothing. |
| `Trips.QueueTrips` | internal/importdata/importdata.go:310-386 | After the loop, the batch holds one upsert per surviving trip in feed order, `positions` holds their members in the same order, and the keys are the old keys with each surviving trip's key written. `locates` is unchanged. |
| `Trips.UpdateBusLocations` | internal/importdata/importdata.go:302-416 | The whole run. The tables get the accepted trip rows in order, and the reported count is the number accepted. The keys are as written by the loop, and `locates` is the snapshot of the surviving trips' names. |
| `Trips.OneMovingOneStopped` | internal/importdata/importdata.go:311-384 | A feed of one well-formed moving trip and one stationary trip gives exactly one row, and one member named by the moving trip, whose row carries its parsed trip id. The keys gain exactly the moving trip's key, with a one-hour lifetime, when its position encodes, and are unchanged when it does not. |

## Left out

- HTTP fetches and JSON decoding of the feeds (lines 91-106, 171-189, 281-300).
  - They are network I/O. A detail fetch is a parameter: `Some(details)` when it succeeded, `None` when it did not.
  - The missing `return` after a failed listing fetch (lines 93-95) is an I/O defect and is not modelled.
- Goroutines, the channel, the `sync.WaitGroup` and the rate limiter (lines 110-123, 167-169). The fan-in is a sequence of received records that is any permutation of what the workers produce (`Stations.FanIn`).
- `time.Parse`, `strconv.ParseFloat` and `json.Marshal` are opaque function parameters. `None` stands for their error.
  - ParseFloat's range error (±Inf) is not distinguished from a value.
  - The `float32` and `int32` conversions in `Position` happen inside the encoding parameter.
- `Clock.EstToUnix`: `time.LoadLocation("America/New_York")` is a fixed UTC offset, or `None` when loading fails. Daylight saving and the tz database are not modelled.
- The Redis pipeline itself (line 310) is not modelled:
  - a `SET` in it is applied as the loop reaches it, so the model assumes the pipeline succeeds; a pipeline that fails writes no key;
  - key expiry is not modelled, because it is wall-clock time.
- Which rows of a batch fail is a parameter (`failing`). The rows that fail leave the tables unchanged and the others are applied. A pgx batch runs in one implicit transaction, in which a failing row rolls the others back; the model does not capture this, so the count it logs can overstate what is stored. Constraint checks and connection loss are not modelled.
- The `results.Close()` deferred after each batch and all logging are not modelled, because they change no modelled state.
- `Records.Trip` omits LineCode, VariantDir, Display, NextStopCode and AtStationCode, because the code never reads them.
- `internal/db/db.go`, `internal/config/config.go`, `internal/limiter/limiter.go` and `cmd/whereisgodata/whereisgodata.go` are not part of this model. They hold client set-up, configuration, ticking and scheduling.

## Findings

| source | as written | input that shows it | evidently intended | confidence | as-written member | corrected member |
|---|---|---|---|---|---|---|
| internal/importdata/importdata.go:259-267 | `time.Date` gets `t.Day()` as its seconds argument and `t.Second()` as nanoseconds, which `Unix()` discards | 2024-01-05 10:00:30 and 2024-01-05 10:00:31 give the same timestamp, that of 10:00:05 (`Clock.AsWrittenLosesSeconds`) | every field in its place, so readings of the same minute differ by their seconds (`Clock.EstToUnixKeepsSeconds`); the corrected definition is proved here, while the trip flow keeps the as-written timestamp, as the code does (`Trips.KeptTimestampOffset`) | not executed | `Clock.EstToUnixAsWritten` | `Clock.EstToUnix` |
