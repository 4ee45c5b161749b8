/**
 * The two stores the import writes to, as the statements it emits make them
 * behave: the relational `stations` and `trips` tables, reached through one
 * batch of upserts per run, and the key/geo store holding one position key per
 * trip and the `locates` geo set.
 */
module Stores {
  import opened Records

  datatype Upsert = UpsertStation(station: CompleteStation) | UpsertTrip(trip: TripRow)

  /** The outcome `results.Exec()` reports for one queued statement. */
  datatype RowResult = RowOk | RowErr

  datatype Tables = Tables(stations: map<string, CompleteStation>, trips: map<int, TripRow>)

  /**
   * `INSERT INTO stations ... ON CONFLICT (location_code) DO UPDATE SET` every
   * other column: the row under the key becomes the new row, whatever was there.
   */
  function UpsertStationRow(t: map<string, CompleteStation>, s: CompleteStation): (r: map<string, CompleteStation>)
    ensures r.Keys == t.Keys + {s.locationCode}
    ensures r[s.locationCode] == s
    ensures forall k :: k in t && k != s.locationCode ==> r[k] == t[k]
  {
    t[s.locationCode := s]
  }

  /**
   * `INSERT INTO trips ... ON CONFLICT (trip_id) DO UPDATE SET prev_stop, delay`:
   * a new trip is inserted whole; a known trip keeps every column but those two.
   */
  function UpsertTripRow(t: map<int, TripRow>, row: TripRow): (r: map<int, TripRow>)
    ensures r.Keys == t.Keys + {row.tripId}
    ensures forall k :: k in t && k != row.tripId ==> r[k] == t[k]
    ensures row.tripId !in t ==> r[row.tripId] == row
    ensures row.tripId in t ==>
      var before, after := t[row.tripId], r[row.tripId];
      && after.prevStop == row.prevStop && after.delay == row.delay
      && after.tripId == before.tripId && after.routeNumber == before.routeNumber
      && after.startTime == before.startTime && after.endTime == before.endTime
      && after.busType == before.busType && after.firstStop == before.firstStop
      && after.lastStop == before.lastStop && after.timestamp == before.timestamp
  {
    if row.tripId in t then t[row.tripId := t[row.tripId].(prevStop := row.prevStop, delay := row.delay)]
    else t[row.tripId := row]
  }

  function ApplyUpsert(db: Tables, u: Upsert): Tables
  {
    match u
    case UpsertStation(s) => db.(stations := UpsertStationRow(db.stations, s))
    case UpsertTrip(row) => db.(trips := UpsertTripRow(db.trips, row))
  }

  /** The tables after a batch: each statement that succeeded takes effect, in queue order. */
  function ApplyBatch(db: Tables, queued: seq<Upsert>, results: seq<RowResult>): Tables
    requires |results| == |queued|
  {
    if queued == [] then db
    else
      var n := |queued| - 1;
      var before := ApplyBatch(db, queued[..n], results[..n]);
      if results[n] == RowOk then ApplyUpsert(before, queued[n]) else before
  }

  /** The per-row outcomes of a batch of `n` statements of which those at `failing` fail. */
  function Outcomes(n: nat, failing: set<nat>): (r: seq<RowResult>)
    ensures |r| == n
    ensures forall i :: 0 <= i < n ==> (r[i] == RowErr <==> i in failing)
  {
    seq(n, i requires 0 <= i < n => if i in failing then RowErr else RowOk)
  }

  function Failures(results: seq<RowResult>): nat
  {
    if results == [] then 0
    else Failures(results[..|results| - 1]) + (if results[|results| - 1] == RowErr then 1 else 0)
  }

  function Successes(results: seq<RowResult>): nat
  {
    if results == [] then 0
    else Successes(results[..|results| - 1]) + (if results[|results| - 1] == RowOk then 1 else 0)
  }

  /** Every row either failed or succeeded. */
  lemma {:induction false} FailuresAndSuccesses(results: seq<RowResult>)
    ensures Failures(results) + Successes(results) == |results|
  {
    if results != [] {
      FailuresAndSuccesses(results[..|results| - 1]);
    }
  }

  /** No failing index, no failure. */
  lemma {:induction false} NoFailures(n: nat)
    ensures Failures(Outcomes(n, {})) == 0 && Successes(Outcomes(n, {})) == n
  {
    if n > 0 {
      assert Outcomes(n, {})[..n - 1] == Outcomes(n - 1, {});
      NoFailures(n - 1);
    }
  }

  /**
   * The tally after `SendBatch`: every index of the batch is visited, a failing
   * row is counted and skipped, and the figure reported is `batch.Len() - errorCount`.
   */
  method CountErrors(results: seq<RowResult>) returns (errorCount: nat, inserted: int)
    ensures errorCount == Failures(results) && errorCount <= |results|
    ensures inserted == |results| - errorCount == Successes(results)
  {
    errorCount := 0;
    for i := 0 to |results|
      invariant errorCount == Failures(results[..i])
    {
      assert results[..i + 1][..i] == results[..i];
      if results[i] == RowErr {
        errorCount := errorCount + 1;
      }
    }
    assert results[..|results|] == results;
    FailuresAndSuccesses(results);
    inserted := |results| - errorCount;
  }

  /** A `pgx.Batch`: the statements queued so far, in order. */
  class Batch {
    var queued: seq<Upsert>

    constructor ()
      ensures queued == []
    {
      queued := [];
    }

    function Len(): nat
      reads this
    {
      |queued|
    }

    method Queue(u: Upsert)
      modifies this
      ensures queued == old(queued) + [u]
    {
      queued := queued + [u];
    }
  }

  /** The relational store. */
  class Postgres {
    var stations: map<string, CompleteStation>
    var trips: map<int, TripRow>

    constructor (stations: map<string, CompleteStation>, trips: map<int, TripRow>)
      ensures this.stations == stations && this.trips == trips
    {
      this.stations := stations;
      this.trips := trips;
    }

    function Contents(): Tables
      reads this
    {
      Tables(stations, trips)
    }

    /**
     * `pg.Db.SendBatch`: one round trip; the store decides which rows fail
     * (`failing`, by queue index) and reports one outcome per queued statement.
     */
    method SendBatch(batch: Batch, failing: set<nat>) returns (results: seq<RowResult>)
      modifies this
      ensures results == Outcomes(|batch.queued|, failing)
      ensures Contents() == ApplyBatch(old(Contents()), batch.queued, results)
    {
      results := Outcomes(|batch.queued|, failing);
      var after := ApplyBatch(Contents(), batch.queued, results);
      stations, trips := after.stations, after.trips;
    }
  }

  /** The time to live of a trip's position key: one hour. */
  const PositionTtlSeconds: int := 3600

  datatype KeyEntry = KeyEntry(value: string, ttlSeconds: int)

  /** The bounds GEOADD accepts; a pair outside them fails the whole command. */
  predicate ValidCoordinates(g: GeoLocation)
  {
    -180.0 <= g.longitude <= 180.0 && -85.05112878 <= g.latitude <= 85.05112878
  }

  /** GEOADD with no member is an arity error; with any pair out of bounds, a value error. */
  predicate GeoAddAccepted(positions: seq<GeoLocation>)
  {
    |positions| > 0 && forall i :: 0 <= i < |positions| ==> ValidCoordinates(positions[i])
  }

  function GeoNames(positions: seq<GeoLocation>): (names: set<string>)
    ensures forall i :: 0 <= i < |positions| ==> positions[i].name in names
    ensures forall n :: n in names ==> exists i :: 0 <= i < |positions| && positions[i].name == n
  {
    set g | g in positions :: g.name
  }

  /** A name in the geo set belongs to one of the positions written. */
  lemma GeoNameWitness(positions: seq<GeoLocation>, name: string) returns (i: nat)
    requires name in GeoNames(positions)
    ensures i < |positions| && positions[i].name == name
  {
    i :| 0 <= i < |positions| && positions[i].name == name;
  }

  /** The key/geo store: string keys with a time to live, and the `locates` geo set (its member names). */
  class Redis {
    var keys: map<string, KeyEntry>
    var locates: set<string>

    constructor (keys: map<string, KeyEntry>, locates: set<string>)
      ensures this.keys == keys && this.locates == locates
    {
      this.keys := keys;
      this.locates := locates;
    }

    /** `SET key value EX ttl`. */
    method Set(key: string, value: string, ttlSeconds: int)
      modifies this
      ensures keys == old(keys)[key := KeyEntry(value, ttlSeconds)]
      ensures locates == old(locates)
    {
      keys := keys[key := KeyEntry(value, ttlSeconds)];
    }

    /** `DEL locates`; `fails` is a failure of the store or the connection. */
    method DelLocates(fails: bool) returns (err: bool)
      modifies this
      ensures err == fails
      ensures keys == old(keys)
      ensures locates == if fails then old(locates) else {}
    {
      err := fails;
      if !fails {
        locates := {};
      }
    }

    /** `GEOADD locates lng lat name ...`: all the members are added, or none. */
    method GeoAdd(positions: seq<GeoLocation>, fails: bool) returns (err: bool)
      modifies this
      ensures err == (fails || !GeoAddAccepted(positions))
      ensures keys == old(keys)
      ensures locates == if err then old(locates) else old(locates) + GeoNames(positions)
    {
      err := fails || !GeoAddAccepted(positions);
      if !err {
        locates := locates + GeoNames(positions);
      }
    }
  }
}
