/**
 * updateAllStops: one detail worker per listed station, the fan-in of the
 * completed records, one `stations` upsert per record received, one batch.
 */
module Stations {
  import opened Wrappers
  import opened Strconv
  import opened Classify
  import opened Records
  import opened Stores

  /**
   * The record a worker sends once its detail fetch has succeeded.
   * `parseFloat` is `strconv.ParseFloat(_, 64)`: `None` where it reports an error.
   */
  function GetCompleteStation(station: Station, details: StopDetails, parseFloat: string -> Option<real>): (c: CompleteStation)
    ensures c.locationCode == station.locationCode && c.stationName == station.locationName
    ensures c.city == details.city
    ensures c.stationType == GetStationType(station.locationType)
    ensures -1 <= c.stationType <= 4
    ensures Atoi(details.zoneCode).SyntaxError? ==> c.zoneCode == 0
    ensures InRange(details.zoneCode) ==> c.zoneCode == SignedValue(details.zoneCode)
    ensures Atoi(details.zoneCode).RangeError? ==> c.zoneCode == Atoi(details.zoneCode).clamped
    ensures parseFloat(details.latitude).None? ==> c.lat == 0.0
    ensures parseFloat(details.latitude).Some? ==> c.lat == parseFloat(details.latitude).value
    ensures parseFloat(details.longitude).None? ==> c.lng == 0.0
    ensures parseFloat(details.longitude).Some? ==> c.lng == parseFloat(details.longitude).value
  {
    var lat := match parseFloat(details.latitude) case Some(x) => x case None => 0.0;
    var lng := match parseFloat(details.longitude) case Some(x) => x case None => 0.0;
    CompleteStation(
      station.locationCode,
      station.locationName,
      GetStationType(station.locationType),
      lat,
      lng,
      details.city,
      AtoiValue(details.zoneCode))
  }

  /**
   * The records the workers send, in listing order: worker `i` sends one record
   * when its fetch `fetched[i]` succeeded and none when it failed (HTTP, read or
   * decode error).
   */
  function Produced(listing: seq<Station>, fetched: seq<Option<StopDetails>>, parseFloat: string -> Option<real>): (out: seq<CompleteStation>)
    requires |fetched| == |listing|
    ensures |out| <= |listing|
  {
    if listing == [] then []
    else
      var n := |listing| - 1;
      var before := Produced(listing[..n], fetched[..n], parseFloat);
      match fetched[n]
      case Some(d) => before + [GetCompleteStation(listing[n], d, parseFloat)]
      case None => before
  }

  /** Every record produced comes from a listed station whose fetch succeeded. */
  lemma {:induction false} ProducedFromListing(listing: seq<Station>, fetched: seq<Option<StopDetails>>, parseFloat: string -> Option<real>, c: CompleteStation)
    requires |fetched| == |listing|
    requires c in Produced(listing, fetched, parseFloat)
    ensures exists i :: (0 <= i < |listing| && fetched[i].Some?
                         && c == GetCompleteStation(listing[i], fetched[i].value, parseFloat))
  {
    var n := |listing| - 1;
    var before := Produced(listing[..n], fetched[..n], parseFloat);
    if c in before {
      ProducedFromListing(listing[..n], fetched[..n], parseFloat, c);
      var i :| 0 <= i < n && fetched[..n][i].Some?
        && c == GetCompleteStation(listing[..n][i], fetched[..n][i].value, parseFloat);
      assert listing[..n][i] == listing[i] && fetched[..n][i] == fetched[i];
    } else {
      assert fetched[n].Some? && c == GetCompleteStation(listing[n], fetched[n].value, parseFloat);
    }
  }

  /** How many of the detail fetches succeeded. */
  function Fetched(fetched: seq<Option<StopDetails>>): nat
  {
    if fetched == [] then 0
    else Fetched(fetched[..|fetched| - 1]) + (if fetched[|fetched| - 1].Some? then 1 else 0)
  }

  lemma {:induction false} FetchedAllIff(fetched: seq<Option<StopDetails>>)
    ensures Fetched(fetched) <= |fetched|
    ensures Fetched(fetched) == |fetched| <==> forall i :: 0 <= i < |fetched| ==> fetched[i].Some?
  {
    if fetched != [] {
      var n := |fetched| - 1;
      FetchedAllIff(fetched[..n]);
      assert forall i :: 0 <= i < n ==> fetched[..n][i] == fetched[i];
    }
  }

  lemma {:induction false} ProducedLength(listing: seq<Station>, fetched: seq<Option<StopDetails>>, parseFloat: string -> Option<real>)
    requires |fetched| == |listing|
    ensures |Produced(listing, fetched, parseFloat)| == Fetched(fetched)
  {
    if listing != [] {
      var n := |listing| - 1;
      ProducedLength(listing[..n], fetched[..n], parseFloat);
    }
  }

  /** The fan-in loses a record exactly when a fetch fails. */
  lemma ProducedAllIffFetchedAll(listing: seq<Station>, fetched: seq<Option<StopDetails>>, parseFloat: string -> Option<real>)
    requires |fetched| == |listing|
    ensures |Produced(listing, fetched, parseFloat)| == |listing| <==> forall i :: 0 <= i < |listing| ==> fetched[i].Some?
  {
    ProducedLength(listing, fetched, parseFloat);
    FetchedAllIff(fetched);
  }

  /**
   * The aggregator sees the produced records in whatever order the workers
   * finish: at most one per listed station, each traceable to its listing entry.
   */
  lemma FanIn(listing: seq<Station>, fetched: seq<Option<StopDetails>>, parseFloat: string -> Option<real>, received: seq<CompleteStation>)
    requires |fetched| == |listing|
    requires multiset(received) == multiset(Produced(listing, fetched, parseFloat))
    ensures |received| <= |listing|
    ensures |received| == |listing| <==> forall i :: 0 <= i < |listing| ==> fetched[i].Some?
    ensures forall c :: c in received ==> exists i :: (0 <= i < |listing| && fetched[i].Some?
                                                       && c == GetCompleteStation(listing[i], fetched[i].value, parseFloat))
  {
    var produced := Produced(listing, fetched, parseFloat);
    assert |received| == |multiset(received)| == |multiset(produced)| == |produced|;
    ProducedAllIffFetchedAll(listing, fetched, parseFloat);
    forall c | c in received
      ensures exists i :: (0 <= i < |listing| && fetched[i].Some?
                           && c == GetCompleteStation(listing[i], fetched[i].value, parseFloat))
    {
      assert c in multiset(received);
      ProducedFromListing(listing, fetched, parseFloat, c);
    }
  }

  function StationUpserts(received: seq<CompleteStation>): (us: seq<Upsert>)
    ensures |us| == |received|
    ensures forall i :: 0 <= i < |received| ==> us[i] == UpsertStation(received[i])
  {
    seq(|received|, i requires 0 <= i < |received| => UpsertStation(received[i]))
  }

  /** The aggregation loop: one upsert per received record, in the order received. */
  method QueueStations(batch: Batch, received: seq<CompleteStation>)
    modifies batch
    ensures batch.queued == old(batch.queued) + StationUpserts(received)
  {
    for i := 0 to |received|
      invariant batch.queued == old(batch.queued) + StationUpserts(received[..i])
    {
      assert StationUpserts(received[..i + 1]) == StationUpserts(received[..i]) + [UpsertStation(received[i])];
      batch.Queue(UpsertStation(received[i]));
    }
    assert received[..|received|] == received;
  }

  /**
   * updateAllStops after the fan-in: queue, send, tally. `failing` names the rows
   * the store rejects; the result is the count it reports as inserted.
   */
  method UpdateAllStops(pg: Postgres, received: seq<CompleteStation>, failing: set<nat>) returns (inserted: int)
    modifies pg
    ensures pg.Contents() == ApplyBatch(old(pg.Contents()), StationUpserts(received), Outcomes(|received|, failing))
    ensures inserted == Successes(Outcomes(|received|, failing))
    ensures 0 <= inserted <= |received|
  {
    var batch := new Batch();
    QueueStations(batch, received);
    assert batch.queued == StationUpserts(received);
    var results := pg.SendBatch(batch, failing);
    var errorCount;
    errorCount, inserted := CountErrors(results);
    assert inserted == batch.Len() - errorCount;
  }

  /** The `stations` table after applying rows one by one, each replacing the row under its key. */
  function ApplyStations(t: map<string, CompleteStation>, rows: seq<CompleteStation>): map<string, CompleteStation>
  {
    if rows == [] then t
    else UpsertStationRow(ApplyStations(t, rows[..|rows| - 1]), rows[|rows| - 1])
  }

  /** Rows written on top of a table override it, key by key, whatever else it held. */
  lemma {:induction false} ApplyStationsOverride(t: map<string, CompleteStation>, m: map<string, CompleteStation>, rows: seq<CompleteStation>)
    ensures ApplyStations(t + m, rows) == t + ApplyStations(m, rows)
  {
    if rows != [] {
      var n := |rows| - 1;
      ApplyStationsOverride(t, m, rows[..n]);
      var s := rows[n];
      var inner := ApplyStations(m, rows[..n]);
      assert (t + inner)[s.locationCode := s] == t + inner[s.locationCode := s];
    }
  }

  /** Running the stations upsert twice with the same records leaves the table as one run did. */
  lemma StationUpsertIdempotent(t: map<string, CompleteStation>, rows: seq<CompleteStation>)
    ensures ApplyStations(ApplyStations(t, rows), rows) == ApplyStations(t, rows)
  {
    var w := ApplyStations(map[], rows);
    ApplyStationsOverride(t, map[], rows);
    assert t + map[] == t;
    ApplyStationsOverride(t + w, map[], rows);
    assert (t + w) + map[] == t + w;
    assert (t + w) + w == t + w;
  }

  /** A station batch whose rows all succeed does exactly `ApplyStations` to the table, and leaves `trips` alone. */
  lemma {:induction false} StationBatchAllOk(db: Tables, rows: seq<CompleteStation>)
    ensures ApplyBatch(db, StationUpserts(rows), Outcomes(|rows|, {}))
      == db.(stations := ApplyStations(db.stations, rows))
  {
    if rows != [] {
      var n := |rows| - 1;
      assert StationUpserts(rows)[..n] == StationUpserts(rows[..n]);
      assert Outcomes(|rows|, {})[..n] == Outcomes(n, {});
      StationBatchAllOk(db, rows[..n]);
    }
  }

  /** Re-running updateAllStops on the same records, all accepted, changes nothing further. */
  lemma StationRunIdempotent(db: Tables, rows: seq<CompleteStation>)
    ensures var once := ApplyBatch(db, StationUpserts(rows), Outcomes(|rows|, {}));
      ApplyBatch(once, StationUpserts(rows), Outcomes(|rows|, {})) == once
  {
    var once := ApplyBatch(db, StationUpserts(rows), Outcomes(|rows|, {}));
    StationBatchAllOk(db, rows);
    StationBatchAllOk(once, rows);
    StationUpsertIdempotent(db.stations, rows);
  }

  /** A station whose latitude reads `N/A` is still sent, with latitude zero. */
  lemma UnparsableLatitudeIsZero(station: Station, details: StopDetails, parseFloat: string -> Option<real>)
    requires parseFloat(details.latitude).None?
    ensures GetCompleteStation(station, details, parseFloat).lat == 0.0
    ensures Produced([station], [Some(details)], parseFloat) == [GetCompleteStation(station, details, parseFloat)]
  {
    assert [station][..0] == [];
  }
}
