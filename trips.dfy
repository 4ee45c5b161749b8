/**
 * updateBusLocations: the in-motion trips of the feed become `trips` upserts,
 * members of the `locates` geo set and position keys with a one-hour lifetime.
 */
module Trips {
  import opened Wrappers
  import opened Strconv
  import opened Classify
  import opened Clock
  import opened Records
  import opened Stores

  /** The prev_stop recorded for a trip whose PrevStopCode is not a number. */
  const NoPrevStop: int := -1

  /** The key of the geo set; it lives in the same keyspace as the position keys. */
  const LocatesKey: string := "locates"

  /** Why a trip was skipped (the message the source logs, if any). */
  datatype Dropped = NotInMotion | BadModifiedDate | BadTripNumber | BadFirstStop | BadLastStop

  /** What one surviving trip contributes: its upsert row, its geo member and its position blob. */
  datatype Kept = Kept(row: TripRow, geo: GeoLocation, pos: Position)

  datatype TripOutcome = Drop(reason: Dropped) | Keep(kept: Kept)

  /**
   * One pass of the loop body. `parseTime` is `time.Parse("2006-01-02 15:04:05", _)`,
   * `None` where it reports an error; `zone` is the location estToUnix loads.
   */
  function TransformTrip(trip: Trip, parseTime: string -> Option<DateTime>, zone: Option<Zone>): (o: TripOutcome)
    ensures !trip.isInMotion ==> o == Drop(NotInMotion)
  {
    if !trip.isInMotion then Drop(NotInMotion)
    else if parseTime(trip.modifiedDate).None? then Drop(BadModifiedDate)
    else if !Atoi(trip.tripNumber).Parsed? then Drop(BadTripNumber)
    else if !Atoi(trip.firstStopCode).Parsed? then Drop(BadFirstStop)
    else if !Atoi(trip.lastStopCode).Parsed? then Drop(BadLastStop)
    else
      var prevStop := if Atoi(trip.prevStopCode).Parsed? then Atoi(trip.prevStopCode).value else NoPrevStop;
      var timestamp := EstToUnixAsWritten(parseTime(trip.modifiedDate).value, zone);
      var row := TripRow(
        Atoi(trip.tripNumber).value,
        trip.routeNumber,
        trip.startTime,
        trip.endTime,
        GetBusType(trip.busType),
        Atoi(trip.firstStopCode).value,
        prevStop,
        Atoi(trip.lastStopCode).value,
        trip.delaySeconds,
        timestamp);
      Keep(Kept(row, GeoLocation(trip.tripNumber, trip.latitude, trip.longitude),
                Position(trip.latitude, trip.longitude, trip.course, timestamp)))
  }

  /**
   * The rules of the loop body: a stationary trip, an unparsable ModifiedDate,
   * TripNumber, FirstStopCode or LastStopCode drops the trip; an unparsable
   * PrevStopCode only puts the sentinel in prev_stop.
   */
  lemma TransformTripSpec(trip: Trip, parseTime: string -> Option<DateTime>, zone: Option<Zone>)
    ensures TransformTrip(trip, parseTime, zone).Keep? <==>
      && trip.isInMotion
      && parseTime(trip.modifiedDate).Some?
      && Atoi(trip.tripNumber).Parsed?
      && Atoi(trip.firstStopCode).Parsed?
      && Atoi(trip.lastStopCode).Parsed?
    ensures TransformTrip(trip, parseTime, zone).Keep? ==>
      var row := TransformTrip(trip, parseTime, zone).kept.row;
      && row.tripId == Atoi(trip.tripNumber).value
      && row.firstStop == Atoi(trip.firstStopCode).value
      && row.lastStop == Atoi(trip.lastStopCode).value
      && row.prevStop == (if Atoi(trip.prevStopCode).Parsed? then Atoi(trip.prevStopCode).value else NoPrevStop)
      && row.routeNumber == trip.routeNumber && row.startTime == trip.startTime && row.endTime == trip.endTime
      && row.busType == GetBusType(trip.busType)
      && row.delay == trip.delaySeconds
      && row.timestamp == EstToUnixAsWritten(parseTime(trip.modifiedDate).value, zone)
    ensures TransformTrip(trip, parseTime, zone).Keep? ==> TransformTrip(trip, parseTime, zone).kept.geo == GeoLocation(trip.tripNumber, trip.latitude, trip.longitude)
    ensures TransformTrip(trip, parseTime, zone).Keep? ==> TransformTrip(trip, parseTime, zone).kept.pos == Position(trip.latitude, trip.longitude, trip.course, TransformTrip(trip, parseTime, zone).kept.row.timestamp)
  {
  }

  /**
   * The timestamp a kept trip carries, in its row and in its position blob, is
   * off from its ModifiedDate by (day of month - seconds) seconds.
   */
  lemma KeptTimestampOffset(trip: Trip, parseTime: string -> Option<DateTime>, zone: Option<Zone>)
    requires zone.Some? && TransformTrip(trip, parseTime, zone).Keep?
    ensures var t := parseTime(trip.modifiedDate).value;
      var k := TransformTrip(trip, parseTime, zone).kept;
      k.row.timestamp == k.pos.timestamp == EstToUnix(t, zone) + t.day - t.second
  {
    TransformTripSpec(trip, parseTime, zone);
    AsWrittenOffset(parseTime(trip.modifiedDate).value, zone);
  }

  /** The outcome of each trip of the feed, in feed order. */
  function TripOutcomes(feed: seq<Trip>, parseTime: string -> Option<DateTime>, zone: Option<Zone>): (outs: seq<TripOutcome>)
    ensures |outs| == |feed|
    ensures forall i :: 0 <= i < |feed| ==> outs[i] == TransformTrip(feed[i], parseTime, zone)
  {
    seq(|feed|, i requires 0 <= i < |feed| => TransformTrip(feed[i], parseTime, zone))
  }

  /** The kept parts of a run of outcomes, in order. */
  function Survivors(outs: seq<TripOutcome>): (kept: seq<Kept>)
    ensures |kept| <= |outs|
  {
    if outs == [] then []
    else
      var n := |outs| - 1;
      match outs[n]
      case Keep(k) => Survivors(outs[..n]) + [k]
      case Drop(_) => Survivors(outs[..n])
  }

  /** The surviving trips of the feed, in feed order. */
  function Transform(feed: seq<Trip>, parseTime: string -> Option<DateTime>, zone: Option<Zone>): (kept: seq<Kept>)
    ensures |kept| <= |feed|
  {
    Survivors(TripOutcomes(feed, parseTime, zone))
  }

  /** The positions of the kept outcomes, in order. */
  function KeptIndices(outs: seq<TripOutcome>): seq<nat>
  {
    if outs == [] then []
    else
      var n := |outs| - 1;
      if outs[n].Keep? then KeptIndices(outs[..n]) + [n] else KeptIndices(outs[..n])
  }

  /**
   * Survivors keeps exactly the Keep outcomes, each once and in order: entry j
   * of the result is the outcome at KeptIndices[j].
   */
  lemma {:induction false} SurvivorsIsSubsequence(outs: seq<TripOutcome>)
    ensures var kept, idx := Survivors(outs), KeptIndices(outs);
      && |idx| == |kept|
      && (forall j :: 0 <= j < |idx| ==> idx[j] < |outs| && outs[idx[j]] == Keep(kept[j]))
      && (forall j, k :: 0 <= j < k < |idx| ==> idx[j] < idx[k])
      && (forall i :: 0 <= i < |outs| ==> (outs[i].Keep? <==> i in idx))
  {
    if outs != [] {
      var n := |outs| - 1;
      SurvivorsIsSubsequence(outs[..n]);
      assert forall i :: 0 <= i < n ==> outs[..n][i] == outs[i];
    }
  }

  /** The survivors of a concatenation are the concatenation of the survivors. */
  lemma {:induction false} SurvivorsAppend(a: seq<TripOutcome>, b: seq<TripOutcome>)
    ensures Survivors(a + b) == Survivors(a) + Survivors(b)
  {
    if b == [] {
      assert a + b == a;
    } else {
      var n := |b| - 1;
      SurvivorsAppend(a, b[..n]);
      assert (a + b)[..|a + b| - 1] == a + b[..n];
    }
  }

  lemma TripOutcomesAppend(a: seq<Trip>, b: seq<Trip>, parseTime: string -> Option<DateTime>, zone: Option<Zone>)
    ensures TripOutcomes(a + b, parseTime, zone) == TripOutcomes(a, parseTime, zone) + TripOutcomes(b, parseTime, zone)
  {
  }

  /** The result for a concatenated feed is the concatenation of the results. */
  lemma TransformAppend(a: seq<Trip>, b: seq<Trip>, parseTime: string -> Option<DateTime>, zone: Option<Zone>)
    ensures Transform(a + b, parseTime, zone) == Transform(a, parseTime, zone) + Transform(b, parseTime, zone)
  {
    TripOutcomesAppend(a, b, parseTime, zone);
    SurvivorsAppend(TripOutcomes(a, parseTime, zone), TripOutcomes(b, parseTime, zone));
  }

  /** A Drop outcome contributes nothing to the survivors, wherever it sits. */
  lemma SurvivorsSkipDrop(x: seq<TripOutcome>, o: TripOutcome, y: seq<TripOutcome>)
    requires o.Drop?
    ensures Survivors(x + [o] + y) == Survivors(x + y)
  {
    SurvivorsAppend(x + [o], y);
    SurvivorsAppend(x, [o]);
    SurvivorsAppend(x, y);
    assert [o][..0] == [];
    assert Survivors([o]) == [];
  }

  /** A trip that is skipped (stationary or unparsable) contributes no row, no member and no key. */
  lemma DroppedTripContributesNothing(a: seq<Trip>, trip: Trip, b: seq<Trip>, parseTime: string -> Option<DateTime>, zone: Option<Zone>)
    requires TransformTrip(trip, parseTime, zone).Drop?
    ensures Transform(a + [trip] + b, parseTime, zone) == Transform(a + b, parseTime, zone)
  {
    var oa, ob := TripOutcomes(a, parseTime, zone), TripOutcomes(b, parseTime, zone);
    var o := TransformTrip(trip, parseTime, zone);
    TripOutcomesAppend(a + [trip], b, parseTime, zone);
    TripOutcomesAppend(a, [trip], parseTime, zone);
    TripOutcomesAppend(a, b, parseTime, zone);
    assert TripOutcomes([trip], parseTime, zone) == [o];
    SurvivorsSkipDrop(oa, o, ob);
  }

  function SnapshotNames(kept: seq<Kept>): set<string>
  {
    GeoNames(Geos(kept))
  }

  function TripUpserts(kept: seq<Kept>): (us: seq<Upsert>)
    ensures |us| == |kept|
    ensures forall j :: 0 <= j < |kept| ==> us[j] == UpsertTrip(kept[j].row)
  {
    seq(|kept|, j requires 0 <= j < |kept| => UpsertTrip(kept[j].row))
  }

  function Geos(kept: seq<Kept>): (gs: seq<GeoLocation>)
    ensures |gs| == |kept|
    ensures forall j :: 0 <= j < |kept| ==> gs[j] == kept[j].geo
  {
    seq(|kept|, j requires 0 <= j < |kept| => kept[j].geo)
  }

  /** The position keys after the loop: each kept trip whose blob encodes sets its own key. */
  function WritePositions(keys: map<string, KeyEntry>, kept: seq<Kept>, encode: Position -> Option<string>): map<string, KeyEntry>
  {
    if kept == [] then keys
    else
      var n := |kept| - 1;
      var before := WritePositions(keys, kept[..n], encode);
      match encode(kept[n].pos)
      case Some(blob) => before[kept[n].geo.name := KeyEntry(blob, PositionTtlSeconds)]
      case None => before
  }

  /** Every kept trip whose blob encodes has its key, with a one-hour lifetime. */
  lemma {:induction false} WritePositionsSets(keys: map<string, KeyEntry>, kept: seq<Kept>, encode: Position -> Option<string>)
    ensures var after := WritePositions(keys, kept, encode);
      forall j :: 0 <= j < |kept| && encode(kept[j].pos).Some? ==>
        kept[j].geo.name in after && after[kept[j].geo.name].ttlSeconds == PositionTtlSeconds
  {
    if kept != [] {
      var n := |kept| - 1;
      WritePositionsSets(keys, kept[..n], encode);
      assert forall j :: 0 <= j < n ==> kept[..n][j] == kept[j];
    }
  }

  /** A key that no kept trip names is left as it was. */
  lemma {:induction false} WritePositionsKeepsOthers(keys: map<string, KeyEntry>, kept: seq<Kept>, encode: Position -> Option<string>)
    ensures var after := WritePositions(keys, kept, encode);
      forall k :: k !in SnapshotNames(kept) ==> (k in after <==> k in keys) && (k in keys ==> after[k] == keys[k])
  {
    if kept != [] {
      var n := |kept| - 1;
      var prefix := kept[..n];
      WritePositionsKeepsOthers(keys, prefix, encode);
      forall k | k !in SnapshotNames(kept)
        ensures k !in SnapshotNames(prefix) && k != kept[n].geo.name
      {
        assert Geos(kept)[n].name == kept[n].geo.name;
      }
    }
  }

  /**
   * Row j of the batch and member j of `positions` come from the same trip of
   * the feed, the j-th kept one: its row, its member named by its TripNumber.
   */
  lemma LockStep(feed: seq<Trip>, parseTime: string -> Option<DateTime>, zone: Option<Zone>)
    ensures var kept := Transform(feed, parseTime, zone);
      var rows, positions := TripUpserts(kept), Geos(kept);
      var idx := KeptIndices(TripOutcomes(feed, parseTime, zone));
      && |rows| == |positions| == |idx|
      && (forall j, k :: 0 <= j < k < |idx| ==> idx[j] < idx[k])
      && (forall i :: 0 <= i < |feed| && TransformTrip(feed[i], parseTime, zone).Keep? ==> i in idx)
      && forall j :: 0 <= j < |idx| ==>
           && idx[j] < |feed|
           && TransformTrip(feed[idx[j]], parseTime, zone).Keep?
           && rows[j] == UpsertTrip(TransformTrip(feed[idx[j]], parseTime, zone).kept.row)
           && positions[j] == TransformTrip(feed[idx[j]], parseTime, zone).kept.geo
           && positions[j].name == feed[idx[j]].tripNumber
           && Atoi(positions[j].name) == Parsed(rows[j].trip.tripId)
  {
    var outs := TripOutcomes(feed, parseTime, zone);
    SurvivorsIsSubsequence(outs);
    var kept, idx := Transform(feed, parseTime, zone), KeptIndices(outs);
    forall j | 0 <= j < |idx|
      ensures idx[j] < |feed| && TransformTrip(feed[idx[j]], parseTime, zone) == Keep(kept[j])
      ensures kept[j].geo.name == feed[idx[j]].tripNumber
      ensures Atoi(kept[j].geo.name) == Parsed(kept[j].row.tripId)
    {
      var i := idx[j];
      assert outs[i] == Keep(kept[j]);
      KeptNameIsTripNumber(feed[i], parseTime, zone);
    }
  }

  /** A kept trip is named by its own trip number, which parsed as an integer. */
  lemma KeptNameIsTripNumber(trip: Trip, parseTime: string -> Option<DateTime>, zone: Option<Zone>)
    requires TransformTrip(trip, parseTime, zone).Keep?
    ensures TransformTrip(trip, parseTime, zone).kept.geo.name == trip.tripNumber
    ensures Atoi(trip.tripNumber) == Parsed(TransformTrip(trip, parseTime, zone).kept.row.tripId)
  {
  }

  /** Survivor j comes from some Keep outcome of the run. */
  lemma SurvivorOrigin(outs: seq<TripOutcome>, j: nat) returns (i: nat)
    requires j < |Survivors(outs)|
    ensures i < |outs| && outs[i] == Keep(Survivors(outs)[j])
  {
    SurvivorsIsSubsequence(outs);
    i := KeptIndices(outs)[j];
  }

  /** Every Keep outcome of the run is some survivor. */
  lemma SurvivorPlace(outs: seq<TripOutcome>, i: nat) returns (j: nat)
    requires i < |outs| && outs[i].Keep?
    ensures j < |Survivors(outs)| && Survivors(outs)[j] == outs[i].kept
  {
    SurvivorsIsSubsequence(outs);
    var idx := KeptIndices(outs);
    assert i in idx;
    j :| 0 <= j < |idx| && idx[j] == i;
  }

  /** The position GEOADD writes for survivor j is the one of some Keep outcome. */
  lemma SurvivorGeoOrigin(outs: seq<TripOutcome>, j: nat) returns (i: nat)
    requires j < |Survivors(outs)|
    ensures i < |outs| && outs[i].Keep? && outs[i].kept.geo == Geos(Survivors(outs))[j]
  {
    i := SurvivorOrigin(outs, j);
  }

  lemma SurvivorNameIsKept(outs: seq<TripOutcome>, name: string)
    requires name in SnapshotNames(Survivors(outs))
    ensures exists i :: 0 <= i < |outs| && outs[i].Keep? && outs[i].kept.geo.name == name
  {
    var j := GeoNameWitness(Geos(Survivors(outs)), name);
    var i := SurvivorGeoOrigin(outs, j);
  }

  lemma KeptNameIsSurvivor(outs: seq<TripOutcome>, i: nat)
    requires i < |outs| && outs[i].Keep?
    ensures outs[i].kept.geo.name in SnapshotNames(Survivors(outs))
  {
    var j := SurvivorPlace(outs, i);
    assert Geos(Survivors(outs))[j] == outs[i].kept.geo;
  }

  /** The names of the survivors are the names of the Keep outcomes. */
  lemma SurvivorNames(outs: seq<TripOutcome>, name: string)
    ensures name in SnapshotNames(Survivors(outs)) <==>
      exists i :: 0 <= i < |outs| && outs[i].Keep? && outs[i].kept.geo.name == name
  {
    if name in SnapshotNames(Survivors(outs)) {
      SurvivorNameIsKept(outs, name);
    }
    if exists i :: 0 <= i < |outs| && outs[i].Keep? && outs[i].kept.geo.name == name {
      var i :| 0 <= i < |outs| && outs[i].Keep? && outs[i].kept.geo.name == name;
      KeptNameIsSurvivor(outs, i);
    }
  }

  /** The names GEOADD writes are exactly the trip numbers of the surviving trips. */
  lemma SnapshotNamesAreSurvivors(feed: seq<Trip>, parseTime: string -> Option<DateTime>, zone: Option<Zone>, name: string)
    ensures name in SnapshotNames(Transform(feed, parseTime, zone)) <==>
      exists i :: 0 <= i < |feed| && TransformTrip(feed[i], parseTime, zone).Keep? && feed[i].tripNumber == name
  {
    var outs := TripOutcomes(feed, parseTime, zone);
    SurvivorNames(outs, name);
    forall i | 0 <= i < |feed| && outs[i].Keep?
      ensures outs[i].kept.geo.name == feed[i].tripNumber
    {
      KeptNameIsTripNumber(feed[i], parseTime, zone);
    }
  }

  /** A surviving trip number parsed as an integer, so no position key can be the `locates` key. */
  lemma PositionKeysAvoidLocates(feed: seq<Trip>, parseTime: string -> Option<DateTime>, zone: Option<Zone>)
    ensures LocatesKey !in SnapshotNames(Transform(feed, parseTime, zone))
  {
    LettersAreNotNumbers(LocatesKey);
    SnapshotNamesAreSurvivors(feed, parseTime, zone, LocatesKey);
  }

  /**
   * `locates` after `DEL` then `GEOADD`: the two calls fail independently; when
   * `DEL` succeeds nothing stale survives, and when both succeed the set is
   * exactly the names added.
   */
  function Snapshot(before: set<string>, positions: seq<GeoLocation>, delFails: bool, geoAddFails: bool): (after: set<string>)
    ensures !delFails ==> after <= GeoNames(positions)
    ensures !delFails && !geoAddFails && GeoAddAccepted(positions) ==> after == GeoNames(positions)
    ensures delFails ==> before <= after
    ensures delFails && !geoAddFails && GeoAddAccepted(positions) ==> after == before + GeoNames(positions)
    ensures geoAddFails ==> after == (if delFails then before else {})
  {
    (if delFails then before else {}) + (if geoAddFails || !GeoAddAccepted(positions) then {} else GeoNames(positions))
  }

  /** One more trip adds its kept part, if any, at the end. */
  lemma TransformStep(feed: seq<Trip>, i: nat, parseTime: string -> Option<DateTime>, zone: Option<Zone>)
    requires i < |feed|
    ensures Transform(feed[..i + 1], parseTime, zone) ==
      match TransformTrip(feed[i], parseTime, zone)
      case Keep(k) => Transform(feed[..i], parseTime, zone) + [k]
      case Drop(_) => Transform(feed[..i], parseTime, zone)
  {
    var outs := TripOutcomes(feed[..i], parseTime, zone);
    var o := TransformTrip(feed[i], parseTime, zone);
    assert TripOutcomes(feed[..i + 1], parseTime, zone) == outs + [o];
    assert (outs + [o])[..|outs|] == outs;
  }

  /** The upsert a single outcome adds to the batch, if any. */
  function AddedRows(o: TripOutcome): seq<Upsert>
  {
    match o
    case Keep(k) => [UpsertTrip(k.row)]
    case Drop(_) => []
  }

  /** The member a single outcome adds to `positions`, if any. */
  function AddedGeos(o: TripOutcome): seq<GeoLocation>
  {
    match o
    case Keep(k) => [k.geo]
    case Drop(_) => []
  }

  /** The position keys after a single outcome. */
  function KeysAfter(keys: map<string, KeyEntry>, o: TripOutcome, encode: Position -> Option<string>): map<string, KeyEntry>
  {
    match o
    case Keep(k) =>
      (match encode(k.pos)
       case Some(blob) => keys[k.geo.name := KeyEntry(blob, PositionTtlSeconds)]
       case None => keys)
    case Drop(_) => keys
  }

  /** The kept part of a single outcome, if any. */
  function KeptPart(o: TripOutcome): seq<Kept>
  {
    match o
    case Keep(k) => [k]
    case Drop(_) => []
  }

  lemma SurvivorsStep(outs: seq<TripOutcome>, i: nat)
    requires i < |outs|
    ensures Survivors(outs[..i + 1]) == Survivors(outs[..i]) + KeptPart(outs[i])
  {
    assert outs[..i + 1][..i] == outs[..i];
  }

  lemma RowsStep(kept: seq<Kept>, o: TripOutcome)
    ensures TripUpserts(kept + KeptPart(o)) == TripUpserts(kept) + AddedRows(o)
  {
  }

  lemma GeosStep(kept: seq<Kept>, o: TripOutcome)
    ensures Geos(kept + KeptPart(o)) == Geos(kept) + AddedGeos(o)
  {
  }

  lemma KeysStep(keys: map<string, KeyEntry>, kept: seq<Kept>, o: TripOutcome, encode: Position -> Option<string>)
    ensures WritePositions(keys, kept + KeptPart(o), encode) == KeysAfter(WritePositions(keys, kept, encode), o, encode)
  {
    if o.Keep? {
      assert (kept + [o.kept])[..|kept|] == kept;
    } else {
      assert kept + [] == kept;
    }
  }

  /**
   * One pass of the loop inside `Pipelined`: a surviving trip queues its upsert,
   * appends its member to `positions` and, when its blob encodes (`encode` is
   * `json.Marshal`), sets its position key for an hour; a skipped trip does nothing.
   */
  method QueueTrip(
    trip: Trip, parseTime: string -> Option<DateTime>, zone: Option<Zone>,
    encode: Position -> Option<string>, batch: Batch, r: Redis, positions: seq<GeoLocation>,
    ghost o: TripOutcome)
    returns (updated: seq<GeoLocation>)
    requires o == TransformTrip(trip, parseTime, zone)
    modifies batch, r
    ensures batch.queued == old(batch.queued) + AddedRows(o)
    ensures updated == positions + AddedGeos(o)
    ensures r.keys == KeysAfter(old(r.keys), o, encode)
    ensures r.locates == old(r.locates)
  {
    updated := positions;
    if !trip.isInMotion {
      return;
    }
    var parsedTime := parseTime(trip.modifiedDate);
    if parsedTime.None? {
      return;
    }
    var tripId := Atoi(trip.tripNumber);
    if !tripId.Parsed? {
      return;
    }
    var firstStop := Atoi(trip.firstStopCode);
    if !firstStop.Parsed? {
      return;
    }
    var prevStop := NoPrevStop;
    if Atoi(trip.prevStopCode).Parsed? {
      prevStop := Atoi(trip.prevStopCode).value;
    }
    var lastStop := Atoi(trip.lastStopCode);
    if !lastStop.Parsed? {
      return;
    }
    var timestamp := EstToUnixAsWritten(parsedTime.value, zone);
    var row := TripRow(tripId.value, trip.routeNumber, trip.startTime, trip.endTime, GetBusType(trip.busType),
                       firstStop.value, prevStop, lastStop.value, trip.delaySeconds, timestamp);
    batch.Queue(UpsertTrip(row));
    updated := positions + [GeoLocation(trip.tripNumber, trip.latitude, trip.longitude)];
    var blob := encode(Position(trip.latitude, trip.longitude, trip.course, timestamp));
    if blob.Some? {
      r.Set(trip.tripNumber, blob.value, PositionTtlSeconds);
    }
  }

  /**
   * The loop inside `Pipelined`: for each surviving trip, in feed order, one
   * upsert is queued, one member appended to `positions` and its key written.
   */
  method QueueTrips(
    feed: seq<Trip>, parseTime: string -> Option<DateTime>, zone: Option<Zone>,
    encode: Position -> Option<string>, batch: Batch, r: Redis)
    returns (positions: seq<GeoLocation>)
    requires batch.queued == []
    modifies batch, r
    ensures batch.queued == TripUpserts(Transform(feed, parseTime, zone))
    ensures positions == Geos(Transform(feed, parseTime, zone))
    ensures r.keys == WritePositions(old(r.keys), Transform(feed, parseTime, zone), encode)
    ensures r.locates == old(r.locates)
  {
    ghost var outs := TripOutcomes(feed, parseTime, zone);
    ghost var kept: seq<Kept> := [];
    positions := [];
    for i := 0 to |feed|
      invariant kept == Survivors(outs[..i])
      invariant batch.queued == TripUpserts(kept)
      invariant positions == Geos(kept)
      invariant r.keys == WritePositions(old(r.keys), kept, encode)
      invariant r.locates == old(r.locates)
    {
      ghost var o := outs[i];
      SurvivorsStep(outs, i);
      RowsStep(kept, o);
      GeosStep(kept, o);
      KeysStep(old(r.keys), kept, o, encode);
      positions := QueueTrip(feed[i], parseTime, zone, encode, batch, r, positions, o);
      kept := kept + KeptPart(o);
    }
    assert outs[..|feed|] == outs;
  }

  /**
   * updateBusLocations after the feed is decoded: the loop, the batch and its
   * tally, then `DEL locates` and `GEOADD locates`. `failing` names the rows the
   * store rejects; `delFails` and `geoAddFails` are store or connection failures.
   */
  method UpdateBusLocations(
    r: Redis, pg: Postgres, feed: seq<Trip>, parseTime: string -> Option<DateTime>, zone: Option<Zone>,
    encode: Position -> Option<string>, failing: set<nat>, delFails: bool, geoAddFails: bool)
    returns (inserted: int)
    modifies r, pg
    ensures var kept := Transform(feed, parseTime, zone);
      && pg.Contents() == ApplyBatch(old(pg.Contents()), TripUpserts(kept), Outcomes(|kept|, failing))
      && inserted == Successes(Outcomes(|kept|, failing))
      && r.keys == WritePositions(old(r.keys), kept, encode)
      && r.locates == Snapshot(old(r.locates), Geos(kept), delFails, geoAddFails)
  {
    var batch := new Batch();
    var positions := QueueTrips(feed, parseTime, zone, encode, batch, r);
    assert batch.queued == TripUpserts(Transform(feed, parseTime, zone));
    var results := pg.SendBatch(batch, failing);
    var errorCount;
    errorCount, inserted := CountErrors(results);
    var delErr := r.DelLocates(delFails);
    var geoErr := r.GeoAdd(positions, geoAddFails);
  }

  /**
   * A feed with one moving, well-formed trip and one stationary trip: exactly one
   * row, one geo member and, when its blob encodes, one position key.
   */
  lemma OneMovingOneStopped(moving: Trip, stopped: Trip, parseTime: string -> Option<DateTime>, zone: Option<Zone>,
                            keys: map<string, KeyEntry>, encode: Position -> Option<string>)
    requires moving.isInMotion && !stopped.isInMotion
    requires parseTime(moving.modifiedDate).Some?
    requires Atoi(moving.tripNumber).Parsed? && Atoi(moving.firstStopCode).Parsed? && Atoi(moving.lastStopCode).Parsed?
    ensures |Transform([moving, stopped], parseTime, zone)| == 1
    ensures SnapshotNames(Transform([moving, stopped], parseTime, zone)) == {moving.tripNumber}
    ensures TripUpserts(Transform([moving, stopped], parseTime, zone))[0].trip.tripId == Atoi(moving.tripNumber).value
    ensures var k := TransformTrip(moving, parseTime, zone).kept;
      var after := WritePositions(keys, Transform([moving, stopped], parseTime, zone), encode);
      after == match encode(k.pos)
               case Some(blob) => keys[moving.tripNumber := KeyEntry(blob, PositionTtlSeconds)]
               case None => keys
  {
    var k := TransformTrip(moving, parseTime, zone).kept;
    MovingThenStopped(moving, stopped, parseTime, zone);
    KeptNameIsTripNumber(moving, parseTime, zone);
    assert SnapshotNames([k]) == {k.geo.name} by {
      assert Geos([k]) == [k.geo];
    }
    assert TripUpserts([k])[0].trip.tripId == k.row.tripId;
    WritePositionsSingle(keys, k, encode);
  }

  /** Writing the keys of a single kept trip. */
  lemma WritePositionsSingle(keys: map<string, KeyEntry>, k: Kept, encode: Position -> Option<string>)
    ensures WritePositions(keys, [k], encode) == match encode(k.pos)
      case Some(blob) => keys[k.geo.name := KeyEntry(blob, PositionTtlSeconds)]
      case None => keys
  {
    assert [k][..0] == [];
  }

  /** Of a moving, well-formed trip and a stationary one, only the first is kept. */
  lemma MovingThenStopped(moving: Trip, stopped: Trip, parseTime: string -> Option<DateTime>, zone: Option<Zone>)
    requires moving.isInMotion && !stopped.isInMotion
    requires parseTime(moving.modifiedDate).Some?
    requires Atoi(moving.tripNumber).Parsed? && Atoi(moving.firstStopCode).Parsed? && Atoi(moving.lastStopCode).Parsed?
    ensures TransformTrip(moving, parseTime, zone).Keep?
    ensures Transform([moving, stopped], parseTime, zone) == [TransformTrip(moving, parseTime, zone).kept]
  {
    TransformTripSpec(moving, parseTime, zone);
    var k := TransformTrip(moving, parseTime, zone).kept;
    var outs := TripOutcomes([moving, stopped], parseTime, zone);
    assert outs == [Keep(k), Drop(NotInMotion)];
    assert outs[..1] == [Keep(k)] && outs[..1][..0] == [];
    assert Survivors(outs) == [k];
  }

  /** A non-numeric PrevStopCode keeps the trip, with prev_stop recorded as the sentinel. */
  lemma PrevStopSentinel(trip: Trip, parseTime: string -> Option<DateTime>, zone: Option<Zone>)
    requires trip.isInMotion && parseTime(trip.modifiedDate).Some?
    requires Atoi(trip.tripNumber).Parsed? && Atoi(trip.firstStopCode).Parsed? && Atoi(trip.lastStopCode).Parsed?
    requires !WellFormed(trip.prevStopCode)
    ensures Transform([trip], parseTime, zone) == [TransformTrip(trip, parseTime, zone).kept]
    ensures TransformTrip(trip, parseTime, zone).kept.row.prevStop == NoPrevStop
  {
    assert [trip][..0] == [];
  }
}
