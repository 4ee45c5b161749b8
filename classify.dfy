/**
 * The two closed enumerations of the import: the station type, found by a
 * reverse lookup in the `stationTypeToString` table, and the bus type.
 */
module Classify {
  /** Go's `StationType int`, numbered by `iota`. */
  type StationType = int

  const BusStop: StationType := 0
  const BusTerminal: StationType := 1
  const ParkRide: StationType := 2
  const TrainBusStation: StationType := 3
  const TrainStation: StationType := 4

  /** What getStationType returns for a label that is in no row of the table. */
  const UnknownStationType: int := -1

  const StationTypeToString: map<StationType, string> := map[
    BusStop := "Bus Stop",
    BusTerminal := "Bus Terminal",
    ParkRide := "Park & Ride",
    TrainBusStation := "Train & Bus Station",
    TrainStation := "Train Station"
  ]

  /** One order in which Go's `range` may visit the table: each key, and keys only. */
  predicate IsKeyOrder(order: seq<StationType>)
  {
    && (forall i :: 0 <= i < |order| ==> order[i] in StationTypeToString)
    && (forall st :: st in StationTypeToString ==> st in order)
  }

  /** The loop of getStationType, visiting the keys in `order` and returning the first whose label matches. */
  function LookupInOrder(order: seq<StationType>, text: string): (r: int)
    requires forall i :: 0 <= i < |order| ==> order[i] in StationTypeToString
    ensures r != UnknownStationType ==> r in order && StationTypeToString[r] == text
    ensures r == UnknownStationType <==>
      forall i :: 0 <= i < |order| ==> StationTypeToString[order[i]] != text
  {
    if order == [] then UnknownStationType
    else if StationTypeToString[order[0]] == text then order[0]
    else LookupInOrder(order[1..], text)
  }

  /** getStationType, with the keys visited in ascending order. */
  function GetStationType(text: string): (r: int)
    ensures r == UnknownStationType <==> text !in StationTypeToString.Values
    ensures r != UnknownStationType ==> r in StationTypeToString && StationTypeToString[r] == text
  {
    var order := [BusStop, BusTerminal, ParkRide, TrainBusStation, TrainStation];
    assert forall st :: st in StationTypeToString <==> st in order;
    LookupInOrder(order, text)
  }

  /** The five labels map to their ordinals, case-sensitively; anything else is the sentinel. */
  lemma GetStationTypeLabels(text: string)
    ensures GetStationType("Bus Stop") == BusStop
    ensures GetStationType("Bus Terminal") == BusTerminal
    ensures GetStationType("Park & Ride") == ParkRide
    ensures GetStationType("Train & Bus Station") == TrainBusStation
    ensures GetStationType("Train Station") == TrainStation
    ensures text != "Bus Stop" && text != "Bus Terminal" && text != "Park & Ride"
      && text != "Train & Bus Station" && text != "Train Station"
      ==> GetStationType(text) == UnknownStationType
  {
    assert GetStationType("Bus Stop") == BusStop by { LabelRoundTrip(BusStop); }
    assert GetStationType("Bus Terminal") == BusTerminal by { LabelRoundTrip(BusTerminal); }
    assert GetStationType("Park & Ride") == ParkRide by { LabelRoundTrip(ParkRide); }
    assert GetStationType("Train & Bus Station") == TrainBusStation by { LabelRoundTrip(TrainBusStation); }
    assert GetStationType("Train Station") == TrainStation by { LabelRoundTrip(TrainStation); }
    if text != "Bus Stop" && text != "Bus Terminal" && text != "Park & Ride"
      && text != "Train & Bus Station" && text != "Train Station" {
      UnlistedIsUnknown(text);
    }
  }

  lemma UnlistedIsUnknown(text: string)
    requires text != "Bus Stop" && text != "Bus Terminal" && text != "Park & Ride"
    requires text != "Train & Bus Station" && text != "Train Station"
    ensures text !in StationTypeToString.Values
  {
    forall v | v in StationTypeToString.Values
      ensures v != text
    {
      var st :| st in StationTypeToString && StationTypeToString[st] == v;
      assert st in {BusStop, BusTerminal, ParkRide, TrainBusStation, TrainStation};
    }
  }

  /** Looking up the label of a station type gives that station type back. */
  lemma LabelRoundTrip(st: StationType)
    requires st in StationTypeToString
    ensures GetStationType(StationTypeToString[st]) == st
  {
    var r := GetStationType(StationTypeToString[st]);
    assert StationTypeToString[st] in StationTypeToString.Values;
    LabelsDistinct(r, st);
  }

  /** No two station types share a label. */
  lemma LabelsDistinct(a: StationType, b: StationType)
    requires a in StationTypeToString && b in StationTypeToString
    requires StationTypeToString[a] == StationTypeToString[b]
    ensures a == b
  {
  }

  /**
   * Go randomises the order in which `range` visits a map. Because no two
   * station types share a text, every visiting order gives the same answer.
   */
  lemma LookupOrderIndependent(order: seq<StationType>, text: string)
    requires IsKeyOrder(order)
    ensures LookupInOrder(order, text) == GetStationType(text)
  {
    var r := LookupInOrder(order, text);
    var expected := GetStationType(text);
    if expected == UnknownStationType {
      assert forall i :: 0 <= i < |order| ==> StationTypeToString[order[i]] in StationTypeToString.Values;
    } else {
      assert expected in order;
      var i :| 0 <= i < |order| && order[i] == expected;
      assert StationTypeToString[order[i]] == text;
      assert r != UnknownStationType;
    }
  }

  const Coach: int := 0
  const OtherBus: int := 1

  /** getBusType: `Coach` is the one named bus type; every other string is the catch-all. */
  function GetBusType(busString: string): (r: int)
    ensures r == Coach <==> busString == "Coach"
    ensures r == Coach || r == OtherBus
  {
    if busString == "Coach" then Coach else OtherBus
  }
}
