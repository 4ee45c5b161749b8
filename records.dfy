/**
 * The records the import passes around. Go's float64 coordinates and course are
 * carried as reals; they are copied, never computed on.
 */
module Records {
  /** One entry of the `Stop/All` listing. */
  datatype Station = Station(locationCode: string, publicStopId: string, locationName: string, locationType: string)

  /** The `Stop` object of a `Stop/Details/{code}` response; every field is text. */
  datatype StopDetails = StopDetails(zoneCode: string, city: string, latitude: string, longitude: string)

  /** A listing entry merged with its details: one row of the `stations` table. */
  datatype CompleteStation = CompleteStation(
    locationCode: string,
    stationName: string,
    stationType: int,
    lat: real,
    lng: real,
    city: string,
    zoneCode: int)

  /** One entry of the `Buses/All` feed (the fields the import reads). */
  datatype Trip = Trip(
    busType: string,
    tripNumber: string,
    startTime: string,
    endTime: string,
    routeNumber: string,
    latitude: real,
    longitude: real,
    isInMotion: bool,
    delaySeconds: int,
    course: real,
    firstStopCode: string,
    lastStopCode: string,
    prevStopCode: string,
    modifiedDate: string)

  /** One row of the `trips` table, keyed by `tripId`. */
  datatype TripRow = TripRow(
    tripId: int,
    routeNumber: string,
    startTime: string,
    endTime: string,
    busType: int,
    firstStop: int,
    prevStop: int,
    lastStop: int,
    delay: int,
    timestamp: int)

  /** A member of the `locates` geo set. */
  datatype GeoLocation = GeoLocation(name: string, latitude: real, longitude: real)

  /** The position blob stored under a trip's own key. */
  datatype Position = Position(lat: real, lng: real, course: real, timestamp: int)
}
