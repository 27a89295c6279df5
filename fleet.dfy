/** The tracked collection vehicles and the projection that places them on the
    schematic city map. Coordinates are taken over the reals. */
module Fleet {

  datatype Status = Active | Idle

  datatype Vehicle = Vehicle(id: int, name: string, lat: real, lng: real, status: Status)

  /** The fixed fleet shown on the map. */
  const Vehicles: seq<Vehicle> := [
    Vehicle(1, "Truck A", 17.385, 78.486, Active),
    Vehicle(2, "Truck B", 17.4, 78.48, Idle),
    Vehicle(3, "Truck C", 17.395, 78.5, Active)
  ]

  /** The map's reference point and its scale (map units per degree). */
  const LatBase: real := 17.38
  const LngBase: real := 78.47
  const Scale: real := 5000.0

  /** A planar offset from the reference point: x grows eastward, y grows
      southward (screen orientation). */
  datatype Offset = Offset(x: real, y: real)

  datatype Coordinate = Coordinate(lat: real, lng: real)

  /** The linear projection around the reference point; no information is
      lost, since Unproject recovers the coordinate. */
  function Project(lat: real, lng: real): (p: Offset)
    ensures Unproject(p) == Coordinate(lat, lng)
  {
    Offset((lng - LngBase) * Scale, (LatBase - lat) * Scale)
  }

  /** The coordinate a map offset stands for. */
  function Unproject(p: Offset): Coordinate {
    Coordinate(LatBase - p.y / Scale, LngBase + p.x / Scale)
  }

  /** The projection loses nothing: it is a bijection between coordinates and
      offsets, with Unproject as its inverse on both sides. */
  lemma ProjectRoundTrip(lat: real, lng: real, p: Offset)
    ensures Unproject(Project(lat, lng)) == Coordinate(lat, lng)
    ensures Project(Unproject(p).lat, Unproject(p).lng) == p
  {
  }

  /** The reference point, and only it, lands on the map's origin. */
  lemma ProjectOrigin(lat: real, lng: real)
    ensures Project(lat, lng) == Offset(0.0, 0.0) <==> lat == 17.38 && lng == 78.47
  {
  }

  /** Further east means further right; further north means further up. */
  lemma ProjectOrientation(lat1: real, lng1: real, lat2: real, lng2: real)
    ensures lng1 < lng2 <==> Project(lat1, lng1).x < Project(lat2, lng2).x
    ensures lat1 < lat2 <==> Project(lat1, lng1).y > Project(lat2, lng2).y
  {
  }

  /** Where the three trucks sit relative to the reference point. */
  lemma VehicleOffsets()
    ensures Project(Vehicles[0].lat, Vehicles[0].lng) == Offset(80.0, -25.0)
    ensures Project(Vehicles[1].lat, Vehicles[1].lng) == Offset(50.0, -100.0)
    ensures Project(Vehicles[2].lat, Vehicles[2].lng) == Offset(150.0, -75.0)
  {
  }
}
