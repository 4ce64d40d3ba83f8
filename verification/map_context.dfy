/** The client map store: the locations being edited, the map center, the
    active journey's name and the place last clicked on the map. Every
    transition is a pure function from one snapshot to the next. */
module MapContext {
  import opened Wrappers
  import opened JourneyModel

  /** A `[lat, lon]` pair. */
  datatype LatLon = LatLon(lat: real, lon: real)

  /** Ho Chi Minh City, where the map opens. */
  const DefaultCenter: LatLon := LatLon(10.762622, 106.660172)

  const InitialLocationId: string := "initial"
  const InitialLocationName: string := "Thành phố Hồ chí Minh"

  /** A place picked on the map background, awaiting a decision to add it. */
  datatype ClickedPlace = ClickedPlace(
    name: string,
    address: Option<string>,
    lat: real,
    lon: real,
    kind: Option<string>)

  datatype MapState = MapState(
    locations: seq<Location>,
    center: LatLon,
    journeyName: string,
    clickedPlace: Option<ClickedPlace>)

  /** The single stop the store starts with, placed at the default center. */
  function InitialLocation(): Location {
    Location(InitialLocationId, InitialLocationName, DefaultCenter.lat, DefaultCenter.lon, None)
  }

  /** The state the provider mounts with. */
  function Initial(): (s: MapState)
    ensures |s.locations| == 1
    ensures s.locations[0].id == "initial"
    ensures s.locations[0].name == "Thành phố Hồ chí Minh"
    ensures s.locations[0].lat == DefaultCenter.lat && s.locations[0].lon == DefaultCenter.lon
    ensures s.locations[0].properties.None?
    ensures s.center == DefaultCenter
    ensures s.journeyName == ""
    ensures s.clickedPlace.None?
  {
    MapState([InitialLocation()], DefaultCenter, "", None)
  }

  // The four plain setters: each replaces one field and keeps the others.

  function SetLocations(s: MapState, locs: seq<Location>): (r: MapState)
    ensures r.locations == locs
    ensures r.center == s.center && r.journeyName == s.journeyName && r.clickedPlace == s.clickedPlace
  {
    s.(locations := locs)
  }

  function SetCenter(s: MapState, c: LatLon): (r: MapState)
    ensures r.center == c
    ensures r.locations == s.locations && r.journeyName == s.journeyName && r.clickedPlace == s.clickedPlace
  {
    s.(center := c)
  }

  function SetJourneyName(s: MapState, name: string): (r: MapState)
    ensures r.journeyName == name
    ensures r.locations == s.locations && r.center == s.center && r.clickedPlace == s.clickedPlace
  {
    s.(journeyName := name)
  }

  function SetClickedPlace(s: MapState, p: Option<ClickedPlace>): (r: MapState)
    ensures r.clickedPlace == p
    ensures r.locations == s.locations && r.center == s.center && r.journeyName == s.journeyName
  {
    s.(clickedPlace := p)
  }

  /** True when `a` and `b` agree on everything but their properties. */
  predicate SameButProperties(a: Location, b: Location) {
    a.id == b.id && a.name == b.name && a.lat == b.lat && a.lon == b.lon
  }

  /** The list update behind `updateLocationProperties`: every location whose
      id is `id` gets `p` as its properties; every other location is kept. */
  function UpdateProperties(locs: seq<Location>, id: string, p: Properties): (r: seq<Location>)
    ensures |r| == |locs|
    ensures forall i :: 0 <= i < |locs| ==> SameButProperties(r[i], locs[i])
    ensures forall i :: 0 <= i < |locs| && locs[i].id == id ==> r[i].properties == Some(p)
    ensures forall i :: 0 <= i < |locs| && locs[i].id != id ==> r[i] == locs[i]
  {
    if locs == [] then []
    else
      var head := if locs[0].id == id then locs[0].(properties := Some(p)) else locs[0];
      [head] + UpdateProperties(locs[1..], id, p)
  }

  /** `updateLocationProperties` on the whole store. */
  function UpdateLocationProperties(s: MapState, id: string, p: Properties): (r: MapState)
    ensures r.locations == UpdateProperties(s.locations, id, p)
    ensures r.center == s.center && r.journeyName == s.journeyName && r.clickedPlace == s.clickedPlace
  {
    s.(locations := UpdateProperties(s.locations, id, p))
  }

  /** `resetMap`: back to the mount state, whatever came before. */
  function ResetMap(s: MapState): (r: MapState)
    ensures r == Initial()
  {
    MapState([InitialLocation()], DefaultCenter, "", None)
  }

  /** An id no location carries leaves the list as it was. */
  lemma UpdateUnknownIdIsNoOp(locs: seq<Location>, id: string, p: Properties)
    requires forall i :: 0 <= i < |locs| ==> locs[i].id != id
    ensures UpdateProperties(locs, id, p) == locs
  {
  }

  /** Applying the same update twice is applying it once. */
  lemma UpdatePropertiesIdempotent(locs: seq<Location>, id: string, p: Properties)
    ensures UpdateProperties(UpdateProperties(locs, id, p), id, p) == UpdateProperties(locs, id, p)
  {
  }

  /** The set of ids in the list is the same before and after an update. */
  lemma UpdateKeepsIds(locs: seq<Location>, id: string, p: Properties)
    ensures forall x :: x in Ids(UpdateProperties(locs, id, p)) <==> x in Ids(locs)
  {
  }

  /** The ids of a location list, in order. */
  function Ids(locs: seq<Location>): (ids: seq<string>)
    ensures |ids| == |locs|
    ensures forall i :: 0 <= i < |locs| ==> ids[i] == locs[i].id
  {
    seq(|locs|, i requires 0 <= i < |locs| => locs[i].id)
  }

  /** Resetting forgets the prior state entirely, so it is idempotent. */
  lemma ResetForgetsHistory(s: MapState, t: MapState)
    ensures ResetMap(s) == ResetMap(t)
    ensures ResetMap(ResetMap(s)) == ResetMap(s)
  {
  }
}
