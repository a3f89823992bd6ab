/** Location resolution and the day/night classifier. */
module Utils {
  import opened Host

  /** What the sunrise/sunset computation reports for one call: today's sunrise and sunset and the
      current instant it compared them with, all on one time line. */
  datatype SunTimes = SunTimes(sunrise: int, now: int, sunset: int)

  /** The astronomical computation for given coordinates at the moment of the call; None when it
      fails (invalid coordinates, a computation error, a polar day or night). */
  type SunOracle = (Coord, Coord) -> Option<SunTimes>

  /** Day when the current instant lies between sunrise and sunset, both inclusive; when the
      computation fails the classifier falls back to day. */
  function IsDaytime(oracle: SunOracle, latitude: Coord, longitude: Coord): (day: bool)
    ensures oracle(latitude, longitude).None? ==> day
    ensures oracle(latitude, longitude).Some? ==>
      var t := oracle(latitude, longitude).value;
      (day <==> t.sunrise <= t.now && t.now <= t.sunset)
  {
    match oracle(latitude, longitude)
    case None => true
    case Some(t) => t.sunrise <= t.now <= t.sunset
  }

  /** The (latitude, longitude) attributes of an entity, or (None, None) when the id is absent, the
      entity does not exist or either attribute is missing. */
  function GetLocationFromEntity(states: States, entityId: Option<string>): (r: (Option<Coord>, Option<Coord>))
    ensures r.0.Some? <==> r.1.Some?
    ensures r.0.Some? <==>
      entityId.Some? && entityId.value in states
      && states[entityId.value].latitude.Some? && states[entityId.value].longitude.Some?
    ensures r.0.Some? ==>
      r == (states[entityId.value].latitude, states[entityId.value].longitude)
  {
    if entityId.None? || entityId.value !in states then (None, None)
    else
      var e := states[entityId.value];
      if e.latitude.None? || e.longitude.None? then (None, None)
      else (e.latitude, e.longitude)
  }

  /** The resolved location depends only on which entities exist and on their location
      attributes, so writes to entity states never change it. */
  lemma LocationIgnoresStates(s: States, t: States, entityId: Option<string>)
    requires s.Keys == t.Keys
    requires forall id :: id in s ==> s[id].latitude == t[id].latitude && s[id].longitude == t[id].longitude
    ensures GetLocationFromEntity(s, entityId) == GetLocationFromEntity(t, entityId)
  {
    if entityId.Some? && entityId.value in s {
      assert s[entityId.value].latitude == t[entityId.value].latitude;
      assert s[entityId.value].longitude == t[entityId.value].longitude;
    }
  }
}
