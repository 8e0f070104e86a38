/**
 * The world graph: areas linked by the four compass directions, the built-in
 * seven-area map, and lookup of an area by its name.
 */
module World {
  import opened Wrappers

  /** The four directions a move can take. */
  datatype Direction = North | South | East | West

  /**
   * An area of the map: its name (the lookup key) and its four exits, each
   * absent (`None`, JavaScript `null`) or naming another area.
   */
  datatype Area = Area(
    name: string,
    north: Option<string>,
    south: Option<string>,
    east: Option<string>,
    west: Option<string>)

  /** The exit of `a` in direction `d`. */
  function Exit(a: Area, d: Direction): Option<string>
  {
    match d
    case North => a.north
    case South => a.south
    case East => a.east
    case West => a.west
  }

  /**
   * Whether an exit can be followed: the source tests the exit for
   * truthiness, so both `null` and the empty name count as blocked.
   */
  predicate IsOpen(e: Option<string>)
  {
    e.Some? && e.value != ""
  }

  /**
   * Lookup by exact name: the first area called `name`, or `None` when no
   * area has that name (Array.prototype.find returning undefined).
   */
  function Find(areas: seq<Area>, name: string): (r: Option<Area>)
    ensures r.None? <==> forall i :: 0 <= i < |areas| ==> areas[i].name != name
    ensures r.Some? ==> r.value.name == name && r.value in areas
    ensures r.Some? ==> exists i :: 0 <= i < |areas| && areas[i] == r.value &&
                                    forall j :: 0 <= j < i ==> areas[j].name != name
  {
    if areas == [] then None
    else if areas[0].name == name then Some(areas[0])
    else
      var r := Find(areas[1..], name);
      if r.Some? then
        var i :| 0 <= i < |areas| - 1 && areas[1..][i] == r.value &&
                  forall j :: 0 <= j < i ==> areas[1..][j].name != name;
        assert areas[i + 1] == r.value;
        r
      else r
  }

  /** Whether some area of `areas` is called `name`. */
  predicate Named(areas: seq<Area>, name: string)
  {
    exists i :: 0 <= i < |areas| && areas[i].name == name
  }

  /**
   * Every open exit of every area names an area of the map, so following an
   * exit never yields "not found".
   */
  ghost predicate Closed(areas: seq<Area>)
  {
    forall i, d :: 0 <= i < |areas| && IsOpen(Exit(areas[i], d)) ==> Named(areas, Exit(areas[i], d).value)
  }

  const OUTSIDE := "Outside"
  const FAIRY_ASYLUM := "Fairy Asylum"
  const CRIMSON_SANCTUM := "Crimson Sanctum"
  const DINING_ROOM := "Dining Room of the Sigl"
  const ROOM_OF_KNOWLEDGE := "Room of Knowledge"
  const DESOLATE_PRISON := "Desolate Prison of the Miners"
  const WATCHTOWER := "Watchtower of Ending"

  /** The seven areas the map is built with, in the order they are added. */
  const BUILTIN_AREAS: seq<Area> := [
    Area(OUTSIDE, Some(FAIRY_ASYLUM), Some(CRIMSON_SANCTUM), Some(DINING_ROOM), Some(WATCHTOWER)),
    Area(FAIRY_ASYLUM, None, Some(OUTSIDE), None, Some(DESOLATE_PRISON)),
    Area(CRIMSON_SANCTUM, Some(OUTSIDE), None, None, None),
    Area(DINING_ROOM, None, None, Some(ROOM_OF_KNOWLEDGE), Some(OUTSIDE)),
    Area(ROOM_OF_KNOWLEDGE, None, None, None, Some(DINING_ROOM)),
    Area(DESOLATE_PRISON, None, None, Some(FAIRY_ASYLUM), None),
    Area(WATCHTOWER, None, None, Some(OUTSIDE), None)
  ]

  /** The built-in map has no dangling exit. */
  lemma BuiltinClosed()
    ensures Closed(BUILTIN_AREAS)
  {
    var w := BUILTIN_AREAS;
    forall i, d | 0 <= i < |w| && IsOpen(Exit(w[i], d))
      ensures Named(w, Exit(w[i], d).value)
    {
      var target := Exit(w[i], d).value;
      if target == OUTSIDE { assert w[0].name == target; }
      else if target == FAIRY_ASYLUM { assert w[1].name == target; }
      else if target == CRIMSON_SANCTUM { assert w[2].name == target; }
      else if target == DINING_ROOM { assert w[3].name == target; }
      else if target == ROOM_OF_KNOWLEDGE { assert w[4].name == target; }
      else if target == DESOLATE_PRISON { assert w[5].name == target; }
      else { assert target == WATCHTOWER; assert w[6].name == target; }
    }
  }

  /** Looking up the start area in the built-in map finds its first area. */
  lemma FindOutside()
    ensures Find(BUILTIN_AREAS, OUTSIDE) == Some(BUILTIN_AREAS[0])
  {
  }
}
