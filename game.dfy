/**
 * The running game: the map object, the player whose health and current
 * area change in place, and the command loop that feeds it one input per
 * turn.
 */
module Game {
  import opened Wrappers
  import opened World
  import opened Rules
  import Properties

  /** The world map: built once, read-only afterwards. */
  class WorldMap {
    const areas: seq<Area>

    /** Builds the seven built-in areas, appended in order to an initially empty list. */
    constructor()
      ensures areas == BUILTIN_AREAS
    {
      var built: seq<Area> := [];
      built := built + BUILTIN_AREAS;
      areas := built;
    }

    /** The first area whose name is exactly `name`, or `None` when there is none. */
    function Area(name: string): (r: Option<World.Area>)
      ensures r.None? <==> forall i :: 0 <= i < |areas| ==> areas[i].name != name
      ensures r.Some? ==> exists i :: 0 <= i < |areas| && areas[i] == r.value && r.value.name == name &&
                                      forall j :: 0 <= j < i ==> areas[j].name != name
    {
      Find(areas, name)
    }
  }

  /** The single player: health and current area, both updated in place. */
  class Player {
    const world: WorldMap
    var health: int
    var currentArea: Option<World.Area>

    /** A new player in `area` of `world`, at full health. */
    constructor(world: WorldMap, area: Option<World.Area>)
      ensures this.world == world && health == START_HEALTH && currentArea == area
    {
      this.world := world;
      health := START_HEALTH;
      currentArea := area;
    }

    /** The player's health and area as a value. */
    function State(): PlayerState
      reads this
    {
      PlayerState(health, currentArea)
    }

    /**
     * Moves in direction `d`: an open exit is followed by looking its name up
     * in the map, a blocked one leaves the area unchanged, and either way
     * health drops by 5. With no current area the move throws and changes
     * nothing.
     */
    method Move(d: Direction) returns (o: Outcome)
      modifies this
      ensures old(currentArea).None? ==> o == Fault && health == old(health) && currentArea == old(currentArea)
      ensures old(currentArea).Some? ==> health == old(health) - MOVE_COST
      ensures old(currentArea).Some? && IsOpen(Exit(old(currentArea).value, d)) ==>
                currentArea == world.Area(Exit(old(currentArea).value, d).value) && o == Continue(Moved(d))
      ensures old(currentArea).Some? && !IsOpen(Exit(old(currentArea).value, d)) ==>
                currentArea == old(currentArea) && o == Continue(Blocked(d))
      ensures (State(), o) == MoveSpec(world.areas, old(State()), d)
    {
      if currentArea.None? {
        return Fault;
      }
      var next := Exit(currentArea.value, d);
      if IsOpen(next) {
        currentArea := world.Area(next.value);
        o := Continue(Moved(d));
      } else {
        o := Continue(Blocked(d));
      }
      health := health - MOVE_COST;
    }

    /** Acknowledges a take; nothing is stored and no state changes. */
    method Take(action: string) returns (fb: Feedback)
      ensures fb == Took(action)
    {
      fb := Took(action);
    }

    /** Acknowledges a drop; nothing is stored and no state changes. */
    method Drop(action: string) returns (fb: Feedback)
      ensures fb == Dropped(action)
    {
      fb := Dropped(action);
    }

    /** Shows the inventory placeholder; no state changes. */
    method Inventory() returns (fb: Feedback)
      ensures fb == Listed
    {
      fb := Listed;
    }

    /**
     * One pass of the command loop's body on `input`: game over first (health
     * forced to 0, exit status 0), then a move, take, drop or inventory, and
     * otherwise confusion at a cost of 5.
     */
    method Turn(input: string) returns (o: Outcome)
      modifies this
      ensures old(health) <= 0 || input == "q" || input == "quit" ==>
                o == GameOver(0) && health == 0 && currentArea == old(currentArea)
      ensures (State(), o) == Step(world.areas, old(State()), input)
    {
      var command := Classify(input, health);
      match command
      case Quit =>
        health := 0;
        o := GameOver(0);
      case Go(d) =>
        o := Move(d);
      case Take(text) =>
        var fb := Take(text);
        o := Continue(fb);
      case Drop(text) =>
        var fb := Drop(text);
        o := Continue(fb);
      case ShowInventory =>
        var fb := Inventory();
        o := Continue(fb);
      case Confused =>
        health := health - CONFUSION_COST;
        o := Continue(Confusion);
    }
  }

  /**
   * The command loop: builds the map, places a full-health player Outside
   * and plays `inputs` one per turn until one ends the game or throws. When
   * the inputs run out the game is still waiting for the next one.
   */
  method Adventure(inputs: seq<string>) returns (r: Session)
    ensures r == Run(BUILTIN_AREAS, Start(BUILTIN_AREAS), inputs)
    ensures r.status != Faulted && r.state.area.Some? && r.state.area.value in BUILTIN_AREAS
    ensures 0 <= r.state.health <= START_HEALTH
    ensures r.status.Ended? ==> r.status == Ended(0) && r.state.health == 0
  {
    var worldMap := new WorldMap();
    var player := new Player(worldMap, worldMap.Area(OUTSIDE));
    var i := 0;
    while i < |inputs|
      invariant 0 <= i <= |inputs|
      invariant player.world == worldMap
      invariant Run(BUILTIN_AREAS, Start(BUILTIN_AREAS), inputs) == Run(BUILTIN_AREAS, player.State(), inputs[i..])
    {
      var o := player.Turn(inputs[i]);
      assert inputs[i..][1..] == inputs[i + 1..];
      i := i + 1;
      match o
      case GameOver(code) =>
        r := Session(player.State(), Ended(code));
        Properties.BuiltinGame(inputs);
        return;
      case Fault =>
        r := Session(player.State(), Faulted);
        Properties.BuiltinGame(inputs);
        return;
      case Continue(_) =>
    }
    r := Session(player.State(), Playing);
    Properties.BuiltinGame(inputs);
  }
}
