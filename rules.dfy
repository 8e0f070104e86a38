/**
 * The rules of one turn and of a whole game, as functions of the player's
 * state: how an input line is classified, what a move does, what each command
 * costs, and when the game ends.
 */
module Rules {
  import opened Wrappers
  import opened World

  /** What an input line is classified as, in the command loop's precedence order. */
  datatype Command = Quit | Go(dir: Direction) | Take(text: string) | Drop(text: string) | ShowInventory | Confused

  /** The acknowledgement a turn renders (its text and colouring are not modelled). */
  datatype Feedback = Moved(dir: Direction) | Blocked(dir: Direction) | Took(text: string) | Dropped(text: string)
                    | Listed | Confusion

  /**
   * How a turn ends: the loop goes on, the game is over with a process exit
   * code, or the turn throws (a move attempted while the current area is
   * undefined).
   */
  datatype Outcome = Continue(feedback: Feedback) | GameOver(exitCode: int) | Fault

  /** The player's mutable state: health and the current area (`None` is undefined). */
  datatype PlayerState = PlayerState(health: int, area: Option<Area>)

  /** Where a game stands after a sequence of inputs. */
  datatype Status = Playing | Ended(exitCode: int) | Faulted
  datatype Session = Session(state: PlayerState, status: Status)

  /** The prompt glyph shown before each input. */
  datatype Glyph = Distress | Wary | Calm

  const START_HEALTH := 100
  /** What a move costs, whether it succeeds or is blocked. */
  const MOVE_COST := 5
  /** What an unrecognised input costs. */
  const CONFUSION_COST := 5

  /** The prompt's health band: below 20, below 50, or 50 and above. Cosmetic only. */
  function Mood(health: int): (g: Glyph)
    ensures g == Distress <==> health < 20
    ensures g == Wary <==> 20 <= health < 50
    ensures g == Calm <==> 50 <= health
  {
    if health < 20 then Distress
    else if health < 50 then Wary
    else Calm
  }

  /** The one-letter key of each direction in the directions table. */
  function Key(d: Direction): string
  {
    match d
    case North => "n"
    case South => "s"
    case East => "e"
    case West => "w"
  }

  /** The direction an input names, if it is exactly one of the four keys. */
  function DirectionOf(input: string): (r: Option<Direction>)
    ensures r.Some? <==> input in {"n", "s", "e", "w"}
    ensures r.Some? ==> Key(r.value) == input
  {
    if input == "n" then Some(North)
    else if input == "s" then Some(South)
    else if input == "e" then Some(East)
    else if input == "w" then Some(West)
    else None
  }

  /** Whether `s` begins with `prefix` (a regular expression anchored with `^`). */
  predicate StartsWith(s: string, prefix: string)
  {
    |prefix| <= |s| && s[..|prefix|] == prefix
  }

  /**
   * Classifies one raw input line (it is not trimmed) given the health
   * before the turn. The rules are tried in a fixed order and the first
   * that matches wins.
   */
  function Classify(input: string, health: int): (c: Command)
    ensures health <= 0 ==> c == Quit
    ensures c.Go? ==> Key(c.dir) == input
    ensures c.Take? || c.Drop? ==> c.text == input
  {
    if health <= 0 || input in {"q", "quit"} then Quit
    else if DirectionOf(input).Some? then Go(DirectionOf(input).value)
    else if StartsWith(input, "get") || StartsWith(input, "take") then Take(input)
    else if StartsWith(input, "drop") then Drop(input)
    else if input in {"i", "inventory"} then ShowInventory
    else Confused
  }

  /**
   * A move in direction `d` over the map `world`: an open exit is followed
   * by looking its name up in the map, a blocked exit leaves the area as it
   * is, and both cost MOVE_COST. With no current area the move throws
   * before anything changes.
   */
  function MoveSpec(world: seq<Area>, s: PlayerState, d: Direction): (r: (PlayerState, Outcome))
    ensures r.1 == Fault <==> s.area.None?
    ensures s.area.None? ==> r.0 == s
    ensures s.area.Some? ==> r.0.health == s.health - MOVE_COST
    ensures r.1 == Continue(Moved(d)) <==> s.area.Some? && IsOpen(Exit(s.area.value, d))
    ensures r.1 == Continue(Blocked(d)) ==> r.0.area == s.area
  {
    match s.area
    case None => (s, Fault)
    case Some(a) =>
      if IsOpen(Exit(a, d)) then
        (PlayerState(s.health - MOVE_COST, Find(world, Exit(a, d).value)), Continue(Moved(d)))
      else
        (PlayerState(s.health - MOVE_COST, s.area), Continue(Blocked(d)))
  }

  /**
   * One turn of the command loop on input `input`. A turn either ends the
   * game, with health forced to 0 and exit status 0, or lowers health by at
   * most 5 and never raises it.
   */
  function Step(world: seq<Area>, s: PlayerState, input: string): (r: (PlayerState, Outcome))
    ensures r.1.GameOver? ==> r == (PlayerState(0, s.area), GameOver(0))
    ensures !r.1.GameOver? ==> s.health - 5 <= r.0.health <= s.health
  {
    match Classify(input, s.health)
    case Quit => (PlayerState(0, s.area), GameOver(0))
    case Go(d) => MoveSpec(world, s, d)
    case Take(text) => (s, Continue(Took(text)))
    case Drop(text) => (s, Continue(Dropped(text)))
    case ShowInventory => (s, Continue(Listed))
    case Confused => (PlayerState(s.health - CONFUSION_COST, s.area), Continue(Confusion))
  }

  /**
   * Plays the inputs in order until one ends the game or throws; when the
   * inputs run out first the game is still waiting for input. A game that
   * ends always ends with health exactly 0 and exit status 0.
   */
  function Run(world: seq<Area>, s: PlayerState, inputs: seq<string>): (r: Session)
    ensures r.status.Ended? ==> r.status.exitCode == 0 && r.state.health == 0
    decreases |inputs|
  {
    if inputs == [] then Session(s, Playing)
    else
      var (next, outcome) := Step(world, s, inputs[0]);
      match outcome
      case Continue(_) => Run(world, next, inputs[1..])
      case GameOver(code) => Session(next, Ended(code))
      case Fault => Session(next, Faulted)
  }

  /**
   * The state a game starts in: full health, in the area named Outside,
   * which is defined exactly when the map has an area of that name.
   */
  function Start(world: seq<Area>): (s: PlayerState)
    ensures s.health == START_HEALTH
    ensures s.area.Some? <==> Named(world, OUTSIDE)
    ensures s.area.Some? ==> s.area.value.name == OUTSIDE && s.area.value in world
  {
    PlayerState(START_HEALTH, Find(world, OUTSIDE))
  }
}
