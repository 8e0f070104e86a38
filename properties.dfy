/**
 * Properties of the rules: the precedence of the classification, the cost
 * and effect of each command, the ending of the game, and what holds over
 * every sequence of inputs played from the start of a game.
 */
module Properties {
  import opened Wrappers
  import opened World
  import opened Rules

  /** A string that begins with a non-empty prefix begins with its first character. */
  lemma PrefixHead(s: string, prefix: string)
    requires prefix != [] && StartsWith(s, prefix)
    ensures s[0] == prefix[0]
  {
    assert s[..|prefix|][0] == s[0];
  }

  /** The directions table and its keys are inverse: each direction is named by exactly one key. */
  lemma DirectionKeys(d: Direction, input: string)
    ensures DirectionOf(Key(d)) == Some(d)
    ensures DirectionOf(input) == Some(d) <==> input == Key(d)
  {
  }

  /**
   * First-match precedence, resolved: for each command, exactly the inputs
   * that reach it once the earlier rules have been tried. In particular a
   * quit or an exhausted player always ends the game, every input beginning
   * with "get" or "take" is a take, and every input beginning with "drop" is
   * a drop.
   */
  lemma ClassifyExact(input: string, health: int)
    ensures Classify(input, health) == Quit <==> health <= 0 || input == "q" || input == "quit"
    ensures Classify(input, health).Go? <==> 0 < health && input in {"n", "s", "e", "w"}
    ensures Classify(input, health).Go? ==> Key(Classify(input, health).dir) == input
    ensures Classify(input, health).Take? <==>
              0 < health && (StartsWith(input, "get") || StartsWith(input, "take"))
    ensures Classify(input, health).Drop? <==> 0 < health && StartsWith(input, "drop")
    ensures Classify(input, health).Take? || Classify(input, health).Drop? ==>
              Classify(input, health).text == input
    ensures Classify(input, health) == ShowInventory <==> 0 < health && (input == "i" || input == "inventory")
    ensures Classify(input, health) == Confused <==>
              0 < health && input !in {"q", "quit", "n", "s", "e", "w", "i", "inventory"} &&
              !StartsWith(input, "get") && !StartsWith(input, "take") && !StartsWith(input, "drop")
  {
    if StartsWith(input, "get") { PrefixHead(input, "get"); }
    if StartsWith(input, "take") { PrefixHead(input, "take"); }
    if StartsWith(input, "drop") { PrefixHead(input, "drop"); }
  }

  /**
   * The value-level form of the contract of Game.Player.Move, stated over
   * MoveSpec so that the lemmas about whole games can use it.
   * A move costs MOVE_COST whether or not it succeeds; an open exit leads to
   * the area the map finds under the exit's name, a blocked exit keeps the
   * current area. Without a current area the move throws and nothing changes.
   */
  lemma MoveEffect(world: seq<Area>, s: PlayerState, d: Direction)
    ensures s.area.None? ==> MoveSpec(world, s, d) == (s, Fault)
    ensures s.area.Some? ==> MoveSpec(world, s, d).0.health == s.health - MOVE_COST
    ensures s.area.Some? && IsOpen(Exit(s.area.value, d)) ==>
              MoveSpec(world, s, d).0.area == Find(world, Exit(s.area.value, d).value) &&
              MoveSpec(world, s, d).1 == Continue(Moved(d))
    ensures s.area.Some? && !IsOpen(Exit(s.area.value, d)) ==>
              MoveSpec(world, s, d).0.area == s.area &&
              MoveSpec(world, s, d).1 == Continue(Blocked(d))
  {
  }

  /**
   * Game over comes before every other rule: with no health left, or on
   * "q" or "quit", the turn sets health to exactly 0 and exits with status
   * 0, whatever the health was (positive on a quit, or already negative).
   */
  lemma StepGameOver(world: seq<Area>, s: PlayerState, input: string)
    requires s.health <= 0 || input == "q" || input == "quit"
    ensures Step(world, s, input) == (PlayerState(0, s.area), GameOver(0))
  {
  }

  /**
   * What each command does to the state: a move and an unrecognised input
   * each cost exactly 5, take, drop and inventory change nothing, and only a
   * move can change the current area.
   */
  lemma StepEffect(world: seq<Area>, s: PlayerState, input: string)
    ensures var c := Classify(input, s.health);
            var (next, outcome) := Step(world, s, input);
            (c.Take? || c.Drop? || c == ShowInventory ==> next == s && outcome.Continue?) &&
            (c == Confused ==> next == PlayerState(s.health - CONFUSION_COST, s.area) && outcome == Continue(Confusion)) &&
            (c.Go? && s.area.Some? ==> next.health == s.health - MOVE_COST && outcome.Continue?) &&
            (!c.Go? ==> next.area == s.area)
  {
  }

  /**
   * The health values a game starting from full health can reach: never
   * negative, and always a multiple of the common cost of 5.
   */
  ghost predicate HealthInv(health: int)
  {
    0 <= health && health % 5 == 0
  }

  /**
   * From such a health, a turn never raises health and keeps it in range:
   * a positive health is at least 5, so a cost of 5 cannot take it below 0,
   * a reset caused by exhausted health only happens at exactly 0, and a
   * reset caused by a quit only lowers health.
   */
  lemma StepHealth(world: seq<Area>, s: PlayerState, input: string)
    requires HealthInv(s.health)
    ensures HealthInv(Step(world, s, input).0.health)
    ensures Step(world, s, input).0.health <= s.health
  {
  }

  /** Playing `a` and then `b` is playing `a + b`, unless the game ended during `a`. */
  lemma {:induction false} RunAppend(world: seq<Area>, s: PlayerState, a: seq<string>, b: seq<string>)
    ensures var first := Run(world, s, a);
            Run(world, s, a + b) == if first.status == Playing then Run(world, first.state, b) else first
    decreases |a|
  {
    if a != [] {
      assert (a + b)[0] == a[0];
      assert (a + b)[1..] == a[1..] + b;
      var (next, outcome) := Step(world, s, a[0]);
      if outcome.Continue? {
        RunAppend(world, next, a[1..], b);
      }
    } else {
      assert a + b == b;
    }
  }

  /** Over any sequence of inputs, health stays in range and never exceeds where it started. */
  lemma {:induction false} RunHealth(world: seq<Area>, s: PlayerState, inputs: seq<string>)
    requires HealthInv(s.health)
    ensures HealthInv(Run(world, s, inputs).state.health)
    ensures Run(world, s, inputs).state.health <= s.health
    decreases |inputs|
  {
    if inputs != [] {
      StepHealth(world, s, inputs[0]);
      var (next, outcome) := Step(world, s, inputs[0]);
      if outcome.Continue? {
        RunHealth(world, next, inputs[1..]);
      }
    }
  }

  /**
   * Health never goes up during play: after more of the same inputs, health
   * is at most what it was after fewer.
   */
  lemma HealthNeverRises(world: seq<Area>, s: PlayerState, inputs: seq<string>, j: nat, k: nat)
    requires HealthInv(s.health)
    requires j <= k <= |inputs|
    ensures Run(world, s, inputs[..k]).state.health <= Run(world, s, inputs[..j]).state.health
  {
    var first := Run(world, s, inputs[..j]);
    assert inputs[..k] == inputs[..j] + inputs[j..k];
    RunAppend(world, s, inputs[..j], inputs[j..k]);
    if first.status == Playing {
      RunHealth(world, s, inputs[..j]);
      RunHealth(world, first.state, inputs[j..k]);
    }
  }

  /** The player stands in an area of the map. */
  ghost predicate InWorld(world: seq<Area>, s: PlayerState)
  {
    s.area.Some? && s.area.value in world
  }

  /**
   * On a map without dangling exits, a turn taken in an area of the map
   * never throws and leaves the player in an area of the map.
   */
  lemma StepInWorld(world: seq<Area>, s: PlayerState, input: string)
    requires Closed(world) && InWorld(world, s)
    ensures Step(world, s, input).1 != Fault
    ensures InWorld(world, Step(world, s, input).0)
  {
    var c := Classify(input, s.health);
    if c.Go? {
      var a := s.area.value;
      var e := Exit(a, c.dir);
      if IsOpen(e) {
        var i :| 0 <= i < |world| && world[i] == a;
        assert Named(world, Exit(world[i], c.dir).value);
        assert Find(world, e.value).Some?;
      }
    }
  }

  /**
   * On a map without dangling exits, no sequence of inputs played from an
   * area of the map throws or reaches an area that is not found.
   */
  lemma {:induction false} RunInWorld(world: seq<Area>, s: PlayerState, inputs: seq<string>)
    requires Closed(world) && InWorld(world, s)
    ensures Run(world, s, inputs).status != Faulted
    ensures InWorld(world, Run(world, s, inputs).state)
    decreases |inputs|
  {
    if inputs != [] {
      StepInWorld(world, s, inputs[0]);
      var (next, outcome) := Step(world, s, inputs[0]);
      if outcome.Continue? {
        RunInWorld(world, next, inputs[1..]);
      }
    }
  }

  /**
   * Any game on the built-in map, from full health Outside: it never
   * throws, the player is always in one of its seven areas, health stays
   * between 0 and 100, and a game that ends does so with health 0 and exit
   * status 0.
   */
  lemma BuiltinGame(inputs: seq<string>)
    ensures var r := Run(BUILTIN_AREAS, Start(BUILTIN_AREAS), inputs);
            r.status != Faulted && InWorld(BUILTIN_AREAS, r.state) &&
            0 <= r.state.health <= START_HEALTH && r.state.health % 5 == 0 &&
            (r.status.Ended? ==> r.status.exitCode == 0 && r.state.health == 0)
  {
    BuiltinClosed();
    FindOutside();
    RunInWorld(BUILTIN_AREAS, Start(BUILTIN_AREAS), inputs);
    RunHealth(BUILTIN_AREAS, Start(BUILTIN_AREAS), inputs);
  }

  /** Outside at full health, "n" leads to the Fairy Asylum at 95. */
  lemma ScenarioNorthFromOutside()
    ensures Step(BUILTIN_AREAS, Start(BUILTIN_AREAS), "n") ==
              (PlayerState(95, Some(BUILTIN_AREAS[1])), Continue(Moved(North)))
    ensures BUILTIN_AREAS[1].name == FAIRY_ASYLUM
  {
    FindOutside();
    assert Find(BUILTIN_AREAS, FAIRY_ASYLUM) == Some(BUILTIN_AREAS[1]);
  }

  /** In the Crimson Sanctum at 50, "e" is blocked: the area stays and health drops to 45. */
  lemma ScenarioBlockedEast()
    ensures var s := PlayerState(50, Some(BUILTIN_AREAS[2]));
            Step(BUILTIN_AREAS, s, "e") == (PlayerState(45, s.area), Continue(Blocked(East)))
  {
  }

  /**
   * At 3, an unrecognised input costs 5 and leaves health at -2; the next
   * input of any kind ends the game with health 0 and status 0.
   */
  lemma ScenarioExhaustion(s: PlayerState, next: string)
    requires s.health == 3
    ensures Run(BUILTIN_AREAS, s, ["gibberish", next]) == Session(PlayerState(0, s.area), Ended(0))
    ensures Run(BUILTIN_AREAS, s, ["gibberish"]).state.health == -2
  {
    var g := "gibberish";
    assert g[..3][2] == 'b' && g[..4][0] == 'g';
    assert Classify(g, 3) == Confused;
    var s' := PlayerState(-2, s.area);
    assert Step(BUILTIN_AREAS, s, g) == (s', Continue(Confusion));
    assert [g, next][1..] == [next];
    assert Run(BUILTIN_AREAS, s', [next]) == Session(PlayerState(0, s.area), Ended(0));
  }

  /** "quit" at full health ends the game at once with health forced to 0. */
  lemma ScenarioQuit(s: PlayerState)
    requires s.health == START_HEALTH
    ensures Run(BUILTIN_AREAS, s, ["quit", "n"]) == Session(PlayerState(0, s.area), Ended(0))
  {
  }
}
