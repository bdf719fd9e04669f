/** The game as its rules see it: a grid, the banned ko recapture, and what a move does to both. */
module Rules {
  import opened Grid
  import opened Engine

  predicate Wall(c: Stone, eye: Stone) { c == eye || c == Off }

  predicate Interior(b: seq<Stone>, st: int, x: int) { st >= 3 && st <= x < |b| - st }

  /** All four neighbours of x have the colour eye or lie off the board. */
  predicate Walled(b: seq<Stone>, st: int, x: int, eye: Stone) {
    Interior(b, st, x) && Wall(b[x - st], eye) && Wall(b[x - 1], eye) && Wall(b[x + 1], eye) && Wall(b[x + st], eye)
  }

  /** No neighbour of x has the colour col. */
  predicate Lone(b: seq<Stone>, st: int, x: int, col: Stone) {
    Interior(b, st, x) && b[x - st] != col && b[x - 1] != col && b[x + 1] != col && b[x + st] != col
  }

  /** The stone would stand alone and be cleared by its own turn. */
  ghost predicate OneStoneSuicide(b: seq<Stone>, st: int, m: Move)
    requires 0 <= m.coord < |b|
  {
    Lone(b, st, m.coord, m.colour) && Turn(b, st, m.coord, m.colour)[m.coord] == Empty
  }

  ghost predicate Legal(b: seq<Stone>, st: int, ko: Move, m: Move)
    requires 0 <= m.coord < |b|
  {
    b[m.coord] == Empty && m != ko && !OneStoneSuicide(b, st, m)
  }

  /** The turn takes the single stone at x and nothing else. */
  ghost predicate TakesJust(b: seq<Stone>, st: int, m: Move, x: int)
    requires 0 <= m.coord < |b|
  {
    0 <= x < |b| && b[x] == Other(m.colour) && Turn(b, st, m.coord, m.colour) == b[m.coord := m.colour][x := Empty]
  }

  /** The recapture banned by a move: of the single stone it took from within an eye. */
  ghost function KoAfter(b: seq<Stone>, st: int, m: Move): Move
    requires 0 <= m.coord < |b|
  {
    if Walled(b, st, m.coord, Other(m.colour)) && exists x :: TakesJust(b, st, m, x) then
      var x :| TakesJust(b, st, m, x); Move(x, Other(m.colour))
    else NO_MOVE
  }

  /** A game position. */
  datatype Game = Game(b: seq<Stone>, ko: Move)

  /** One move: passes are always accepted and lift the ban. */
  ghost function Step(g: Game, st: int, m: Move): (r: (Game, bool))
    requires m.coord == PASS || 0 <= m.coord < |g.b|
  {
    if m.coord == PASS then (g.(ko := NO_MOVE), true)
    else if Legal(g.b, st, g.ko, m) then
      (Game(Turn(g.b, st, m.coord, m.colour), KoAfter(g.b, st, m)), true)
    else (g, false)
  }

  lemma TakesOne(b: seq<Stone>, st: int, m: Move, x: int, y: int)
    requires 0 <= m.coord < |b| && b[m.coord] == Empty && IsColour(m.colour)
    requires TakesJust(b, st, m, x) && TakesJust(b, st, m, y)
    ensures x == y
  {
    assert b[m.coord := m.colour][y := Empty][x] == if x == y then Empty else Other(m.colour);
  }
}
