/** Block coordinates, the four horizontal block faces a bed can face, and
    entity locations. Coordinates are unbounded integers; entity locations are
    exact reals where the server uses doubles. */
module Geometry {

  /** The integer coordinates of one world cell. */
  datatype Pos = Pos(x: int, y: int, z: int)

  /** A horizontal block face. North is towards -z, east towards +x. */
  datatype Face = North | East | South | West

  /** The exact location of an entity (a player, a mob). */
  datatype Loc = Loc(x: real, y: real, z: real)

  function ModX(f: Face): int
  {
    match f
    case East => 1
    case West => -1
    case _ => 0
  }

  function ModZ(f: Face): int
  {
    match f
    case North => -1
    case South => 1
    case _ => 0
  }

  /** The face pointing the other way. */
  function Opposite(f: Face): (o: Face)
    ensures ModX(o) == -ModX(f) && ModZ(o) == -ModZ(f)
    ensures o != f
  {
    match f
    case North => South
    case East => West
    case South => North
    case West => East
  }

  /** The cell at offset (dx, dy, dz) from p. */
  function Relative(p: Pos, dx: int, dy: int, dz: int): Pos
  {
    Pos(p.x + dx, p.y + dy, p.z + dz)
  }

  /** The horizontal neighbour of p across face f. */
  function Step(p: Pos, f: Face): (q: Pos)
    ensures q != p && q.y == p.y
  {
    Relative(p, ModX(f), 0, ModZ(f))
  }

  /** Stepping across a face and back across its opposite returns to p. */
  lemma StepBack(p: Pos, f: Face)
    ensures Step(Step(p, f), Opposite(f)) == p
    ensures Step(Step(p, Opposite(f)), f) == p
  {
  }

  function Below(p: Pos): Pos
  {
    Relative(p, 0, -1, 0)
  }

  function Above(p: Pos): Pos
  {
    Relative(p, 0, 1, 0)
  }

  function AbsReal(r: real): (a: real)
    ensures a >= 0.0 && (a == r || a == -r)
  {
    if r < 0.0 then -r else r
  }
}
