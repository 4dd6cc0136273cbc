/** Grid coordinates as an immutable value (models/position.py). */
module Positions {
  import opened Wrappers

  /** A pair of integer coordinates; the constructor stores them unchanged. */
  datatype Position = Position(x: int, y: int)

  /**
   * The right-hand side of `==`: Python lets a Position be compared with any object,
   * so the other operand is either a Position or something else.
   */
  datatype Operand = Pos(p: Position) | Other

  /** Value equality: equal exactly when the other operand is a Position with the same coordinates. */
  function Equals(p: Position, other: Operand): (r: bool)
    ensures r <==> other == Pos(p)
    ensures other.Other? ==> !r
  {
    match other
    case Other => false
    case Pos(q) => p.x == q.x && p.y == q.y
  }

  /** Position equality is an equivalence relation. */
  lemma EqualsIsEquivalence(p: Position, q: Position, s: Position)
    ensures Equals(p, Pos(p))
    ensures Equals(p, Pos(q)) ==> Equals(q, Pos(p))
    ensures Equals(p, Pos(q)) && Equals(q, Pos(s)) ==> Equals(p, Pos(s))
  {
  }

  /** Two equal and one unequal position, as in the test suite. */
  lemma EqualsExamples()
    ensures Equals(Position(5, 5), Pos(Position(5, 5)))
    ensures !Equals(Position(5, 5), Pos(Position(6, 5)))
  {
  }

  /** The dictionary form: the keys "x" and "y" mapped to the stored coordinates. */
  function ToDict(p: Position): (m: map<string, int>)
    ensures m.Keys == {"x", "y"}
    ensures m["x"] == p.x && m["y"] == p.y
  {
    map["x" := p.x, "y" := p.y]
  }

  /** Reads a dictionary form back; `None` when a coordinate key is missing. */
  function FromDict(m: map<string, int>): (r: Option<Position>)
    ensures r.Some? <==> "x" in m && "y" in m
  {
    if "x" in m && "y" in m then Some(Position(m["x"], m["y"])) else None
  }

  /** The dictionary form loses nothing: reading it back gives the same position. */
  lemma FromDictToDict(p: Position)
    ensures FromDict(ToDict(p)) == Some(p)
  {
  }
}
