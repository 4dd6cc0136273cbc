/** The robot's four compass headings (models/direction.py). */
module Directions {
  import opened Wrappers

  /** A heading. The grid's y axis grows downward, so NORTH is "up" on screen. */
  datatype Direction = NORTH | EAST | SOUTH | WEST

  /** The enum value the program attaches to each heading. */
  function Value(d: Direction): (v: nat)
    ensures v < 4
  {
    match d
    case NORTH => 0
    case EAST => 1
    case SOUTH => 2
    case WEST => 3
  }

  /** The heading whose enum value is `v`: the enum's lookup by value. */
  function FromValue(v: nat): (d: Direction)
    requires v < 4
    ensures Value(d) == v
  {
    if v == 0 then NORTH else if v == 1 then EAST else if v == 2 then SOUTH else WEST
  }

  /** The heading after a quarter turn clockwise: the next enum value, modulo 4. */
  function TurnRight(d: Direction): (r: Direction)
    ensures Value(r) == (Value(d) + 1) % 4
    ensures r == match d
                 case NORTH => EAST
                 case EAST => SOUTH
                 case SOUTH => WEST
                 case WEST => NORTH
  {
    FromValue((Value(d) + 1) % 4)
  }

  function Abs(n: int): nat { if n < 0 then -n else n }

  /** The unit step (dx, dy) taken when moving along a heading; y grows downward. */
  function Vector(d: Direction): (v: (int, int))
    ensures Abs(v.0) + Abs(v.1) == 1
  {
    match d
    case NORTH => (0, -1)
    case EAST => (1, 0)
    case SOUTH => (0, 1)
    case WEST => (-1, 0)
  }

  /** Distinct headings step in distinct directions. */
  lemma VectorInjective(d: Direction, e: Direction)
    ensures Vector(d) == Vector(e) <==> d == e
  {
  }

  /** A right turn rotates the step vector clockwise in y-down coordinates: (dx, dy) becomes (-dy, dx). */
  lemma TurnRightRotatesVector(d: Direction)
    ensures Vector(TurnRight(d)) == (-Vector(d).1, Vector(d).0)
  {
  }

  /** Two right turns face the opposite way: a different heading whose step is the negated step. */
  lemma TurnAroundReverses(d: Direction)
    ensures TurnRight(TurnRight(d)) != d
    ensures Vector(TurnRight(TurnRight(d))) == (-Vector(d).0, -Vector(d).1)
  {
  }

  /** `n` successive right turns. */
  function TurnRightTimes(d: Direction, n: nat): Direction
  {
    if n == 0 then d else TurnRight(TurnRightTimes(d, n - 1))
  }

  /** `n` right turns add `n` to the enum value, modulo 4. */
  lemma {:induction false} TurnRightTimesValue(d: Direction, n: nat)
    ensures TurnRightTimes(d, n) == FromValue((Value(d) + n) % 4)
  {
    if n > 0 {
      TurnRightTimesValue(d, n - 1);
    }
  }

  /** Turning `m` times and then `n` times is turning `m + n` times. */
  lemma {:induction false} TurnRightTimesAdd(d: Direction, m: nat, n: nat)
    ensures TurnRightTimes(TurnRightTimes(d, m), n) == TurnRightTimes(d, m + n)
  {
    if n > 0 {
      TurnRightTimesAdd(d, m, n - 1);
    }
  }

  /** Four right turns are the identity. */
  lemma FourTurnsIdentity(d: Direction)
    ensures TurnRightTimes(d, 4) == d
  {
  }

  lemma ModFour(k: nat)
    ensures k % 4 == (k + 4) % 4
  {
  }

  /** Only the number of right turns modulo 4 matters. */
  lemma {:induction false} TurnRightTimesPeriodic(d: Direction, n: nat)
    ensures TurnRightTimes(d, n) == TurnRightTimes(d, n % 4)
  {
    if n >= 4 {
      var k: nat := n - 4;
      calc {
        TurnRightTimes(d, n);
        { TurnRightTimesAdd(d, 4, k); }
        TurnRightTimes(TurnRightTimes(d, 4), k);
        { FourTurnsIdentity(d); }
        TurnRightTimes(d, k);
        { TurnRightTimesPeriodic(d, k); }
        TurnRightTimes(d, k % 4);
        { ModFour(k); }
        TurnRightTimes(d, n % 4);
      }
    } else {
      assert n % 4 == n;
    }
  }

  /** The enum member's name. */
  function ToString(d: Direction): (s: string)
    ensures |s| > 0 && Upper(s) == s
  {
    var s := match d
      case NORTH => "NORTH"
      case EAST => "EAST"
      case SOUTH => "SOUTH"
      case WEST => "WEST";
    UpperIdentity(s);
    s
  }

  /** Upper-casing of one character (ASCII letters only). */
  function UpperChar(c: char): char
  {
    if 'a' <= c <= 'z' then (c as int - 'a' as int + 'A' as int) as char else c
  }

  /** Python's `str.upper()`, restricted to ASCII letters. */
  function Upper(s: string): string
  {
    seq(|s|, i requires 0 <= i < |s| => UpperChar(s[i]))
  }

  /** A string with no lower-case letter is its own upper-case form. */
  lemma UpperIdentity(s: string)
    requires forall i :: 0 <= i < |s| ==> !('a' <= s[i] <= 'z')
    ensures Upper(s) == s
  {
  }

  /** Upper-casing twice is upper-casing once. */
  lemma UpperIdempotent(s: string)
    ensures Upper(Upper(s)) == Upper(s)
  {
    UpperIdentity(Upper(s));
  }

  /** Distinct headings have distinct names. */
  lemma ToStringInjective(d: Direction, e: Direction)
    ensures ToString(d) == ToString(e) <==> d == e
  {
  }

  /**
   * The heading named by `s`, compared after upper-casing. A name that is not one of
   * the four is a lookup failure, here `None`.
   */
  function FromString(s: string): (r: Option<Direction>)
    ensures r.Some? <==> exists d :: ToString(d) == Upper(s)
    ensures r.Some? ==> ToString(r.value) == Upper(s)
  {
    var u := Upper(s);
    if u == ToString(NORTH) then Some(NORTH)
    else if u == ToString(EAST) then Some(EAST)
    else if u == ToString(SOUTH) then Some(SOUTH)
    else if u == ToString(WEST) then Some(WEST)
    else None
  }

  /** Parsing a heading's name gives back the heading. */
  lemma FromStringToString(d: Direction)
    ensures FromString(ToString(d)) == Some(d)
  {
    ToStringInjective(d, FromString(ToString(d)).value);
  }

  /** Parsing ignores case: a string and its upper-case form name the same heading. */
  lemma FromStringIgnoresCase(s: string)
    ensures FromString(Upper(s)) == FromString(s)
  {
    UpperIdempotent(s);
  }

  /** Mixed-case names are accepted and an unknown name is rejected. */
  lemma FromStringExamples()
    ensures FromString("north") == Some(NORTH)
    ensures FromString("East") == Some(EAST)
    ensures FromString("sOuTh") == Some(SOUTH)
    ensures FromString("west") == Some(WEST)
    ensures FromString("up") == None
  {
    assert Upper("sOuTh") == "SOUTH";
    assert Upper("west") == "WEST";
    assert Upper("up") == "UP";
  }
}
