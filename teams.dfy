/**
 * Shared vocabulary of the simulator: the two teams, the team label of a
 * grid cell, and the optional/fallible results used throughout.
 * The source spells teams as the strings "T1" and "T2" (Tools/enum.py).
 */
module Teams {

  /** The two sides of a match. */
  datatype Team = T1 | T2

  /**
   * `Game.get_opponent_team`: "T1 if team == T2 else T2".
   * The same expression is written inline by most actions and triggers.
   */
  function Opponent(t: Team): (o: Team)
    ensures o != t
    ensures t.T1? <==> o.T2?
  {
    if t == T2 then T1 else T2
  }

  /** The team label of a grid cell: the empty string or a team name. */
  datatype Label = Blank | Of(team: Team)

  datatype Option<T> = None | Some(value: T)

  /** Some member of a non-empty set, as iterating over the set would yield first. */
  method Pick<T>(s: set<T>) returns (x: T)
    requires s != {}
    ensures x in s
  {
    x :| x in s;
  }

  /** A grid coordinate (row, column). */
  type Coord = (int, int)
}
