/**
 * Agents/player_agent.py: what a player may do next.  The player finds
 * its own cell, looks at the cells around it, and lists its legal
 * actions: Nothing always, then a serve, a dig, a set and an attack,
 * moves to empty neighbouring cells, or a block and a receive, depending
 * on who serves, where the ball is and how many touches are left.
 * Nothing here changes the game.
 */
module PlayerAgents {
  import opened Teams
  import opened Fields
  import opened Games
  import opened Actions

  /** The radius `get_perceptions` passes to `neighbor_grids`. */
  const PerceptionRadius: int := 100

  /** The cells of the court from the k-th on, in the row-major order the grid is scanned in. */
  function RowMajorFrom(k: nat): (r: seq<Coord>)
    requires k <= Rows * Columns
    ensures |r| == Rows * Columns - k
    ensures forall j :: 0 <= j < |r| ==> r[j] == ((k + j) / Columns, (k + j) % Columns)
    decreases Rows * Columns - k
  {
    if k == Rows * Columns then [] else [(k / Columns, k % Columns)] + RowMajorFrom(k + 1)
  }

  /** Every cell of the court, row by row. */
  function AllCells(): seq<Coord>
  {
    RowMajorFrom(0)
  }

  /** The listing holds every cell of the court, and only those. */
  lemma AllCellsOnCourt(q: Coord)
    ensures q in AllCells() <==> OnCourt(q)
  {
    var all := AllCells();
    if OnCourt(q) {
      var k := q.0 * Columns + q.1;
      assert k / Columns == q.0 && k % Columns == q.1;
      assert all[k] == q;
    }
    if q in all {
      var j :| 0 <= j < |all| && all[j] == q;
      assert q == (j / Columns, j % Columns);
    }
  }

  /** The square of the Euclidean distance `Field.distance` takes the root of. */
  function SquaredDistance(a: Coord, b: Coord): nat
  {
    (a.0 - b.0) * (a.0 - b.0) + (a.1 - b.1) * (a.1 - b.1)
  }

  /** The cells of cs within `radius` of p, in their order: the loop of `neighbor_grids`. */
  function Within(p: Coord, cs: seq<Coord>, radius: nat): (r: seq<Coord>)
    ensures forall q :: q in r <==> q in cs && SquaredDistance(p, q) <= radius * radius
  {
    if cs == [] then []
    else (if SquaredDistance(p, cs[0]) <= radius * radius then [cs[0]] else []) + Within(p, cs[1..], radius)
  }

  /** `neighbor_grids(p, 100)`. */
  function Visible(p: Coord): seq<Coord>
  {
    Within(p, AllCells(), PerceptionRadius)
  }

  /** Every cell of the court is at most 18 rows and 8 columns away from any other. */
  lemma CourtSpan(p: Coord, q: Coord)
    requires OnCourt(p) && OnCourt(q)
    ensures SquaredDistance(p, q) <= 18 * 18 + 8 * 8
  {
    var x, y := p.0 - q.0, p.1 - q.1;
    var dr, dc := if x < 0 then -x else x, if y < 0 then -y else y;
    assert x * x == dr * dr && dr * dr <= dr * 18 <= 18 * 18;
    assert y * y == dc * dc && dc * dc <= dc * 8 <= 8 * 8;
  }

  /** The whole court is within a radius of 100 of every cell: a player sees every cell, in scan order. */
  lemma {:induction false} VisibleIsAll(p: Coord)
    requires OnCourt(p)
    ensures Visible(p) == AllCells()
  {
    WithinKeepsAll(p, AllCells());
  }

  lemma {:induction false} WithinKeepsAll(p: Coord, cs: seq<Coord>)
    requires OnCourt(p) && forall q :: q in cs ==> OnCourt(q)
    ensures Within(p, cs, PerceptionRadius) == cs
  {
    if cs != [] {
      CourtSpan(p, cs[0]);
      WithinKeepsAll(p, cs[1..]);
    }
  }

  /**
   * `get_perceptions`: the player's own cell and the cells it sees; None
   * where `find_player` raises because the player is not on the grid.
   */
  function Perceptions(s: GameState, dorsal: int, t: Team): (r: Option<(seq<Coord>, Coord)>)
    ensures r.Some? ==> OnCourt(r.value.1) && At(s.grid, r.value.1).player == dorsal
                        && At(s.grid, r.value.1).team == Of(t)
    ensures r.None? <==> FirstWhere(s.grid, PlayerProbe(dorsal, t)).None?
  {
    match FirstWhere(s.grid, PlayerProbe(dorsal, t))
    case None => None
    case Some(p) => Some((Visible(p), p))
  }

  /** The perceived cells are all on the court, so every one of them can be looked at. */
  lemma PerceivedOnCourt(s: GameState, dorsal: int, t: Team)
    requires Perceptions(s, dorsal, t).Some?
    ensures forall q :: q in Perceptions(s, dorsal, t).value.0 <==> OnCourt(q)
  {
    var p := Perceptions(s, dorsal, t).value.1;
    VisibleIsAll(p);
    forall q
      ensures q in AllCells() <==> OnCourt(q)
    {
      AllCellsOnCourt(q);
    }
  }

  /** `empty_adjacent_grids`: the visible cells next to p that hold no player, in order. */
  function EmptyAdjacent(g: CourtGrid, visible: seq<Coord>, p: Coord): (r: seq<Coord>)
    requires forall q :: q in visible ==> OnCourt(q)
    ensures forall q :: q in r <==> q in visible && IsContiguous(p, q) && IsEmpty(At(g, q))
  {
    if visible == [] then []
    else
      var q := visible[0];
      (if IsContiguous(p, q) && IsEmpty(At(g, q)) then [q] else []) + EmptyAdjacent(g, visible[1..], p)
  }

  /** `friendly_grids`: the visible cells labelled with the player's team, in order. */
  function FriendlyGrids(g: CourtGrid, visible: seq<Coord>, t: Team): (r: seq<Coord>)
    requires forall q :: q in visible ==> OnCourt(q)
    ensures forall q :: q in r <==> q in visible && At(g, q).team == Of(t)
  {
    if visible == [] then []
    else
      var q := visible[0];
      (if At(g, q).team == Of(t) then [q] else []) + FriendlyGrids(g, visible[1..], t)
  }

  /** One Move from p to each cell of dests, in order. */
  function MovesTo(p: Coord, dests: seq<Coord>, dorsal: int, t: Team): (r: seq<Action>)
    ensures |r| == |dests| && forall j :: 0 <= j < |r| ==> r[j] == Action(Move(p, dests[j]), dorsal, t)
  {
    if dests == [] then [] else [Action(Move(p, dests[0]), dorsal, t)] + MovesTo(p, dests[1..], dorsal, t)
  }

  /** `is_our_serve(t) and is_player_server(dorsal)`; None where the second raises. */
  function ServesNow(s: GameState, dorsal: int, t: Team): Option<bool>
  {
    if !IsOurServe(s, t) then Some(false) else IsPlayerServer(s, dorsal)
  }

  /**
   * `construct_actions(game, visible, p)`: Nothing first; a serve for the
   * server of the serving team; with the ball on the player's side a dig
   * when it is within three cells, otherwise a set and an attack while
   * the team has touches left and the moves; with the ball on the other
   * side a block and a receive against an attack, otherwise the moves.
   * None where a lookup of the ball or of a player raises.
   */
  function ConstructActions(s: GameState, dorsal: int, t: Team, visible: seq<Coord>, p: Coord): (r: Option<seq<Action>>)
    requires forall q :: q in visible ==> OnCourt(q)
    ensures r.Some? ==> r.value != [] && r.value[0] == Action(Nothing, dorsal, t)
    ensures r.Some? ==> forall a :: a in r.value ==> a.player == dorsal && a.team == t
  {
    var nothing := Action(Nothing, dorsal, t);
    var moves := MovesTo(p, EmptyAdjacent(s.grid, visible, p), dorsal, t);
    match ServesNow(s, dorsal, t)
    case None => None
    case Some(true) => Some([nothing, Action(Serve, dorsal, t)])
    case Some(false) =>
      match IsBallOnOurSide(s, t)
      case None => None
      case Some(true) =>
        (match IsBallComingToPlayer(s, dorsal, t)
         case None => None
         case Some(true) => Some([nothing, Action(Dig, dorsal, t)])
         case Some(false) =>
           var strikes := if TouchesOf(s, t) < 3 then [Action(Set, dorsal, t), Action(Attack, dorsal, t)] else [];
           Some([nothing] + strikes + moves))
      case Some(false) =>
        if IsOpponentAttacking(s, t) then Some([nothing, Action(Block, dorsal, t), Action(Receive, dorsal, t)])
        else Some([nothing] + moves)
  }

  /** `Player.possible_actions(game)`: perceive, then construct. */
  function PlayerActions(s: GameState, dorsal: int, t: Team): (r: Option<seq<Action>>)
    ensures r.Some? ==> Perceptions(s, dorsal, t).Some?
  {
    match Perceptions(s, dorsal, t)
    case None => None
    case Some((visible, p)) =>
      PerceivedOnCourt(s, dorsal, t);
      ConstructActions(s, dorsal, t, visible, p)
  }

  /** A serve is offered exactly to the server of the serving team, and then nothing but Nothing besides. */
  lemma ServeOffered(s: GameState, dorsal: int, t: Team, visible: seq<Coord>, p: Coord)
    requires forall q :: q in visible ==> OnCourt(q)
    requires ConstructActions(s, dorsal, t, visible, p).Some?
    ensures var r := ConstructActions(s, dorsal, t, visible, p).value;
      (Action(Serve, dorsal, t) in r <==> IsOurServe(s, t) && IsPlayerServer(s, dorsal) == Some(true))
      && (Action(Serve, dorsal, t) in r ==> r == [Action(Nothing, dorsal, t), Action(Serve, dorsal, t)])
  {
    var r := ConstructActions(s, dorsal, t, visible, p).value;
    var moves := MovesTo(p, EmptyAdjacent(s.grid, visible, p), dorsal, t);
    assert Action(Serve, dorsal, t) !in moves;
  }

  /**
   * Past the serve, with the ball on the player's side, a dig is offered
   * exactly when the ball is within Chebyshev distance 3 of the player,
   * and then nothing else is.
   */
  lemma DigOffered(s: GameState, dorsal: int, t: Team, visible: seq<Coord>, p: Coord)
    requires forall q :: q in visible ==> OnCourt(q)
    requires ConstructActions(s, dorsal, t, visible, p).Some?
    ensures var r := ConstructActions(s, dorsal, t, visible, p).value;
      (Action(Dig, dorsal, t) in r <==>
        ServesNow(s, dorsal, t) == Some(false) && IsBallOnOurSide(s, t) == Some(true)
        && IsBallComingToPlayer(s, dorsal, t) == Some(true))
      && (Action(Dig, dorsal, t) in r ==> r == [Action(Nothing, dorsal, t), Action(Dig, dorsal, t)])
  {
    var moves := MovesTo(p, EmptyAdjacent(s.grid, visible, p), dorsal, t);
    assert Action(Dig, dorsal, t) !in moves;
  }

  /**
   * A set or an attack is offered only while the team has made fewer than
   * three touches (the three-touch cap), and both are offered together.
   */
  lemma StrikesNeedTouches(s: GameState, dorsal: int, t: Team, visible: seq<Coord>, p: Coord)
    requires forall q :: q in visible ==> OnCourt(q)
    requires ConstructActions(s, dorsal, t, visible, p).Some?
    ensures var r := ConstructActions(s, dorsal, t, visible, p).value;
      (Action(Set, dorsal, t) in r <==> Action(Attack, dorsal, t) in r)
      && (Action(Set, dorsal, t) in r <==>
            ServesNow(s, dorsal, t) == Some(false) && IsBallOnOurSide(s, t) == Some(true)
            && IsBallComingToPlayer(s, dorsal, t) == Some(false) && TouchesOf(s, t) < 3)
  {
    var moves := MovesTo(p, EmptyAdjacent(s.grid, visible, p), dorsal, t);
    assert Action(Set, dorsal, t) !in moves && Action(Attack, dorsal, t) !in moves;
  }

  /** A block and a receive are offered together, exactly when the ball is on the other side and the opponent is attacking. */
  lemma DefenceOffered(s: GameState, dorsal: int, t: Team, visible: seq<Coord>, p: Coord)
    requires forall q :: q in visible ==> OnCourt(q)
    requires ConstructActions(s, dorsal, t, visible, p).Some?
    ensures var r := ConstructActions(s, dorsal, t, visible, p).value;
      (Action(Block, dorsal, t) in r <==> Action(Receive, dorsal, t) in r)
      && (Action(Block, dorsal, t) in r <==>
            ServesNow(s, dorsal, t) == Some(false) && IsBallOnOurSide(s, t) == Some(false)
            && IsOpponentAttacking(s, t))
  {
    var moves := MovesTo(p, EmptyAdjacent(s.grid, visible, p), dorsal, t);
    assert Action(Block, dorsal, t) !in moves && Action(Receive, dorsal, t) !in moves;
  }

  /**
   * Every move offered starts at the player's cell and ends on a visible
   * empty cell next to it; where moves are offered at all, every such
   * cell gets one.
   */
  lemma MovesOffered(s: GameState, dorsal: int, t: Team, visible: seq<Coord>, p: Coord)
    requires forall q :: q in visible ==> OnCourt(q)
    requires ConstructActions(s, dorsal, t, visible, p).Some?
    ensures var r := ConstructActions(s, dorsal, t, visible, p).value;
      forall a :: a in r && a.kind.Move? ==>
        a.kind.src == p && a.kind.dest in visible && IsContiguous(p, a.kind.dest) && IsEmpty(At(s.grid, a.kind.dest))
    ensures var r := ConstructActions(s, dorsal, t, visible, p).value;
      var movesAllowed := ServesNow(s, dorsal, t) == Some(false) &&
        ((IsBallOnOurSide(s, t) == Some(true) && IsBallComingToPlayer(s, dorsal, t) == Some(false))
         || (IsBallOnOurSide(s, t) == Some(false) && !IsOpponentAttacking(s, t)));
      movesAllowed ==>
        forall q :: q in visible && IsContiguous(p, q) && IsEmpty(At(s.grid, q)) ==> Action(Move(p, q), dorsal, t) in r
  {
    var r := ConstructActions(s, dorsal, t, visible, p).value;
    var dests := EmptyAdjacent(s.grid, visible, p);
    var moves := MovesTo(p, dests, dorsal, t);
    forall a | a in r && a.kind.Move?
      ensures a.kind.src == p && a.kind.dest in dests
    {
      assert a in moves;
      var j :| 0 <= j < |moves| && moves[j] == a;
    }
    forall q | q in dests
      ensures Action(Move(p, q), dorsal, t) in moves
    {
      var j :| 0 <= j < |dests| && dests[j] == q;
      assert moves[j] == Action(Move(p, q), dorsal, t);
    }
  }

  /**
   * The branch of `construct_actions` for a ball on the other side: there
   * the source calls `game.is_opponent_attacking()` without the team the
   * method takes, which raises a TypeError.
   */
  predicate ReachesDefence(s: GameState, dorsal: int, t: Team)
  {
    ServesNow(s, dorsal, t) == Some(false) && IsBallOnOurSide(s, t) == Some(false)
  }

  /** `construct_actions` as written: it raises wherever it reaches the call without an argument. */
  function ConstructActionsAsWritten(s: GameState, dorsal: int, t: Team, visible: seq<Coord>, p: Coord): Option<seq<Action>>
    requires forall q :: q in visible ==> OnCourt(q)
  {
    if ReachesDefence(s, dorsal, t) then None else ConstructActions(s, dorsal, t, visible, p)
  }

  /**
   * As written, a player on the side without the ball never gets a list
   * of actions; with the team passed, it always gets one, holding a block
   * and a receive against an attack.
   */
  lemma AsWrittenRaisesWithoutBall(s: GameState, dorsal: int, t: Team, visible: seq<Coord>, p: Coord)
    requires forall q :: q in visible ==> OnCourt(q)
    requires ReachesDefence(s, dorsal, t)
    ensures ConstructActionsAsWritten(s, dorsal, t, visible, p).None?
    ensures var r := ConstructActions(s, dorsal, t, visible, p);
      r.Some? && (IsOpponentAttacking(s, t) ==> Action(Block, dorsal, t) in r.value && Action(Receive, dorsal, t) in r.value)
  {
    DefenceOffered(s, dorsal, t, visible, p);
  }
}
