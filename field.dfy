/**
 * Tools/field.py: the 19x9 court grid.  Row 9 is the net; rows 0-8 are
 * T1's side and rows 10-18 T2's side.  A cell (`GridField`) records the
 * ball flag, the dorsal standing there (-1 when empty), the team label,
 * the net flag and the rotation number of the player standing there.
 * The cell's own row and column are its indices in the grid.
 */
module Fields {
  import opened Teams
  import opened LineUps

  const Rows: int := 19
  const Columns: int := 9
  const NetRow: int := 9

  /** One `GridField`. */
  datatype Cell = Cell(ball: bool, player: int, team: Label, isNet: bool, position: int)

  /** `GridField.is_empty`. */
  predicate IsEmpty(c: Cell)
  {
    c.player == -1
  }

  type Grid = seq<seq<Cell>>

  /** Rows x Columns. */
  predicate Shaped(g: Grid)
  {
    |g| == Rows && forall r :: 0 <= r < |g| ==> |g[r]| == Columns
  }

  /** A `GridField(r, c)` as the constructor builds it: no ball, no player, no label. */
  const BlankCell: Cell := Cell(false, -1, Blank, false, 0)

  /** The grid built by `Field()` and by `Field.reset`. */
  function FreshGrid(): Grid
  {
    seq(Rows, r => seq(Columns, c => BlankCell.(isNet := r == NetRow)))
  }

  type CourtGrid = g: Grid | Shaped(g) witness FreshGrid()

  /** `is_valid_grid`: the coordinate lies on the court. */
  predicate OnCourt(p: Coord)
  {
    0 <= p.0 < Rows && 0 <= p.1 < Columns
  }

  /** `is_valid_grid` accepts exactly the coordinates that index a cell of the grid. */
  function IsValidGrid(g: CourtGrid, p: Coord): (b: bool)
    ensures b <==> 0 <= p.0 < |g| && 0 <= p.1 < |g[p.0]|
  {
    0 <= p.0 < Rows && 0 <= p.1 < Columns
  }

  function At(g: CourtGrid, p: Coord): Cell
    requires OnCourt(p)
  {
    g[p.0][p.1]
  }

  /** The grid with cell p replaced. */
  function SetCell(g: CourtGrid, p: Coord, cell: Cell): (r: CourtGrid)
    requires OnCourt(p)
    ensures At(r, p) == cell
    ensures forall q :: OnCourt(q) && q != p ==> At(r, q) == At(g, q)
  {
    g[p.0 := g[p.0][p.1 := cell]]
  }

  /** Exactly the cells of row 9 of a fresh grid are net; none holds a ball or a player. */
  lemma FreshGridNet(p: Coord)
    requires OnCourt(p)
    ensures At(FreshGrid(), p).isNet <==> p.0 == NetRow
    ensures At(FreshGrid(), p) == BlankCell.(isNet := p.0 == NetRow)
  {
  }

  function Abs(x: int): nat
  {
    if x < 0 then -x else x
  }

  /** `Field.int_distance`: the Chebyshev distance max(|dr|, |dc|). */
  function IntDistance(a: Coord, b: Coord): nat
  {
    var dr := Abs(a.0 - b.0);
    var dc := Abs(a.1 - b.1);
    if dr >= dc then dr else dc
  }

  /** Chebyshev distance is symmetric, is 0 exactly on equal cells and obeys the triangle inequality. */
  lemma IntDistanceMetric(a: Coord, b: Coord, c: Coord)
    ensures IntDistance(a, b) == IntDistance(b, a)
    ensures IntDistance(a, b) == 0 <==> a == b
    ensures IntDistance(a, c) <= IntDistance(a, b) + IntDistance(b, c)
  {
  }

  /** `GridField.is_contiguous`: diagonal neighbours or orthogonal neighbours. */
  predicate IsContiguous(a: Coord, b: Coord)
  {
    (Abs(a.0 - b.0) == 1 && Abs(a.1 - b.1) == 1) || Abs(a.0 - b.0) + Abs(a.1 - b.1) == 1
  }

  /** Two cells are contiguous exactly when their Chebyshev distance is 1. */
  lemma ContiguousIffDistanceOne(a: Coord, b: Coord)
    ensures IsContiguous(a, b) <==> IntDistance(a, b) == 1
  {
  }

  /** The net-crossing test of `move_ball`. */
  predicate CrossesNet(srcRow: int, destRow: int)
  {
    (srcRow < NetRow <= destRow) || (srcRow > NetRow >= destRow)
  }

  /** A ball move across the net takes it from one side (or the net) to the other side. */
  lemma CrossesNetMeansSideChange(srcRow: int, destRow: int)
    ensures CrossesNet(srcRow, destRow) <==>
      (srcRow < NetRow && destRow >= NetRow) || (srcRow > NetRow && destRow <= NetRow)
  {
  }

  /** The grid after a successful `move_ball`: source flag cleared, then destination flag set. */
  function BallMoved(g: CourtGrid, src: Coord, dest: Coord): CourtGrid
    requires OnCourt(src) && OnCourt(dest)
  {
    var g1 := SetCell(g, src, At(g, src).(ball := false));
    SetCell(g1, dest, At(g1, dest).(ball := true))
  }

  /**
   * The grid after `move_player(src, dest)` when the source holds a
   * player: nothing changes when the destination is occupied; otherwise
   * the player, label and rotation number move and the source is reset
   * to (-1, "", 0).
   */
  function PlayerMoved(g: CourtGrid, src: Coord, dest: Coord): CourtGrid
    requires OnCourt(src) && OnCourt(dest)
  {
    var s := At(g, src);
    if !IsEmpty(At(g, dest)) then g
    else
      var g1 := SetCell(g, dest, At(g, dest).(player := s.player, team := s.team, position := s.position));
      SetCell(g1, src, At(g1, src).(player := -1, team := Blank, position := 0))
  }

  /**
   * What a `move_player` does to each cell: an occupied destination
   * blocks the move; otherwise the destination takes the source's
   * player, label and number, the source is emptied, and no ball flag
   * and no other cell changes.
   */
  lemma PlayerMovedCells(g: CourtGrid, src: Coord, dest: Coord)
    requires OnCourt(src) && OnCourt(dest) && !IsEmpty(At(g, src))
    ensures !IsEmpty(At(g, dest)) ==> PlayerMoved(g, src, dest) == g
    ensures IsEmpty(At(g, dest)) ==>
      var r := PlayerMoved(g, src, dest);
      && At(r, dest) == At(g, dest).(player := At(g, src).player, team := At(g, src).team, position := At(g, src).position)
      && At(r, src) == At(g, src).(player := -1, team := Blank, position := 0)
    ensures forall q :: OnCourt(q) ==> At(PlayerMoved(g, src, dest), q).ball == At(g, q).ball
    ensures forall q :: OnCourt(q) && q != src && q != dest ==> At(PlayerMoved(g, src, dest), q) == At(g, q)
  {
  }

  /**
   * Moving a player there and back restores the grid, except that an
   * empty destination ends with the label "" and number 0 whatever it
   * had before.
   */
  lemma PlayerMovedBack(g: CourtGrid, src: Coord, dest: Coord)
    requires OnCourt(src) && OnCourt(dest) && !IsEmpty(At(g, src))
    ensures PlayerMoved(PlayerMoved(g, src, dest), dest, src) ==
      if IsEmpty(At(g, dest)) then SetCell(g, dest, At(g, dest).(team := Blank, position := 0)) else g
  {
    if IsEmpty(At(g, dest)) {
      var r := PlayerMoved(PlayerMoved(g, src, dest), dest, src);
      var e := SetCell(g, dest, At(g, dest).(team := Blank, position := 0));
      assert forall q :: OnCourt(q) ==> At(r, q) == At(e, q);
      GridExt(r, e);
    }
  }

  /** Two grids that agree on every cell are equal. */
  lemma GridExt(a: CourtGrid, b: CourtGrid)
    requires forall q :: OnCourt(q) ==> At(a, q) == At(b, q)
    ensures a == b
  {
    forall r | 0 <= r < Rows
      ensures a[r] == b[r]
    {
      forall c | 0 <= c < Columns
        ensures a[r][c] == b[r][c]
      {
        assert At(a, (r, c)) == At(b, (r, c));
      }
    }
  }

  /** The cell update of the first loop of `conf_line_ups`: label by side, empty, no ball. */
  function LineUpCleared(r: int, c: Cell): Cell
  {
    c.(team := if r < NetRow then Of(T1) else if r > NetRow then Of(T2) else c.team,
       player := -1, position := 0, ball := false)
  }

  /** The cell update of the first loop of `rotate_players`: empty the cells labelled t. */
  function TeamCleared(t: Team, c: Cell): Cell
  {
    if c.team == Of(t) then c.(player := -1, team := Blank, position := 0) else c
  }

  /** The cell updates that the nested loops of the field apply to every cell. */
  datatype Sweep = ClearForLineUps | ClearTeam(t: Team)

  function Swept(s: Sweep, r: int, c: Cell): Cell
  {
    match s
    case ClearForLineUps => LineUpCleared(r, c)
    case ClearTeam(t) => TeamCleared(t, c)
  }

  /** The grid after a sweep over every cell. */
  function SweptGrid(s: Sweep, g: CourtGrid): (r: CourtGrid)
    ensures forall q :: OnCourt(q) ==> At(r, q) == Swept(s, q.0, At(g, q))
  {
    seq(Rows, i requires 0 <= i < Rows => seq(Columns, j requires 0 <= j < Columns => Swept(s, i, g[i][j])))
  }

  /** Every slot of the line-up names a cell of the court. */
  predicate SlotsOnCourt(m: Slots)
  {
    forall k :: k in m ==> OnCourt((m[k].row, m[k].col))
  }

  /** Rotating a line-up keeps its cells on the court. */
  lemma RotatedOnCourt(m: Slots)
    requires Complete(m) && SlotsOnCourt(m)
    ensures SlotsOnCourt(Rotated(m))
  {
    RotatedMovesContent(m);
  }

  /**
   * Seating slot k of a line-up: the cell takes the slot's dorsal, the
   * team label and the rotation number, and the ball when `withBall`.
   */
  function Seat(g: CourtGrid, gi: LineUpGrid, k: int, t: Team, withBall: bool): CourtGrid
    requires OnCourt((gi.row, gi.col))
  {
    var p := (gi.row, gi.col);
    var cell := At(g, p);
    SetCell(g, p, cell.(ball := withBall || cell.ball, player := gi.player, team := Of(t), position := k))
  }

  /**
   * The slots 1 .. n-1 of a line-up seated in rotation-number order; slot
   * 1 brings the ball when `ballOnOne`.
   */
  function SeatedUpTo(g: CourtGrid, m: Slots, t: Team, ballOnOne: bool, n: int): CourtGrid
    requires 1 <= n <= 7 && SlotsOnCourt(m)
    decreases n
  {
    if n == 1 then g
    else
      var prev := SeatedUpTo(g, m, t, ballOnOne, n - 1);
      if n - 1 in m then Seat(prev, m[n - 1], n - 1, t, ballOnOne && n - 1 == 1) else prev
  }

  /** All slots of a line-up seated. */
  function Seated(g: CourtGrid, m: Slots, t: Team, ballOnOne: bool): CourtGrid
    requires SlotsOnCourt(m)
  {
    SeatedUpTo(g, m, t, ballOnOne, 7)
  }

  /** The grid after `conf_line_ups(h, a, server)`. */
  function LineUpsPlaced(g: CourtGrid, h: Slots, a: Slots, server: Option<Team>): CourtGrid
    requires SlotsOnCourt(h) && SlotsOnCourt(a)
  {
    var cleared := SweptGrid(ClearForLineUps, g);
    Seated(Seated(cleared, h, T1, server == Some(T1)), a, T2, server == Some(T2))
  }

  /** The grid after `rotate_players(t, ...)`, given the already rotated slots of t. */
  function PlayersRotated(g: CourtGrid, rotated: Slots, t: Team): CourtGrid
    requires SlotsOnCourt(rotated)
  {
    Seated(SweptGrid(ClearTeam(t), g), rotated, t, true)
  }

  /** Seating never clears a ball flag. */
  lemma {:induction false} SeatedKeepsBalls(g: CourtGrid, m: Slots, t: Team, ballOnOne: bool, n: int, q: Coord)
    requires 1 <= n <= 7 && SlotsOnCourt(m) && OnCourt(q) && At(g, q).ball
    ensures At(SeatedUpTo(g, m, t, ballOnOne, n), q).ball
    decreases n
  {
    if n > 1 {
      SeatedKeepsBalls(g, m, t, ballOnOne, n - 1, q);
    }
  }

  /** Seating touches only the cells named by the slots 1 .. n-1. */
  lemma {:induction false} SeatedElsewhere(g: CourtGrid, m: Slots, t: Team, ballOnOne: bool, n: int, q: Coord)
    requires 1 <= n <= 7 && SlotsOnCourt(m) && OnCourt(q)
    requires forall k :: 1 <= k < n && k in m ==> (m[k].row, m[k].col) != q
    ensures At(SeatedUpTo(g, m, t, ballOnOne, n), q) == At(g, q)
    decreases n
  {
    if n > 1 {
      SeatedElsewhere(g, m, t, ballOnOne, n - 1, q);
    }
  }

  /** The cell of the last slot below n that names q, if any. */
  function LastSlotAt(m: Slots, q: Coord, n: int): (r: Option<int>)
    requires 1 <= n <= 7
    decreases n
    ensures r.Some? ==> 1 <= r.value < n && r.value in m && (m[r.value].row, m[r.value].col) == q
    ensures r.Some? ==> forall k :: r.value < k < n && k in m ==> (m[k].row, m[k].col) != q
    ensures r.None? ==> forall k :: 1 <= k < n && k in m ==> (m[k].row, m[k].col) != q
  {
    if n == 1 then None
    else if n - 1 in m && (m[n - 1].row, m[n - 1].col) == q then Some(n - 1)
    else LastSlotAt(m, q, n - 1)
  }

  /**
   * After seating, a cell named by some slot holds the player, label and
   * number of the last such slot, and keeps its net flag; a cell no slot
   * names is unchanged.
   */
  lemma {:induction false} SeatedCell(g: CourtGrid, m: Slots, t: Team, ballOnOne: bool, n: int, q: Coord)
    requires 1 <= n <= 7 && SlotsOnCourt(m) && OnCourt(q)
    ensures var c := At(SeatedUpTo(g, m, t, ballOnOne, n), q);
      match LastSlotAt(m, q, n)
      case None => c == At(g, q)
      case Some(k) => c.player == m[k].player && c.team == Of(t) && c.position == k
                      && c.isNet == At(g, q).isNet
    decreases n
  {
    if n > 1 {
      SeatedCell(g, m, t, ballOnOne, n - 1, q);
    }
  }

  /** When asked, the ball is set on slot 1's cell and stays there while the later slots are seated. */
  lemma SeatedBall(g: CourtGrid, m: Slots, t: Team, n: int, q: Coord)
    requires 1 < n <= 7 && SlotsOnCourt(m) && OnCourt(q)
    requires 1 in m && (m[1].row, m[1].col) == q
    ensures At(SeatedUpTo(g, m, t, true, n), q).ball
  {
    assert At(SeatedUpTo(g, m, t, true, 2), q).ball;
    SeatedBallStays(g, m, t, true, n, q);
  }

  /** A ball already present after seating slot 1 survives the later slots. */
  lemma {:induction false} SeatedBallStays(g: CourtGrid, m: Slots, t: Team, ballOnOne: bool, n: int, q: Coord)
    requires 2 <= n <= 7 && SlotsOnCourt(m) && OnCourt(q)
    requires At(SeatedUpTo(g, m, t, ballOnOne, 2), q).ball
    ensures At(SeatedUpTo(g, m, t, ballOnOne, n), q).ball
    decreases n
  {
    if n > 2 {
      SeatedBallStays(g, m, t, ballOnOne, n - 1, q);
    }
  }

  /** The probes of the `find_*` scans. */
  datatype Probe =
    | BallProbe
    | PlayerProbe(dorsal: int, team: Team)
    | PositionProbe(positionNumber: int, team: Team)

  predicate Matches(c: Cell, p: Probe)
  {
    match p
    case BallProbe => c.ball
    case PlayerProbe(d, t) => c.player == d && c.team == Of(t)
    case PositionProbe(n, t) => c.team == Of(t) && c.position == n
  }

  /** The first column at or after `from` of a row whose cell matches. */
  function FirstInRow(row: seq<Cell>, p: Probe, from: nat): (r: Option<int>)
    requires from <= |row|
    decreases |row| - from
    ensures r.Some? ==>
      from <= r.value < |row| && Matches(row[r.value], p) && forall j :: from <= j < r.value ==> !Matches(row[j], p)
    ensures r.None? ==> forall j :: from <= j < |row| ==> !Matches(row[j], p)
  {
    if from == |row| then None
    else if Matches(row[from], p) then Some(from)
    else FirstInRow(row, p, from + 1)
  }

  /** The first matching cell, in row-major order, at or after row `from`. */
  function FirstFrom(g: CourtGrid, p: Probe, from: nat): (r: Option<Coord>)
    requires from <= Rows
    decreases Rows - from
    ensures r.Some? ==> from <= r.value.0 && OnCourt(r.value) && Matches(At(g, r.value), p)
  {
    if from == Rows then None
    else match FirstInRow(g[from], p, 0)
      case Some(c) => Some((from, c))
      case None => FirstFrom(g, p, from + 1)
  }

  /** The first matching cell of the grid in row-major order. */
  function FirstWhere(g: CourtGrid, p: Probe): (r: Option<Coord>)
    ensures r.Some? ==> OnCourt(r.value) && Matches(At(g, r.value), p)
  {
    FirstFrom(g, p, 0)
  }

  /** (r', c') comes before (r, c) in row-major order. */
  predicate Before(a: Coord, b: Coord)
  {
    a.0 < b.0 || (a.0 == b.0 && a.1 < b.1)
  }

  /**
   * `FirstFrom` finds a matching cell at or after row `from` with no
   * matching cell before it, or reports that none of those rows matches.
   */
  lemma {:induction false} FirstFromSpec(g: CourtGrid, p: Probe, from: nat)
    requires from <= Rows
    decreases Rows - from
    ensures match FirstFrom(g, p, from)
      case Some(q) => OnCourt(q) && from <= q.0 && Matches(At(g, q), p)
        && forall q' :: OnCourt(q') && from <= q'.0 && Before(q', q) ==> !Matches(At(g, q'), p)
      case None => forall q' :: OnCourt(q') && from <= q'.0 ==> !Matches(At(g, q'), p)
  {
    if from < Rows {
      FirstFromSpec(g, p, from + 1);
    }
  }

  /** `FirstWhere` is the first match in row-major order, or None when no cell matches. */
  lemma FirstWhereSpec(g: CourtGrid, p: Probe)
    ensures match FirstWhere(g, p)
      case Some(q) => OnCourt(q) && Matches(At(g, q), p)
        && forall q' :: OnCourt(q') && Before(q', q) ==> !Matches(At(g, q'), p)
      case None => forall q' :: OnCourt(q') ==> !Matches(At(g, q'), p)
  {
    FirstFromSpec(g, p, 0);
  }

  /** A matching cell with no match before it is the one the scan finds. */
  lemma FirstWhereUnique(g: CourtGrid, p: Probe, q: Coord)
    requires OnCourt(q) && Matches(At(g, q), p)
    requires forall q' :: OnCourt(q') && Before(q', q) ==> !Matches(At(g, q'), p)
    ensures FirstWhere(g, p) == Some(q)
  {
    FirstWhereSpec(g, p);
  }

  /** Setting the ball on the cell a player or position scan finds leaves that scan's answer as it was. */
  lemma BallSetKeepsScan(g: CourtGrid, p: Probe, q: Coord)
    requires !p.BallProbe? && FirstWhere(g, p) == Some(q)
    ensures OnCourt(q)
    ensures FirstWhere(SetCell(g, q, At(g, q).(ball := true)), p) == Some(q)
  {
    FirstWhereSpec(g, p);
    var g' := SetCell(g, q, At(g, q).(ball := true));
    assert Matches(At(g', q), p);
    FirstWhereUnique(g', p, q);
  }

  /** The playing field owned by a game. */
  class Field {
    var grid: CourtGrid

    /** `Field()`: a 19x9 grid of empty cells whose row 9 is net. */
    constructor ()
      ensures grid == FreshGrid()
    {
      var g := BuildGrid();
      grid := g;
    }

    /** `Field.reset`: a fresh grid again. */
    method Reset()
      modifies this
      ensures grid == FreshGrid()
    {
      grid := BuildGrid();
    }

    /** `conf_line_ups`: clear the court by side, then seat both line-ups; slot 1 of the server gets the ball. */
    method ConfLineUps(h: LineUp, a: LineUp, server: Option<Team>)
      requires SlotsOnCourt(h.slots) && SlotsOnCourt(a.slots)
      modifies this
      ensures grid == LineUpsPlaced(old(grid), h.slots, a.slots, server)
    {
      SweepAll(ClearForLineUps);
      SeatLineUp(h.slots, T1, server == Some(T1));
      SeatLineUp(a.slots, T2, server == Some(T2));
    }

    /** `rotate_players`: rotate t's line-up, empty t's cells, re-seat the rotated slots with the ball on slot 1. */
    method RotatePlayers(t: Team, toRotate: LineUp, other: LineUp)
      requires Complete(toRotate.slots) && SlotsOnCourt(toRotate.slots)
      modifies this, toRotate
      ensures toRotate.slots == Rotated(old(toRotate.slots))
      ensures SlotsOnCourt(toRotate.slots)
      ensures grid == PlayersRotated(old(grid), toRotate.slots, t)
    {
      toRotate.Rotate();
      SweepAll(ClearTeam(t));
      SeatLineUp(toRotate.slots, t, true);
    }

    /** One of the nested clearing loops. */
    method SweepAll(s: Sweep)
      modifies this
      ensures grid == SweptGrid(s, old(grid))
    {
      ghost var g0 := grid;
      for r := 0 to Rows
        invariant forall i :: 0 <= i < r ==> grid[i] == SweptGrid(s, g0)[i]
        invariant forall i :: r <= i < Rows ==> grid[i] == g0[i]
      {
        var row := grid[r];
        for c := 0 to Columns
          invariant |row| == Columns
          invariant forall j :: 0 <= j < c ==> row[j] == Swept(s, r, g0[r][j])
          invariant forall j :: c <= j < Columns ==> row[j] == g0[r][j]
        {
          row := row[c := Swept(s, r, row[c])];
        }
        grid := grid[r := row];
      }
    }

    /** One of the seating loops over a line-up's items. */
    method SeatLineUp(m: Slots, t: Team, ballOnOne: bool)
      requires SlotsOnCourt(m)
      modifies this
      ensures grid == Seated(old(grid), m, t, ballOnOne)
    {
      ghost var g0 := grid;
      for n := 1 to 7
        invariant grid == SeatedUpTo(g0, m, t, ballOnOne, n)
      {
        if n in m {
          var gi := m[n];
          var cell := grid[gi.row][gi.col];
          if n == 1 && ballOnOne {
            cell := cell.(ball := true);
          }
          grid := grid[gi.row := grid[gi.row][gi.col := cell.(player := gi.player, team := Of(t), position := n)]];
        }
      }
    }

    /** `find_player_in_position`: the first cell of team t with that rotation number, or None. */
    method FindPlayerInPosition(positionNumber: int, t: Team) returns (r: Option<Coord>)
      ensures r == FirstWhere(grid, PositionProbe(positionNumber, t))
    {
      r := Scan(PositionProbe(positionNumber, t));
    }

    /** `find_player`: the first cell holding that dorsal for team t; None where the source raises. */
    method FindPlayer(dorsal: int, t: Team) returns (r: Option<Coord>)
      ensures r == FirstWhere(grid, PlayerProbe(dorsal, t))
    {
      r := Scan(PlayerProbe(dorsal, t));
    }

    /** `find_ball`: the first cell with the ball; None where the source raises. */
    method FindBall() returns (r: Option<Coord>)
      ensures r == FirstWhere(grid, BallProbe)
    {
      r := Scan(BallProbe);
    }

    /** The row-major scan shared by the `find_*` methods. */
    method Scan(p: Probe) returns (r: Option<Coord>)
      ensures r == FirstWhere(grid, p)
    {
      for row := 0 to Rows
        invariant FirstFrom(grid, p, 0) == FirstFrom(grid, p, row)
      {
        for col := 0 to Columns
          invariant FirstInRow(grid[row], p, 0) == FirstInRow(grid[row], p, col)
        {
          if Matches(grid[row][col], p) {
            return Some((row, col));
          }
        }
      }
      return None;
    }

    /**
     * `move_ball`: raises (ok false, grid unchanged) when the source has
     * no ball; otherwise moves the flag and reports whether the ball
     * crossed the net.
     */
    method MoveBall(src: Coord, dest: Coord) returns (crossed: bool, ok: bool)
      requires OnCourt(src) && OnCourt(dest)
      modifies this
      ensures ok <==> At(old(grid), src).ball
      ensures ok ==> grid == BallMoved(old(grid), src, dest) && crossed == CrossesNet(src.0, dest.0)
      ensures !ok ==> grid == old(grid)
    {
      if !grid[src.0][src.1].ball {
        return false, false;
      }
      grid := grid[src.0 := grid[src.0][src.1 := grid[src.0][src.1].(ball := false)]];
      grid := grid[dest.0 := grid[dest.0][dest.1 := grid[dest.0][dest.1].(ball := true)]];
      crossed := (src.0 < NetRow <= dest.0) || (src.0 > NetRow >= dest.0);
      ok := true;
    }

    /**
     * `move_player`: raises (ok false, grid unchanged) on an empty
     * source; otherwise the grid becomes `PlayerMoved`.
     */
    method MovePlayer(src: Coord, dest: Coord) returns (ok: bool)
      requires OnCourt(src) && OnCourt(dest)
      modifies this
      ensures ok <==> !IsEmpty(At(old(grid), src))
      ensures grid == if ok then PlayerMoved(old(grid), src, dest) else old(grid)
    {
      var playerField := grid[src.0][src.1];
      if playerField.player == -1 {
        return false;
      }
      ok := true;
      if grid[dest.0][dest.1].player != -1 {
        return;
      }
      var d := grid[dest.0][dest.1];
      grid := grid[dest.0 := grid[dest.0][dest.1 := d.(player := playerField.player, team := playerField.team, position := playerField.position)]];
      var s := grid[src.0][src.1];
      grid := grid[src.0 := grid[src.0][src.1 := s.(player := -1, team := Blank, position := 0)]];
    }
  }

  /** The comprehension and the net loop of `Field()` / `Field.reset`. */
  method BuildGrid() returns (g: CourtGrid)
    ensures g == FreshGrid()
  {
    var rows: seq<seq<Cell>> := [];
    for r := 0 to Rows
      invariant |rows| == r
      invariant forall i :: 0 <= i < r ==> rows[i] == seq(Columns, c => BlankCell)
    {
      rows := rows + [seq(Columns, c => BlankCell)];
    }
    var net := rows[NetRow];
    for c := 0 to Columns
      invariant |net| == Columns
      invariant forall j :: 0 <= j < c ==> net[j] == BlankCell.(isNet := true)
      invariant forall j :: c <= j < Columns ==> net[j] == BlankCell
    {
      net := net[c := net[c].(isNet := true)];
    }
    rows := rows[NetRow := net];
    assert forall i :: 0 <= i < Rows ==> rows[i] == FreshGrid()[i];
    g := rows;
  }
}
