/**
 * Tools/game.py: the match state — scores, sets, serve, touches, the
 * history of points — and the rules that change it.  `GameState` is the
 * value a `Game` object holds; the functions over it say what each `Game`
 * method does, and the class `Game` at the end carries out the same steps
 * in place.
 */
module Games {
  import opened Teams
  import opened Stats
  import opened LineUps
  import opened Fields
  import opened Rosters

  const MaxSets: int := 5
  const SetsToWin: int := 3

  /** One entry of `points_history`: {"team", "score", "set"}. */
  datatype PointRecord = PointRecord(team: Team, score: int, setNumber: int)

  /** The score board: points and sets of each team, the set being played, and the server. */
  datatype Board = Board(
    t1Score: int,
    t2Score: int,
    t1Sets: int,
    t2Sets: int,
    currentSet: int,
    servingTeam: Team)

  /** The state of the rally in play: touches, possession and the last touch and fault. */
  datatype Rally = Rally(
    touchesT1: int,
    touchesT2: int,
    generalTouches: int,
    possession: Team,
    rallyOver: bool,
    hasBallLanded: bool,
    lastTeamTouched: Option<Team>,
    lastPlayerTouched: Option<int>,
    lastFaultTeam: Option<Team>)

  /**
   * The attributes of a `Game`, the two teams' data and the field's grid.
   * The source keeps the scalars as flat attributes; here they are
   * grouped into the board and the rally.
   */
  datatype GameState = GameState(
    t1: TeamView,
    t2: TeamView,
    grid: CourtGrid,
    board: Board,
    rally: Rally,
    pointsHistory: seq<PointRecord>,
    instance: int,
    cantInstances: int)

  function TeamOf(s: GameState, t: Team): TeamView
  {
    if t == T1 then s.t1 else s.t2
  }

  function WithTeam(s: GameState, t: Team, v: TeamView): (r: GameState)
    ensures TeamOf(r, t) == v && TeamOf(r, Opponent(t)) == TeamOf(s, Opponent(t))
  {
    if t == T1 then s.(t1 := v) else s.(t2 := v)
  }

  /** `get_team_score`. */
  function ScoreOf(s: GameState, t: Team): int
  {
    if t == T1 then s.board.t1Score else s.board.t2Score
  }

  function WithScore(s: GameState, t: Team, n: int): (r: GameState)
    ensures ScoreOf(r, t) == n && ScoreOf(r, Opponent(t)) == ScoreOf(s, Opponent(t))
  {
    if t == T1 then s.(board := s.board.(t1Score := n)) else s.(board := s.board.(t2Score := n))
  }

  function SetsOf(s: GameState, t: Team): int
  {
    if t == T1 then s.board.t1Sets else s.board.t2Sets
  }

  /** `touches[t]`. */
  function TouchesOf(s: GameState, t: Team): int
  {
    if t == T1 then s.rally.touchesT1 else s.rally.touchesT2
  }

  /**
   * What the rules need of a team for the game to run: a line-up holding
   * the six rotation numbers, on cells of the court, and a roster whose
   * dorsals are exactly those with player counters.
   */
  predicate TeamReady(v: TeamView)
  {
    Complete(v.slots) && SlotsOnCourt(v.slots) && v.playersStatistics.Keys == v.data.Keys
  }

  predicate Ready(s: GameState)
  {
    TeamReady(s.t1) && TeamReady(s.t2)
  }

  /** A state reached by an operation, and whether it completed (false: it raised there). */
  datatype Step = Step(state: GameState, ok: bool)

  /** `has_set_ended`: someone reached 25 and leads by two. */
  predicate SetOver(s: GameState)
  {
    (s.board.t1Score >= PointsToWinSet || s.board.t2Score >= PointsToWinSet) && Abs(s.board.t1Score - s.board.t2Score) >= 2
  }

  /** `is_finish`: a team has won three sets. */
  predicate IsFinish(s: GameState)
  {
    s.board.t1Sets == SetsToWin || s.board.t2Sets == SetsToWin
  }

  /** The server of a new set: the coin toss for set 5, T1 for odd sets, T2 for even ones. */
  function NextServer(currentSet: int, coin: bool): Team
  {
    if currentSet == MaxSets then (if coin then T1 else T2)
    else if currentSet % 2 == 1 then T1 else T2
  }

  /**
   * `end_set`: the set goes to T1 when it leads, otherwise to T2; scores
   * restart; unless the match is over the field is rebuilt, the next
   * server chosen, and the line-ups placed with the ball given to the
   * team that does not serve (the team name passed at line 123).
   */
  function SetEnded(s: GameState, coin: bool): (r: GameState)
    requires Ready(s)
    ensures Ready(r)
    ensures r.t1 == s.t1 && r.t2 == s.t2 && r.pointsHistory == s.pointsHistory && r.rally.possession == s.rally.possession
    ensures r.rally.touchesT1 == s.rally.touchesT1 && r.rally.touchesT2 == s.rally.touchesT2 && r.rally.generalTouches == s.rally.generalTouches
    ensures r.rally.lastTeamTouched == s.rally.lastTeamTouched
  {
    var b := s.board;
    var b1 := if b.t1Score > b.t2Score then b.(t1Sets := b.t1Sets + 1) else b.(t2Sets := b.t2Sets + 1);
    var s2 := s.(board := b1.(t1Score := 0, t2Score := 0, currentSet := b.currentSet + 1));
    if IsFinish(s2) then s2
    else
      var server := NextServer(s2.board.currentSet, coin);
      s2.(board := s2.board.(servingTeam := server),
          grid := LineUpsPlaced(FreshGrid(), s2.t1.slots, s2.t2.slots, Some(Opponent(server))))
  }

  /** Lines 40-66 of `score_point`: possession, counters, score, history. */
  function Awarded(s: GameState, t: Team): (r: Step)
    ensures Ready(s) ==> Ready(r.state)
    ensures r.state.rally.possession == t && r.state.board.servingTeam == s.board.servingTeam
    ensures r.ok <==> CreditPlayer(TeamOf(s, t), s.rally.lastPlayerTouched, s.rally.generalTouches).Some?
    ensures r.ok ==> ScoreOf(r.state, t) == ScoreOf(s, t) + 1 && ScoreOf(r.state, Opponent(t)) == ScoreOf(s, Opponent(t))
    ensures r.ok ==> r.state.pointsHistory == s.pointsHistory + [PointRecord(t, ScoreOf(s, t) + 1, s.board.currentSet)]
    ensures r.state.board.currentSet == s.board.currentSet
    ensures TeamOf(r.state, t).slots == TeamOf(s, t).slots && TeamOf(r.state, Opponent(t)) == TeamOf(s, Opponent(t))
  {
    match CreditPlayer(TeamOf(s, t), s.rally.lastPlayerTouched, s.rally.generalTouches)
    case None => Step(s.(rally := s.rally.(possession := t)), false)
    case Some(v) =>
      var n := ScoreOf(s, t) + 1;
      var s1 := WithScore(WithTeam(s, t, CreditTeam(v, n)), t, n);
      Step(s1.(rally := s1.rally.(possession := t), pointsHistory := s.pointsHistory + [PointRecord(t, n, s.board.currentSet)]), true)
  }

  /** `rotate_players(t, ...)` on the state: t's line-up rotates and is re-seated. */
  function RotateTeam(s: GameState, t: Team): (r: GameState)
    requires Ready(s)
    ensures Ready(r)
    ensures TeamOf(r, t).slots == Rotated(TeamOf(s, t).slots)
    ensures TeamOf(r, Opponent(t)) == TeamOf(s, Opponent(t))
    ensures r.(t1 := s.t1, t2 := s.t2, grid := s.grid) == s
  {
    var v := TeamOf(s, t);
    var rotated := Rotated(v.slots);
    RotatedOnCourt(v.slots);
    WithTeam(s, t, v.(slots := rotated)).(grid := PlayersRotated(s.grid, rotated, t))
  }

  /** Lines 68-81: side-out and the reset of touches. */
  function SideOut(s: GameState, t: Team): (r: GameState)
    requires Ready(s)
    ensures Ready(r)
    ensures r.board.servingTeam == t
    ensures TeamOf(r, t).slots == (if s.board.servingTeam != t then Rotated(TeamOf(s, t).slots) else TeamOf(s, t).slots)
    ensures TeamOf(r, Opponent(t)) == TeamOf(s, Opponent(t))
    ensures r.board.t1Score == s.board.t1Score && r.board.t2Score == s.board.t2Score && r.board.currentSet == s.board.currentSet
    ensures r.pointsHistory == s.pointsHistory && r.rally.possession == s.rally.possession
    ensures r.rally.touchesT1 == 0 && r.rally.touchesT2 == 0 && r.rally.generalTouches == 0 && r.rally.lastTeamTouched.None?
  {
    var s1 := if s.board.servingTeam != t then RotateTeam(s.(board := s.board.(servingTeam := t)), t) else s;
    s1.(rally := s1.rally.(touchesT1 := 0, touchesT2 := 0, generalTouches := 0, lastTeamTouched := None))
  }

  /** `score_point(t)`; `coin` is what `coin_toss` returns if the set ends into a fifth set. */
  function PointScored(s: GameState, t: Team, coin: bool): (r: Step)
    requires Ready(s)
    ensures Ready(r.state)
  {
    var a := Awarded(s, t);
    if !a.ok then a
    else
      var s3 := SideOut(a.state, t);
      if SetOver(s3) then Step(SetEnded(s3, coin), true)
      else Step(s3.(grid := LineUpsPlaced(s3.grid, s3.t1.slots, s3.t2.slots, Some(s3.board.servingTeam))), true)
  }

  /**
   * `revert_point(t)`: only t's score goes down by one.  The source
   * raises for a name other than T1/T2, which `Team` cannot express.
   */
  function PointReverted(s: GameState, t: Team): (r: GameState)
    ensures ScoreOf(r, t) == ScoreOf(s, t) - 1
    ensures r == WithScore(s, t, ScoreOf(s, t) - 1)
  {
    if t == T1 then s.(board := s.board.(t1Score := s.board.t1Score - 1)) else s.(board := s.board.(t2Score := s.board.t2Score - 1))
  }

  /** `start_rally`: no touches, possession to the server, rally open. */
  function RallyStarted(s: GameState): (r: GameState)
    ensures TouchesOf(r, T1) == 0 && TouchesOf(r, T2) == 0
    ensures r.rally.lastTeamTouched.None? && r.rally.possession == s.board.servingTeam && !r.rally.rallyOver
    ensures r.board == s.board && r.rally.generalTouches == s.rally.generalTouches
    ensures r.(rally := s.rally) == s
  {
    s.(rally := s.rally.(touchesT1 := 0, touchesT2 := 0, lastTeamTouched := None, possession := s.board.servingTeam, rallyOver := false))
  }

  /** `can_call_time_out`. */
  predicate CanCallTimeOut(s: GameState, t: Team)
  {
    TeamOf(s, t).timeOuts > 0
  }

  /** `register_time_out`: one time-out fewer for t. */
  function TimeOutRegistered(s: GameState, t: Team): (r: GameState)
    ensures TeamOf(r, t).timeOuts == TeamOf(s, t).timeOuts - 1
    ensures TeamOf(r, Opponent(t)) == TeamOf(s, Opponent(t))
  {
    var v := TeamOf(s, t);
    WithTeam(s, t, v.(timeOuts := v.timeOuts - 1))
  }

  /** `revert_timeout`: one time-out more for t. */
  function TimeOutReverted(s: GameState, t: Team): (r: GameState)
    ensures TeamOf(r, t).timeOuts == TeamOf(s, t).timeOuts + 1
    ensures TeamOf(r, Opponent(t)) == TeamOf(s, Opponent(t))
  {
    var v := TeamOf(s, t);
    WithTeam(s, t, v.(timeOuts := v.timeOuts + 1))
  }

  /** `determine_point_winner`: the opponent of a faulting team, else the last toucher, else the receiver. */
  function DeterminePointWinner(s: GameState): (w: Team)
    ensures s.rally.lastFaultTeam.Some? ==> w != s.rally.lastFaultTeam.value
    ensures s.rally.lastFaultTeam.None? && s.rally.lastTeamTouched.Some? ==> w == s.rally.lastTeamTouched.value
    ensures s.rally.lastFaultTeam.None? && s.rally.lastTeamTouched.None? ==> w != s.board.servingTeam
  {
    if s.rally.lastFaultTeam.Some? then Opponent(s.rally.lastFaultTeam.value)
    else if s.rally.lastTeamTouched.Some? then s.rally.lastTeamTouched.value
    else Opponent(s.board.servingTeam)
  }

  /** `is_opponent_attacking(t)`: the last touch was not t's. */
  predicate IsOpponentAttacking(s: GameState, t: Team)
  {
    s.rally.lastTeamTouched != Some(t)
  }

  /** `is_our_serve`. */
  predicate IsOurServe(s: GameState, t: Team)
  {
    s.board.servingTeam == t
  }

  /** `is_player_server`: the cell of that dorsal for the serving team has number 1; None where find_player raises. */
  function IsPlayerServer(s: GameState, dorsal: int): Option<bool>
  {
    match FirstWhere(s.grid, PlayerProbe(dorsal, s.board.servingTeam))
    case None => None
    case Some(q) => FirstWhereSpec(s.grid, PlayerProbe(dorsal, s.board.servingTeam)); Some(At(s.grid, q).position == 1)
  }

  /** `is_ball_on_our_side`: the ball's row is on t's side of the net; None where find_ball raises. */
  function IsBallOnOurSide(s: GameState, t: Team): Option<bool>
  {
    match FirstWhere(s.grid, BallProbe)
    case None => None
    case Some(q) => Some(if t == T1 then q.0 < NetRow else q.0 > NetRow)
  }

  /** `is_ball_coming_to_player`: the ball is within Chebyshev distance 3 of the player; None where a lookup raises. */
  function IsBallComingToPlayer(s: GameState, dorsal: int, t: Team): Option<bool>
  {
    match (FirstWhere(s.grid, PlayerProbe(dorsal, t)), FirstWhere(s.grid, BallProbe))
    case (Some(p), Some(b)) => Some(IntDistance(p, b) <= 3)
    case _ => None
  }

  /** The result of the scan in `get_closest_player_to_ball`. */
  datatype Closest = Raised | Best(player: Option<int>, dist: int)

  /**
   * The loop of `get_closest_player_to_ball` from position i of the
   * iteration order: a player replaces the best so far only when strictly
   * closer.  A player without a cell of team t makes `find_player` raise.
   */
  function ClosestFrom(g: CourtGrid, ball: Coord, t: Team, order: seq<int>, i: nat, best: Option<int>, dist: int): Closest
    requires i <= |order|
    decreases |order| - i
  {
    if i == |order| then Best(best, dist)
    else match FirstWhere(g, PlayerProbe(order[i], t))
      case None => Raised
      case Some(q) =>
        var d := IntDistance(q, ball);
        if best.None? || d < dist then ClosestFrom(g, ball, t, order, i + 1, Some(order[i]), d)
        else ClosestFrom(g, ball, t, order, i + 1, best, dist)
  }

  /** `get_closest_player_to_ball(t)` over the on-court dorsals listed in iteration order. */
  function ClosestPlayer(s: GameState, t: Team, order: seq<int>): Closest
  {
    match FirstWhere(s.grid, BallProbe)
    case None => Raised
    case Some(b) => ClosestFrom(s.grid, b, t, order, 0, None, 0)
  }

  /** The Chebyshev distance from the first cell of dorsal d for team t to the ball. */
  function DistanceToBall(g: CourtGrid, d: int, t: Team, ball: Coord): int
    requires FirstWhere(g, PlayerProbe(d, t)).Some?
  {
    IntDistance(FirstWhere(g, PlayerProbe(d, t)).value, ball)
  }

  /** Every player listed in order[..n] has a cell of team t, at distance at least d from the ball. */
  ghost predicate NoneCloser(g: CourtGrid, ball: Coord, t: Team, order: seq<int>, n: int, d: int)
    requires 0 <= n <= |order|
  {
    forall j :: 0 <= j < n ==>
      (FirstWhere(g, PlayerProbe(order[j], t)).Some? && DistanceToBall(g, order[j], t, ball) >= d)
  }

  /** Dorsal p is listed, has a cell of team t, and lies at distance d from the ball. */
  ghost predicate PlacedAt(g: CourtGrid, ball: Coord, t: Team, order: seq<int>, p: int, d: int)
  {
    p in order && FirstWhere(g, PlayerProbe(p, t)).Some? && DistanceToBall(g, p, t, ball) == d
  }

  /**
   * The scan finds a player at minimum distance: it raises exactly when a
   * listed player has no cell, and otherwise returns a listed player (none
   * for an empty list) that no listed player is strictly closer than.
   */
  lemma {:induction false} ClosestFromSpec(g: CourtGrid, ball: Coord, t: Team, order: seq<int>, i: nat, best: Option<int>, dist: int)
    requires i <= |order|
    requires best.None? <==> i == 0
    requires best.Some? ==> PlacedAt(g, ball, t, order[..i], best.value, dist)
    requires NoneCloser(g, ball, t, order, i, dist)
    ensures ClosestFrom(g, ball, t, order, i, best, dist).Raised? <==>
      (exists j :: i <= j < |order| && FirstWhere(g, PlayerProbe(order[j], t)).None?)
    ensures match ClosestFrom(g, ball, t, order, i, best, dist)
      case Raised => true
      case Best(p, d) =>
        && (p.None? <==> |order| == 0)
        && (p.Some? ==> PlacedAt(g, ball, t, order, p.value, d) && NoneCloser(g, ball, t, order, |order|, d))
    decreases |order| - i
  {
    if i < |order| {
      match FirstWhere(g, PlayerProbe(order[i], t))
      case None =>
      case Some(q) =>
        var d := IntDistance(q, ball);
        assert DistanceToBall(g, order[i], t, ball) == d;
        assert order[..i + 1] == order[..i] + [order[i]];
        if best.None? || d < dist {
          assert NoneCloser(g, ball, t, order, i + 1, d);
          ClosestFromSpec(g, ball, t, order, i + 1, Some(order[i]), d);
        } else {
          assert NoneCloser(g, ball, t, order, i + 1, dist);
          ClosestFromSpec(g, ball, t, order, i + 1, best, dist);
        }
        if exists j :: i <= j < |order| && FirstWhere(g, PlayerProbe(order[j], t)).None? {
          var j :| i <= j < |order| && FirstWhere(g, PlayerProbe(order[j], t)).None?;
          assert j != i;
        }
    } else {
      assert order[..i] == order;
    }
  }

  /**
   * `reset` (lines 132-146): counters, scores, sets and touches restart on
   * a rebuilt court.  The general touch count, the history and the server
   * are kept, as written.
   */
  function GameReset(s: GameState): (r: GameState)
    ensures Ready(s) ==> Ready(r)
  {
    s.(t1 := TeamReset(s.t1), t2 := TeamReset(s.t2), grid := FreshGrid(), instance := 0,
       board := s.board.(t1Score := 0, t2Score := 0, t1Sets := 0, t2Sets := 0, currentSet := 1),
       rally := s.rally.(touchesT1 := 0, touchesT2 := 0, lastTeamTouched := None, possession := s.board.servingTeam,
                         rallyOver := false, lastFaultTeam := None))
  }

  /**
   * `conf_line_ups(h, a)` (lines 148-168): both teams take their line-ups,
   * the field seats them with the ball on the server's slot 1, and the
   * ball is set on the cell the server's number 1 is found at; it raises
   * when there is none.
   */
  function LineUpsConfigured(s: GameState, h: Slots, a: Slots): (r: Step)
    requires SlotsOnCourt(h) && SlotsOnCourt(a)
    ensures r.state.t1 == WithLineUp(s.t1, h) && r.state.t2 == WithLineUp(s.t2, a)
  {
    var g := LineUpsPlaced(s.grid, h, a, Some(s.board.servingTeam));
    var s1 := s.(t1 := WithLineUp(s.t1, h), t2 := WithLineUp(s.t2, a));
    match FirstWhere(g, PositionProbe(1, s.board.servingTeam))
    case None => Step(s1.(grid := g), false)
    case Some(q) =>
      BallSetKeepsScan(g, PositionProbe(1, s.board.servingTeam), q);
      Step(s1.(grid := SetCell(g, q, At(g, q).(ball := true))), true)
  }

  // ---------------------------------------------------------------------
  // Laws of the rules above.

  /**
   * A completed `score_point(t)`: the point is appended to the history,
   * t has the ball, touches are cleared; it raises exactly when the last
   * toucher is on t's court without counters.
   */
  lemma ScorePointEffects(s: GameState, t: Team, coin: bool)
    requires Ready(s)
    ensures var r := PointScored(s, t, coin);
      r.ok ==>
        && r.state.pointsHistory == s.pointsHistory + [PointRecord(t, ScoreOf(s, t) + 1, s.board.currentSet)]
        && r.state.rally.possession == t
        && TouchesOf(r.state, T1) == 0 && TouchesOf(r.state, T2) == 0 && r.state.rally.generalTouches == 0
        && r.state.rally.lastTeamTouched.None?
    ensures !PointScored(s, t, coin).ok <==>
      (s.rally.lastPlayerTouched.Some? && s.rally.lastPlayerTouched.value in TeamOf(s, t).onField
       && s.rally.lastPlayerTouched.value !in TeamOf(s, t).playersStatistics)
  {
    var a := Awarded(s, t);
    if a.ok {
      var s3 := SideOut(a.state, t);
      if SetOver(s3) {
        var e := SetEnded(s3, coin);
        assert PointScored(s, t, coin).state == e;
      }
    }
  }

  /** r has the rally flag (`rally_over`) and the rally counter (`instance`) of s. */
  predicate SameRally(s: GameState, r: GameState)
  {
    r.rally.rallyOver == s.rally.rallyOver && r.instance == s.instance
  }

  lemma SideOutKeepsRally(s: GameState, t: Team)
    requires Ready(s)
    ensures SameRally(s, SideOut(s, t))
  {
    if s.board.servingTeam != t {
      var s1 := s.(board := s.board.(servingTeam := t));
      assert SameRally(s, RotateTeam(s1, t));
    }
  }

  /** `score_point` sets neither the rally flag nor the rally counter. */
  lemma PointKeepsRally(s: GameState, t: Team, coin: bool)
    requires Ready(s)
    ensures SameRally(s, PointScored(s, t, coin).state)
  {
    var a := Awarded(s, t);
    assert SameRally(s, a.state);
    if a.ok {
      SideOutKeepsRally(a.state, t);
      var s3 := SideOut(a.state, t);
      hide SideOut, Awarded, Ready;
      if SetOver(s3) {
        assert SameRally(s3, SetEnded(s3, coin));
      }
    }
  }

  /** Both teams have the same roster and the same dorsals with counters in the two states. */
  predicate SameRosters(a: GameState, b: GameState)
  {
    && a.t1.data == b.t1.data && a.t1.playersStatistics.Keys == b.t1.playersStatistics.Keys
    && a.t2.data == b.t2.data && a.t2.playersStatistics.Keys == b.t2.playersStatistics.Keys
  }

  lemma AwardedKeepsRosters(s: GameState, t: Team)
    ensures SameRosters(Awarded(s, t).state, s)
  {
    var c := CreditPlayer(TeamOf(s, t), s.rally.lastPlayerTouched, s.rally.generalTouches);
    if c.Some? {
      assert c.value.playersStatistics.Keys == TeamOf(s, t).playersStatistics.Keys;
    }
  }

  lemma SideOutKeepsRosters(s: GameState, t: Team)
    requires Ready(s)
    ensures SameRosters(SideOut(s, t), s)
  {
    if s.board.servingTeam != t {
      var s1 := s.(board := s.board.(servingTeam := t));
      assert TeamOf(RotateTeam(s1, t), t) == TeamOf(s1, t).(slots := Rotated(TeamOf(s1, t).slots));
    }
  }

  /** `score_point` neither adds nor removes a dorsal from either team's roster or counters. */
  lemma ScoringKeepsRosters(s: GameState, t: Team, coin: bool)
    requires Ready(s)
    ensures SameRosters(PointScored(s, t, coin).state, s)
  {
    var a := Awarded(s, t);
    AwardedKeepsRosters(s, t);
    if a.ok {
      var s3 := SideOut(a.state, t);
      SideOutKeepsRosters(a.state, t);
      var r := PointScored(s, t, coin).state;
      assert r.t1 == s3.t1 && r.t2 == s3.t2;
    }
  }

  /**
   * When the point does not end the set: t's score goes up by one, the
   * other stays, t serves and the set number stays.
   */
  lemma ScorePointWithinSet(s: GameState, t: Team, coin: bool)
    requires Ready(s)
    ensures var r := PointScored(s, t, coin);
      r.ok && !SetOver(WithScore(s, t, ScoreOf(s, t) + 1)) ==>
        && ScoreOf(r.state, t) == ScoreOf(s, t) + 1
        && ScoreOf(r.state, Opponent(t)) == ScoreOf(s, Opponent(t))
        && r.state.board.servingTeam == t
        && r.state.board.currentSet == s.board.currentSet
  {
    var a := Awarded(s, t);
    if a.ok {
      var s3 := SideOut(a.state, t);
      var w := WithScore(s, t, ScoreOf(s, t) + 1);
      assert s3.board.t1Score == w.board.t1Score && s3.board.t2Score == w.board.t2Score;
    }
  }

  /**
   * Side-out: the scorer's line-up rotates exactly when the scorer was
   * not serving; the other line-up never moves.
   */
  lemma ScorePointRotation(s: GameState, t: Team, coin: bool)
    requires Ready(s)
    ensures var r := PointScored(s, t, coin);
      r.ok ==>
        && TeamOf(r.state, t).slots == (if s.board.servingTeam != t then Rotated(TeamOf(s, t).slots) else TeamOf(s, t).slots)
        && TeamOf(r.state, Opponent(t)).slots == TeamOf(s, Opponent(t)).slots
  {
    var a := Awarded(s, t);
    if a.ok {
      var s3 := SideOut(a.state, t);
      if SetOver(s3) {
        assert PointScored(s, t, coin).state.t1 == s3.t1 && PointScored(s, t, coin).state.t2 == s3.t2;
      }
    }
  }

  /**
   * `end_set` hands the set to the leader (the code reads any score with
   * a two-point lead at or past 25 as won, FIVB rule 6.2 with 25 points in
   * every set): the winner gets one set more, the loser none, and both
   * scores restart in the next set.
   */
  lemma SetGoesToLeader(s: GameState, coin: bool)
    requires Ready(s) && SetOver(s)
    ensures var w := if s.board.t1Score > s.board.t2Score then T1 else T2;
      var r := SetEnded(s, coin);
      && ScoreOf(s, w) >= PointsToWinSet && ScoreOf(s, w) >= ScoreOf(s, Opponent(w)) + 2
      && SetsOf(r, w) == SetsOf(s, w) + 1 && SetsOf(r, Opponent(w)) == SetsOf(s, Opponent(w))
      && r.board.t1Score == 0 && r.board.t2Score == 0 && r.board.currentSet == s.board.currentSet + 1
  {
  }

  /**
   * The match ends (FIVB rule 6.3) exactly when the set just won is the
   * winner's third; then the server and the court stay as they were.
   */
  lemma MatchEndsAtThreeSets(s: GameState, coin: bool)
    requires Ready(s) && s.board.t1Sets < SetsToWin && s.board.t2Sets < SetsToWin
    ensures var w := if s.board.t1Score > s.board.t2Score then T1 else T2;
      var r := SetEnded(s, coin);
      && (IsFinish(r) <==> SetsOf(s, w) == SetsToWin - 1)
      && (IsFinish(r) ==> r.board.servingTeam == s.board.servingTeam && r.grid == s.grid)
  {
  }

  /**
   * The first server of consecutive sets alternates between the teams in
   * sets 1 to 4; set 5 follows the coin.
   */
  lemma ServerAlternates(n: int, c1: bool, c2: bool)
    requires 2 <= n < MaxSets
    ensures NextServer(n, c1) == Opponent(NextServer(n - 1, c2))
    ensures NextServer(MaxSets, c1) == (if c1 then T1 else T2)
  {
  }

  /**
   * A new set (not the end of the match) re-seats both line-ups on a
   * rebuilt court, and the server is chosen by `NextServer`.
   */
  lemma NewSetServer(s: GameState, coin: bool)
    requires Ready(s)
    ensures var r := SetEnded(s, coin);
      !IsFinish(r) ==>
        && r.board.servingTeam == NextServer(s.board.currentSet + 1, coin)
        && r.grid == LineUpsPlaced(FreshGrid(), s.t1.slots, s.t2.slots, Some(Opponent(r.board.servingTeam)))
  {
    var r := SetEnded(s, coin);
    var n := s.board.currentSet + 1;
    assert r.board.currentSet == n;
    if !IsFinish(r) {
      assert r.board.servingTeam == NextServer(n, coin);
    }
  }

  /**
   * `score_point` and `revert_point` are not inverses: reverting the point
   * restores both scores within a set, but the history keeps the point
   * and the serve and rotation stay with the scorer.
   */
  lemma ScoreThenRevert(s: GameState, t: Team, coin: bool)
    requires Ready(s) && s.board.servingTeam != t
    requires PointScored(s, t, coin).ok && !SetOver(WithScore(s, t, ScoreOf(s, t) + 1))
    ensures var r := PointReverted(PointScored(s, t, coin).state, t);
      && ScoreOf(r, t) == ScoreOf(s, t) && ScoreOf(r, Opponent(t)) == ScoreOf(s, Opponent(t))
      && |r.pointsHistory| == |s.pointsHistory| + 1
      && r.board.servingTeam == t && TeamOf(r, t).slots == Rotated(TeamOf(s, t).slots)
  {
    ScorePointEffects(s, t, coin);
    ScorePointWithinSet(s, t, coin);
    ScorePointRotation(s, t, coin);
  }

  /** `revert_timeout` undoes `register_time_out` exactly. */
  lemma TimeOutRoundTrip(s: GameState, t: Team)
    ensures TimeOutReverted(TimeOutRegistered(s, t), t) == s
  {
  }

  /** A time-out may be called while one is left, and calling it never leaves a negative count. */
  lemma TimeOutAllowance(s: GameState, t: Team)
    requires CanCallTimeOut(s, t)
    ensures TeamOf(TimeOutRegistered(s, t), t).timeOuts >= 0
    ensures !CanCallTimeOut(TimeOutRegistered(s, t), t) <==> TeamOf(s, t).timeOuts == 1
  {
  }

  /** `get_opponent_team` swaps the teams and undoes itself. */
  lemma OpponentInvolution(t: Team)
    ensures Opponent(Opponent(t)) == t
  {
  }

  /** `get_team_sets` as written (line 360): T1's set count for either team. */
  function GetTeamSetsAsWritten(s: GameState, t: Team): int
  {
    if t == T1 then s.board.t1Sets else s.board.t1Sets
  }

  /** Whenever the set counts differ, the as-written reader reports T2's wrongly. */
  lemma GetTeamSetsAsWrittenWrong(s: GameState)
    requires s.board.t1Sets != s.board.t2Sets
    ensures GetTeamSetsAsWritten(s, T2) != SetsOf(s, T2)
  {
  }

  /**
   * Lines 40-66 of `score_point` as written: `StatisticsTeam` declares no
   * `sets` (Tools/data.py:29-41), so at a new score of 25 the update at
   * line 50 or 63 raises AttributeError.  By then possession, the
   * player's counters and the score have changed; the history record has
   * not been appended.
   */
  function AwardedAsWritten(s: GameState, t: Team): (r: Step)
    ensures r.ok <==> Awarded(s, t).ok && ScoreOf(s, t) + 1 != PointsToWinSet
    ensures r.ok ==> r == Awarded(s, t)
    ensures !r.ok && Awarded(s, t).ok ==> r.state.pointsHistory == s.pointsHistory && ScoreOf(r.state, t) == PointsToWinSet
  {
    match CreditPlayer(TeamOf(s, t), s.rally.lastPlayerTouched, s.rally.generalTouches)
    case None => Step(s.(rally := s.rally.(possession := t)), false)
    case Some(v) =>
      var n := ScoreOf(s, t) + 1;
      if n == PointsToWinSet then
        var s1 := WithScore(WithTeam(s, t, v), t, n);
        Step(s1.(rally := s1.rally.(possession := t)), false)
      else Awarded(s, t)
  }

  /**
   * As written, no completed point takes a score from below 25 to 25 or
   * more: a team at 24 never scores, so no set is won and `end_set` is
   * never reached through `score_point`.
   */
  lemma AwardedAsWrittenNeverReaches25(s: GameState, t: Team)
    requires ScoreOf(s, t) < PointsToWinSet
    ensures var r := AwardedAsWritten(s, t);
      r.ok ==> ScoreOf(r.state, t) < PointsToWinSet
    ensures ScoreOf(s, t) == PointsToWinSet - 1 ==> !AwardedAsWritten(s, t).ok
  {
  }

  /**
   * With the `sets` counter the code evidently meant `StatisticsTeam` to
   * have, a team at 24 whose last toucher can be credited scores its
   * 25th point and its set counter rises by one.
   */
  lemma AwardedCreditsSet(s: GameState, t: Team)
    requires ScoreOf(s, t) == PointsToWinSet - 1
    requires CreditPlayer(TeamOf(s, t), s.rally.lastPlayerTouched, s.rally.generalTouches).Some?
    ensures var r := Awarded(s, t);
      && r.ok && ScoreOf(r.state, t) == PointsToWinSet
      && Get(TeamOf(r.state, t).statistics, Sets) == Get(TeamOf(s, t).statistics, Sets) + 1
  {
    var v := CreditPlayer(TeamOf(s, t), s.rally.lastPlayerTouched, s.rally.generalTouches).value;
    assert v.statistics == TeamOf(s, t).statistics;
  }

  /**
   * After `reset` the game is at its start and not over; the history and
   * the general touch count survive it, as written.
   */
  lemma ResetRestarts(s: GameState)
    ensures var r := GameReset(s);
      && r.instance == 0 && !IsFinish(r) && !SetOver(r) && r.board.currentSet == 1
      && r.t1.statistics == FreshCounters() && r.t2.statistics == FreshCounters()
      && r.pointsHistory == s.pointsHistory && r.rally.generalTouches == s.rally.generalTouches
      && r.rally.possession == r.board.servingTeam == s.board.servingTeam
  {
  }

  /**
   * `conf_line_ups` raises exactly when the server's number 1 is nowhere
   * on the court once both line-ups are seated; otherwise the ball lies
   * on the cell the server's number 1 is found at.
   */
  lemma ConfiguredBall(s: GameState, h: Slots, a: Slots)
    requires SlotsOnCourt(h) && SlotsOnCourt(a)
    ensures var r := LineUpsConfigured(s, h, a);
      var p := PositionProbe(1, s.board.servingTeam);
      && (r.ok <==> FirstWhere(LineUpsPlaced(s.grid, h, a, Some(s.board.servingTeam)), p).Some?)
      && (r.ok ==> FirstWhere(r.state.grid, p).Some? && At(r.state.grid, FirstWhere(r.state.grid, p).value).ball)
  {
    var g := LineUpsPlaced(s.grid, h, a, Some(s.board.servingTeam));
    var p := PositionProbe(1, s.board.servingTeam);
    if FirstWhere(g, p).Some? {
      BallSetKeepsScan(g, p, FirstWhere(g, p).value);
    }
  }

  /** Complete line-ups on the court give a game whose rules can run. */
  lemma ConfiguredReady(s: GameState, h: Slots, a: Slots)
    requires Ready(s) && Complete(h) && Complete(a) && SlotsOnCourt(h) && SlotsOnCourt(a)
    ensures Ready(LineUpsConfigured(s, h, a).state)
  {
  }

  // ---------------------------------------------------------------------
  // The game object.

  /**
   * `Game`: the two `TeamData` objects, the field it owns, and its
   * scalar attributes grouped into the board and the rally.  Each method
   * does what the function of the same rule above says, in place.
   */
  class Game {
    const field: Field
    const t1: TeamData
    const t2: TeamData
    var board: Board
    var rally: Rally
    var pointsHistory: seq<PointRecord>
    var instance: int
    var cantInstances: int

    /** The two teams are distinct objects with distinct line-ups. */
    predicate Valid()
      reads this, t1, t2
    {
      t1 != t2 && t1.lineUp != t2.lineUp
    }

    function State(): GameState
      reads this, field, t1, t2, t1.lineUp, t2.lineUp
    {
      GameState(t1.View(), t2.View(), field.grid, board, rally, pointsHistory, instance, cantInstances)
    }

    /**
     * `Game(t1, t2, cant_instances)`: a fresh field, no points, set 1, T2
     * serving and holding the ball.  The source never sets
     * `last_fault_team` here; the model starts it empty.
     */
    constructor (t1: TeamData, t2: TeamData, cantInstances: int)
      requires t1 != t2 && t1.lineUp != t2.lineUp
      ensures Valid() && fresh(field)
      ensures this.t1 == t1 && this.t2 == t2 && field.grid == FreshGrid()
      ensures board == Board(0, 0, 0, 0, 1, T2)
      ensures rally == Rally(0, 0, 0, T2, false, false, None, None, None)
      ensures pointsHistory == [] && instance == 0 && this.cantInstances == cantInstances
    {
      field := new Field();
      this.t1 := t1;
      this.t2 := t2;
      board := Board(0, 0, 0, 0, 1, T2);
      rally := Rally(0, 0, 0, T2, false, false, None, None, None);
      pointsHistory := [];
      instance := 0;
      this.cantInstances := cantInstances;
    }

    /** `score_point(t)`; ok is false where the source raises. */
    method ScorePoint(t: Team, coin: bool) returns (ok: bool)
      requires Valid() && Ready(State())
      modifies this, field, t1, t2, t1.lineUp, t2.lineUp
      ensures Valid() && t1.lineUp == old(t1.lineUp) && t2.lineUp == old(t2.lineUp)
      ensures State() == PointScored(old(State()), t, coin).state
      ensures ok == PointScored(old(State()), t, coin).ok
    {
      hide Awarded, SideOut, SetEnded, RotateTeam, LineUpsPlaced;
      ok := AwardPoint(t);
      if !ok {
        return;
      }
      SideOutTo(t);
      if SetOver(State()) {
        EndSet(coin);
      } else {
        field.ConfLineUps(t1.lineUp, t2.lineUp, Some(board.servingTeam));
      }
    }

    /** Lines 40-66 of `score_point`: possession, the scorer's counters, the score and the history. */
    method AwardPoint(t: Team) returns (ok: bool)
      requires Valid()
      modifies this, t1, t2
      ensures Valid() && t1.lineUp == old(t1.lineUp) && t2.lineUp == old(t2.lineUp)
      ensures State() == Awarded(old(State()), t).state && ok == Awarded(old(State()), t).ok
    {
      rally := rally.(possession := t);
      var team := if t == T1 then t1 else t2;
      ok := team.CreditLastPlayer(rally.lastPlayerTouched, rally.generalTouches);
      if !ok {
        return;
      }
      var n;
      if t == T1 {
        board := board.(t1Score := board.t1Score + 1);
        n := board.t1Score;
      } else {
        board := board.(t2Score := board.t2Score + 1);
        n := board.t2Score;
      }
      team.CreditScore(n);
      pointsHistory := pointsHistory + [PointRecord(t, n, board.currentSet)];
    }

    /** Lines 68-81 of `score_point`: the serve passes to the scorer, who rotates; touches restart. */
    method SideOutTo(t: Team)
      requires Valid() && Ready(State())
      modifies this, field, t1.lineUp, t2.lineUp
      ensures Valid() && State() == SideOut(old(State()), t)
    {
      if board.servingTeam != t {
        TakeServe(t);
      }
      rally := rally.(touchesT1 := 0, touchesT2 := 0, generalTouches := 0, lastTeamTouched := None);
    }

    /** The side-out proper: t takes the serve and rotates. */
    method TakeServe(t: Team)
      requires Valid() && Ready(State())
      modifies this, field, t1.lineUp, t2.lineUp
      ensures Valid() && State() == RotateTeam(old(State()).(board := old(State()).board.(servingTeam := t)), t)
    {
      board := board.(servingTeam := t);
      if t == T1 {
        field.RotatePlayers(T1, t1.lineUp, t2.lineUp);
      } else {
        field.RotatePlayers(T2, t2.lineUp, t1.lineUp);
      }
    }

    /** `end_set`; `coin` stands for `coin_toss()` before a fifth set. */
    method EndSet(coin: bool)
      requires Valid() && Ready(State())
      modifies this, field
      ensures Valid() && State() == SetEnded(old(State()), coin)
    {
      if board.t1Score > board.t2Score {
        board := board.(t1Sets := board.t1Sets + 1);
      } else {
        board := board.(t2Sets := board.t2Sets + 1);
      }
      board := board.(t1Score := 0, t2Score := 0, currentSet := board.currentSet + 1);
      if board.t1Sets == SetsToWin || board.t2Sets == SetsToWin {
        return;
      }
      field.Reset();
      if board.currentSet == MaxSets {
        board := board.(servingTeam := if coin then T1 else T2);
      } else {
        board := board.(servingTeam := if board.currentSet % 2 == 1 then T1 else T2);
      }
      field.ConfLineUps(t1.lineUp, t2.lineUp, Some(Opponent(board.servingTeam)));
    }

    /** `reset`. */
    method Reset()
      requires Valid()
      modifies this, field, t1, t2
      ensures Valid() && State() == GameReset(old(State()))
    {
      instance := 0;
      field.Reset();
      t1.Reset();
      t2.Reset();
      board := board.(t1Score := 0, t2Score := 0, t1Sets := 0, t2Sets := 0, currentSet := 1);
      rally := rally.(touchesT1 := 0, touchesT2 := 0, lastTeamTouched := None, possession := board.servingTeam,
                      rallyOver := false, lastFaultTeam := None);
    }

    /** `conf_line_ups(h, a)`; ok is false where the source raises. */
    method ConfLineUps(h: LineUp, a: LineUp) returns (ok: bool)
      requires Valid() && h != a && SlotsOnCourt(h.slots) && SlotsOnCourt(a.slots)
      modifies this, field, t1, t2
      ensures Valid() && t1.lineUp == h && t2.lineUp == a
      ensures State() == LineUpsConfigured(old(State()), h.slots, a.slots).state
      ensures ok == LineUpsConfigured(old(State()), h.slots, a.slots).ok
    {
      t1.TakeLineUp(h);
      t2.TakeLineUp(a);
      field.ConfLineUps(h, a, Some(board.servingTeam));
      var q := field.FindPlayerInPosition(1, board.servingTeam);
      if q.None? {
        ok := false;
        return;
      }
      BallSetKeepsScan(field.grid, PositionProbe(1, board.servingTeam), q.value);
      field.grid := SetCell(field.grid, q.value, At(field.grid, q.value).(ball := true));
      ok := true;
    }

    /** `start_rally`. */
    method StartRally()
      modifies this
      ensures State() == RallyStarted(old(State()))
    {
      rally := rally.(touchesT1 := 0, touchesT2 := 0, lastTeamTouched := None, possession := board.servingTeam,
                      rallyOver := false);
    }

    /** `revert_point(t)`. */
    method RevertPoint(t: Team)
      modifies this
      ensures State() == PointReverted(old(State()), t)
    {
      if t == T1 {
        board := board.(t1Score := board.t1Score - 1);
      } else {
        board := board.(t2Score := board.t2Score - 1);
      }
    }

    /** `register_time_out(t)`. */
    method RegisterTimeOut(t: Team)
      requires Valid()
      modifies t1, t2
      ensures Valid() && t1.lineUp == old(t1.lineUp) && t2.lineUp == old(t2.lineUp)
      ensures State() == TimeOutRegistered(old(State()), t)
    {
      if t == T1 {
        t1.timeOuts := t1.timeOuts - 1;
      } else {
        t2.timeOuts := t2.timeOuts - 1;
      }
    }

    /** `revert_timeout(t)`. */
    method RevertTimeout(t: Team)
      requires Valid()
      modifies t1, t2
      ensures Valid() && t1.lineUp == old(t1.lineUp) && t2.lineUp == old(t2.lineUp)
      ensures State() == TimeOutReverted(old(State()), t)
    {
      if t == T1 {
        t1.timeOuts := t1.timeOuts + 1;
      } else {
        t2.timeOuts := t2.timeOuts + 1;
      }
    }

    /**
     * `get_closest_player_to_ball(t)`: the scan over t's on-court dorsals,
     * listed in `order`, the iteration order of the set.
     */
    method GetClosestPlayerToBall(t: Team, order: seq<int>) returns (r: Closest)
      ensures r == ClosestPlayer(State(), t, order)
    {
      var ball := field.FindBall();
      if ball.None? {
        return Raised;
      }
      var best: Option<int> := None;
      var dist := 0;
      var i := 0;
      while i < |order|
        invariant 0 <= i <= |order|
        invariant ClosestFrom(field.grid, ball.value, t, order, i, best, dist) == ClosestPlayer(State(), t, order)
      {
        var q := field.FindPlayer(order[i], t);
        if q.None? {
          return Raised;
        }
        var d := IntDistance(q.value, ball.value);
        if best.None? || d < dist {
          best, dist := Some(order[i]), d;
        }
        i := i + 1;
      }
      r := Best(best, dist);
    }
  }
}
