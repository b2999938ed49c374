/**
 * Agents/manager_action_strategy.py, the query part: the substitutions and
 * the actions a manager may take, and `get_continues_points`, the two
 * trailing runs of points in the history.
 */
module ManagerActions {
  import opened Teams
  import opened Stats
  import opened LineUps
  import opened Rosters
  import opened Games
  import opened Actions

  /** `max_substitutions_per_set`. */
  const MaxSubstitutionsPerSet: int := 2

  /**
   * Some record of the history brought p in for b: the court player p
   * already came on in place of the bench player b, so sending b back
   * on for p is not offered again.
   */
  predicate Paired(h: seq<SubstitutionRecord>, p: int, b: int)
  {
    exists i :: 0 <= i < |h| && h[i].inn == p && h[i].out == b
  }

  /** The pair (p on court, b on the bench) gives a substitution: not paired before, both known, the same position. */
  predicate Eligible(v: TeamView, p: int, b: int)
  {
    !Paired(v.substitutionHistory, p, b) && p in v.data && b in v.data && v.data[p].position == v.data[b].position
  }

  /** The pair (p, b) makes the generator raise: it is not skipped as paired, and a dorsal is not in `data`. */
  predicate Raises(v: TeamView, p: int, b: int)
  {
    !Paired(v.substitutionHistory, p, b) && (p !in v.data || b !in v.data)
  }

  /** The substitution of p by b for team t. */
  function SubstitutionOf(p: int, b: int, t: Team): Action
  {
    Action(Substitution(b), p, t)
  }

  /**
   * The inner loop of `possible_substitutions` for the player p on court,
   * over the bench in iteration order; None where a `data` lookup raises.
   */
  function SubstitutionsFor(v: TeamView, t: Team, p: int, bench: seq<int>): (r: Option<seq<Action>>)
    ensures r.None? <==> exists b :: b in bench && Raises(v, p, b)
    ensures r.Some? ==> forall a :: a in r.value <==> exists b :: b in bench && Eligible(v, p, b) && a == SubstitutionOf(p, b, t)
  {
    if bench == [] then Some([])
    else
      var b := bench[0];
      var rest := SubstitutionsFor(v, t, p, bench[1..]);
      assert forall x :: x in bench <==> x == b || x in bench[1..];
      if Paired(v.substitutionHistory, p, b) then rest
      else if p !in v.data || b !in v.data then assert b in bench && Raises(v, p, b); None
      else if v.data[p].position != v.data[b].position then rest
      else if rest.None? then None
      else Some([SubstitutionOf(p, b, t)] + rest.value)
  }

  /** The outer loop over the players on court, in iteration order. */
  function SubstitutionsFrom(v: TeamView, t: Team, court: seq<int>, bench: seq<int>): (r: Option<seq<Action>>)
    ensures r.None? <==> exists p, b :: p in court && b in bench && Raises(v, p, b)
    ensures r.Some? ==> forall a :: a in r.value <==> exists p, b :: p in court && b in bench && Eligible(v, p, b) && a == SubstitutionOf(p, b, t)
  {
    if court == [] then Some([])
    else
      var first := SubstitutionsFor(v, t, court[0], bench);
      var rest := SubstitutionsFrom(v, t, court[1..], bench);
      assert forall x :: x in court <==> x == court[0] || x in court[1..];
      if first.None? || rest.None? then None else Some(first.value + rest.value)
  }

  /** The dorsals of the line-up's cells, in the order its keys are iterated. */
  function CourtPlayers(m: Slots, keys: seq<int>): (r: seq<int>)
    ensures |r| == |keys|
  {
    if keys == [] then []
    else (if keys[0] in m then [m[keys[0]].player] else [-1]) + CourtPlayers(m, keys[1..])
  }

  /**
   * `possible_substitutions(game, team)`, as the skip of pairs already
   * made is evidently meant: nothing once two substitutions were made,
   * else every eligible (court, bench) pair.  `order` gives the
   * iteration order of a set or of the line-up's keys.
   */
  function PossibleSubstitutions(s: GameState, t: Team, order: set<int> -> seq<int>): (r: Option<seq<Action>>)
  {
    var v := TeamOf(s, t);
    if |v.substitutionHistory| >= MaxSubstitutionsPerSet then Some([])
    else SubstitutionsFrom(v, t, CourtPlayers(v.slots, order(v.slots.Keys)), order(v.onBench))
  }

  /** Once the team has two substitutions in its history, no substitution is offered. */
  lemma SubstitutionsCapped(s: GameState, t: Team, order: set<int> -> seq<int>)
    requires |TeamOf(s, t).substitutionHistory| >= MaxSubstitutionsPerSet
    ensures PossibleSubstitutions(s, t, order) == Some([])
  {
  }

  /**
   * Below the cap, an action is offered exactly when it substitutes a
   * line-up player by a bench player of the same position, unless the
   * line-up player already came on in place of that bench player, and the generator raises exactly when a
   * non-skipped pair names an unknown dorsal.
   */
  lemma SubstitutionsOffered(s: GameState, t: Team, order: set<int> -> seq<int>)
    requires |TeamOf(s, t).substitutionHistory| < MaxSubstitutionsPerSet
    ensures var v := TeamOf(s, t);
      var court := CourtPlayers(v.slots, order(v.slots.Keys));
      var r := PossibleSubstitutions(s, t, order);
      && (r.None? <==> exists p, b :: p in court && b in order(v.onBench) && Raises(v, p, b))
      && (r.Some? ==> forall a :: a in r.value <==>
            exists p, b :: p in court && b in order(v.onBench) && Eligible(v, p, b) && a == SubstitutionOf(p, b, t))
  {
  }

  // ---------------------------------------------------------------------
  // The skip test as written.

  /**
   * `possible_substitutions` as written: the skip test reads `sub[1]` and
   * `sub[0]` of each history entry, but the entries are dictionaries with
   * the keys "out", "in" and "set", so the test raises as soon as it
   * meets an entry, that is at the first pair examined when the history
   * holds one substitution.
   */
  function PossibleSubstitutionsAsWritten(s: GameState, t: Team, order: set<int> -> seq<int>): (r: Option<seq<Action>>)
  {
    var v := TeamOf(s, t);
    var court := CourtPlayers(v.slots, order(v.slots.Keys));
    var bench := order(v.onBench);
    if |v.substitutionHistory| >= MaxSubstitutionsPerSet then Some([])
    else if v.substitutionHistory == [] then SubstitutionsFrom(v, t, court, bench)
    else if court == [] || bench == [] then Some([])
    else None
  }

  /**
   * With one substitution made, a bench player and a court player whose
   * dorsals are both known: the generator as written raises, and the
   * evidently meant one offers a list.
   */
  lemma SubstitutionsAsWrittenRaise(s: GameState, t: Team, order: set<int> -> seq<int>)
    requires |TeamOf(s, t).substitutionHistory| == 1
    requires |order(TeamOf(s, t).slots.Keys)| > 0 && |order(TeamOf(s, t).onBench)| > 0
    requires forall p :: p in CourtPlayers(TeamOf(s, t).slots, order(TeamOf(s, t).slots.Keys)) ==> p in TeamOf(s, t).data
    requires forall b :: b in order(TeamOf(s, t).onBench) ==> b in TeamOf(s, t).data
    ensures PossibleSubstitutionsAsWritten(s, t, order).None?
    ensures PossibleSubstitutions(s, t, order).Some?
  {
    var v := TeamOf(s, t);
    var court := CourtPlayers(v.slots, order(v.slots.Keys));
    assert |court| > 0;
    assert !exists p, b :: p in court && b in order(v.onBench) && Raises(v, p, b);
  }

  // ---------------------------------------------------------------------
  // The actions of a manager.

  /**
   * `possible_actions(game, team)`: the substitutions, a time-out when
   * one is left, and doing nothing.  The celebration the source computes
   * is never part of the result (and `ManagerCelebrate` is not defined in
   * Agents/actions.py).
   */
  function PossibleActions(s: GameState, t: Team, order: set<int> -> seq<int>): (r: Option<seq<Action>>)
  {
    match PossibleSubstitutions(s, t, order)
    case None => None
    case Some(subs) =>
      Some(subs + (if CanCallTimeOut(s, t) then [Action(Timeout, -1, t)] else []) + [Action(ManagerNothing, -1, t)])
  }

  /**
   * The list is never empty and ends in doing nothing; it holds a
   * time-out exactly when the team can call one; every other entry is a
   * substitution.
   */
  lemma PossibleActionsShape(s: GameState, t: Team, order: set<int> -> seq<int>)
    requires PossibleActions(s, t, order).Some?
    ensures var xs := PossibleActions(s, t, order).value;
      && |xs| >= 1 && xs[|xs| - 1] == Action(ManagerNothing, -1, t)
      && (Action(Timeout, -1, t) in xs <==> CanCallTimeOut(s, t))
      && forall i :: 0 <= i < |xs| - 1 && !xs[i].kind.Substitution? ==> xs[i] == Action(Timeout, -1, t)
  {
    var subs := PossibleSubstitutions(s, t, order).value;
    var v := TeamOf(s, t);
    if |v.substitutionHistory| < MaxSubstitutionsPerSet {
      SubstitutionsOffered(s, t, order);
    }
    assert forall a :: a in subs ==> a.kind.Substitution?;
    var xs := PossibleActions(s, t, order).value;
    assert forall i :: 0 <= i < |subs| ==> xs[i] == subs[i];
  }

  // ---------------------------------------------------------------------
  // get_continues_points.

  /** The j-th record counting back from the newest. */
  function Back(h: seq<PointRecord>, j: int): PointRecord
    requires 0 <= j < |h|
  {
    h[|h| - 1 - j]
  }

  /** The number of records at the end of h that are x's points. */
  function TrailRun(h: seq<PointRecord>, x: Team): (n: nat)
    ensures n <= |h|
  {
    if h == [] || h[|h| - 1].team != x then 0 else 1 + TrailRun(h[..|h| - 1], x)
  }

  /** n is the trailing run of x when the last n records are x's and the one before them is not. */
  lemma {:induction false} TrailRunIs(h: seq<PointRecord>, x: Team, n: nat)
    requires n <= |h|
    requires forall j :: 0 <= j < n ==> Back(h, j).team == x
    requires n < |h| ==> Back(h, n).team != x
    ensures TrailRun(h, x) == n
    decreases n
  {
    if n > 0 {
      var h1 := h[..|h| - 1];
      assert Back(h, 0).team == x;
      forall j | 0 <= j < n - 1
        ensures Back(h1, j).team == x
      {
        assert Back(h1, j) == Back(h, j + 1);
      }
      if n - 1 < |h1| {
        assert Back(h1, n - 1) == Back(h, n);
      }
      TrailRunIs(h1, x, n - 1);
    }
  }

  /** The run is made of x's points, and the record before it (if any) is not. */
  lemma {:induction false} TrailRunMeans(h: seq<PointRecord>, x: Team)
    ensures forall j :: 0 <= j < TrailRun(h, x) ==> Back(h, j).team == x
    ensures TrailRun(h, x) < |h| ==> Back(h, TrailRun(h, x)).team != x
  {
    if h != [] && h[|h| - 1].team == x {
      var h1 := h[..|h| - 1];
      TrailRunMeans(h1, x);
      forall j | 0 < j < TrailRun(h, x)
        ensures Back(h, j).team == x
      {
        assert Back(h, j) == Back(h1, j - 1);
      }
      if TrailRun(h, x) < |h| {
        assert Back(h, TrailRun(h, x)) == Back(h1, TrailRun(h1, x));
      }
    }
  }

  /**
   * What `get_continues_points(team)` computes: the length of the team's
   * trailing run of points, and the length of the opponent's run just
   * before it (the opponent's trailing run when the last point is not the
   * team's).
   */
  function ContinuesPoints(h: seq<PointRecord>, t: Team): (nat, nat)
  {
    var a := TrailRun(h, t);
    (a, TrailRun(h[..|h| - a], Opponent(t)))
  }

  /**
   * On an empty history both runs are 0; when the last point is the
   * team's, the first run is positive, and otherwise it is 0 and the
   * second is the opponent's trailing run, which is positive.
   */
  lemma ContinuesPointsCases(h: seq<PointRecord>, t: Team)
    ensures h == [] ==> ContinuesPoints(h, t) == (0, 0)
    ensures h != [] && h[|h| - 1].team == t ==> ContinuesPoints(h, t).0 > 0
    ensures h != [] && h[|h| - 1].team != t ==> ContinuesPoints(h, t) == (0, TrailRun(h, Opponent(t))) && ContinuesPoints(h, t).1 > 0
  {
    if h != [] && h[|h| - 1].team != t {
      assert h[|h| - 1].team == Opponent(t);
      assert h[..|h|] == h;
    }
  }

  /**
   * The first run covers the team's last points, the second the
   * opponent's points before them, and the record before both (if any) is
   * the team's.
   */
  lemma ContinuesPointsRuns(h: seq<PointRecord>, t: Team)
    ensures var (a, b) := ContinuesPoints(h, t);
      && a + b <= |h|
      && (forall j :: 0 <= j < a ==> Back(h, j).team == t)
      && (forall j :: a <= j < a + b ==> Back(h, j).team != t)
      && (a + b < |h| ==> Back(h, a + b).team == t)
  {
    var a := TrailRun(h, t);
    var h1 := h[..|h| - a];
    var b := TrailRun(h1, Opponent(t));
    TrailRunMeans(h, t);
    TrailRunMeans(h1, Opponent(t));
    forall j | a <= j < a + b
      ensures Back(h, j).team != t
    {
      assert Back(h, j) == Back(h1, j - a);
    }
    if a + b < |h| {
      assert Back(h, a + b) == Back(h1, b);
    }
  }

  /** s in the other order. */
  function Reversed<T>(s: seq<T>): (r: seq<T>)
    ensures |r| == |s| && forall j :: 0 <= j < |s| ==> r[j] == s[|s| - 1 - j]
  {
    if s == [] then [] else [s[|s| - 1]] + Reversed(s[..|s| - 1])
  }

  /** Reversing twice gives the list back. */
  lemma ReversedTwice<T>(s: seq<T>)
    ensures Reversed(Reversed(s)) == s
  {
  }

  /**
   * `get_continues_points(game, team)`: reverse the history in place,
   * count the two runs from the newest point, reverse it back.
   */
  method GetContinuesPoints(game: Game, t: Team) returns (teamPoints: nat, enemyPoints: nat)
    modifies game
    ensures game.State() == old(game.State())
    ensures (teamPoints, enemyPoints) == ContinuesPoints(old(game.pointsHistory), t)
  {
    ghost var h0 := game.pointsHistory;
    game.pointsHistory := Reversed(game.pointsHistory);
    teamPoints, enemyPoints := CountRuns(game.pointsHistory, t);
    ReversedTwice(h0);
    game.pointsHistory := Reversed(game.pointsHistory);
  }

  /**
   * The loop of `get_continues_points` over the reversed history h: count
   * t's points from the front, then the other team's, and stop at the
   * next change of team.
   */
  method CountRuns(h: seq<PointRecord>, t: Team) returns (teamPoints: nat, enemyPoints: nat)
    ensures (teamPoints, enemyPoints) == ContinuesPoints(Reversed(h), t)
  {
    teamPoints, enemyPoints := 0, 0;
    var changeTeam, changeEnemy := false, false;
    var i := 0;
    while i < |h|
      invariant 0 <= i <= |h| && !changeEnemy
      invariant !changeTeam ==> enemyPoints == 0 && teamPoints == i
      invariant changeTeam ==> teamPoints < i && enemyPoints == i - teamPoints && h[teamPoints].team != t
      invariant forall j :: 0 <= j < teamPoints ==> h[j].team == t
      invariant forall j :: teamPoints <= j < i ==> h[j].team != t
    {
      var point := h[i];
      if point.team == t && !changeTeam {
        teamPoints := teamPoints + 1;
        if enemyPoints > 0 {
          changeEnemy := true;
        }
      } else if point.team != t && !changeEnemy {
        enemyPoints := enemyPoints + 1;
        changeTeam := true;
      } else {
        break;
      }
      i := i + 1;
    }
    RunsCountedReversed(h, t, teamPoints, enemyPoints);
  }

  /** RunsCounted, read on the reversed history, where the newest point comes first. */
  lemma RunsCountedReversed(h: seq<PointRecord>, t: Team, a: nat, b: nat)
    requires a + b <= |h|
    requires forall j :: 0 <= j < a ==> h[j].team == t
    requires forall j :: a <= j < a + b ==> h[j].team != t
    requires a + b < |h| ==> h[a + b].team == t
    requires b > 0 || a == |h| || h[a].team != t
    ensures ContinuesPoints(Reversed(h), t) == (a, b)
  {
    var h0 := Reversed(h);
    forall j | 0 <= j < |h0|
      ensures Back(h0, j) == h[j]
    {
    }
    RunsCounted(h0, t, a, b);
  }

  /** The two counts the loop ends with are the two runs. */
  lemma RunsCounted(h: seq<PointRecord>, t: Team, a: nat, b: nat)
    requires a + b <= |h|
    requires forall j :: 0 <= j < a ==> Back(h, j).team == t
    requires forall j :: a <= j < a + b ==> Back(h, j).team != t
    requires a + b < |h| ==> Back(h, a + b).team == t
    requires b > 0 || a == |h| || Back(h, a).team != t
    ensures ContinuesPoints(h, t) == (a, b)
  {
    TrailRunIs(h, t, a);
    var h1 := h[..|h| - a];
    forall j | 0 <= j < b
      ensures Back(h1, j).team == Opponent(t)
    {
      assert Back(h1, j) == Back(h, a + j);
    }
    if b < |h1| {
      assert Back(h1, b) == Back(h, a + b);
    }
    TrailRunIs(h1, Opponent(t), b);
  }
}
