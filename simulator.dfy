/**
 * Simulator/simulator.py: the `Simulator` that plays a match rally by
 * rally over one `Dispatch`, and rewinds it.  Before each rally it
 * pushes the length of the dispatch stack onto its own stack of rally
 * markers (`self.stack`); `reset_instance` pops the dispatch stack back
 * to the last marker.  The simulator agents rewind with `reset_instance`
 * (a number of rallies) or with `reset_current` (to a stack length they
 * noted when they were made).
 *
 * Which action a player or a manager takes (`get_next_action`,
 * `decide_action`) is agent code outside this model and comes in as a
 * function of the match state; `handle_end_of_rally`, which `Game` does
 * not define, comes in the same way.
 */
module Simulation {
  import opened Teams
  import opened Rosters
  import opened Games
  import opened Actions
  import opened Dispatching
  import opened Minimax

  /** `INTERVAL_MANAGER`: the managers decide every this many rallies. */
  const IntervalManager: int := 20

  /** An entry of a simulation mask: a team's manager, or a player of a team, that has already decided. */
  datatype MaskEntry = ManagerOf(team: Team) | PlayerOf(dorsal: int, team: Team)

  /** What the simulator works on: the dispatcher's world and the rally markers (`self.stack`). */
  datatype Sim = Sim(world: World, marks: seq<int>)

  /** A simulator state reached, and whether the call completed (false: it raised or never returns there). */
  datatype SimOutcome = SimOutcome(sim: Sim, ok: bool)

  /** The match state with its rally counter set to n. */
  function WithInstance(w: World, n: int): (r: World)
    ensures r.game.instance == n && r.stack == w.stack && r.drawn == w.drawn
    ensures Ready(w.game) ==> Ready(r.game)
  {
    w.(game := w.game.(instance := n))
  }

  // ---------------------------------------------------------------------
  // `reset_instance`.

  /**
   * `reset_instance` as written: one `dispatch.reset()`, then resets
   * until the dispatch stack is as long as the last marker, then the
   * marker is popped.  Reading `self.stack[-1]` with no marker raises;
   * the game's rally counter is left alone.
   */
  function InstanceResetAsWritten(s: Sim, env: Env): (r: SimOutcome)
    requires Ready(s.world.game)
    ensures Ready(r.sim.world.game)
  {
    if s.marks == [] then SimOutcome(Sim(Popped(s.world, env).world, s.marks), false)
    else
      var rb := RolledBack(s.world, s.marks[|s.marks| - 1], env);
      if !rb.ok then SimOutcome(Sim(rb.world, s.marks), false)
      else SimOutcome(Sim(rb.world, s.marks[..|s.marks| - 1]), true)
  }

  /**
   * `reset_instance` as meant: the rewind also takes back the rally
   * counter that `simulate_rally` moved on.
   */
  function InstanceReset(s: Sim, env: Env): (r: SimOutcome)
    requires Ready(s.world.game)
    ensures Ready(r.sim.world.game)
  {
    var r := InstanceResetAsWritten(s, env);
    if r.ok then SimOutcome(Sim(WithInstance(r.sim.world, s.world.game.instance - 1), r.sim.marks), true)
    else r
  }

  /** A rollback to n entries that returns leaves the first n entries, and pops at least one when there was one. */
  lemma RolledBackCuts(w: World, n: int, env: Env)
    requires Ready(w.game)
    ensures var rb := RolledBack(w, n, env);
      rb.ok ==> 0 <= n <= |w.stack| && (w.stack != [] ==> n < |w.stack|) && rb.world.stack == w.stack[..n]
  {
    hide Ready;
    var p := Popped(w, env);
    if p.ok {
      PoppedToCuts(p.world, n, env);
      if PoppedTo(p.world, n, env).ok && w.stack != [] {
        assert p.world.stack == w.stack[..|w.stack| - 1];
        assert p.world.stack[..n] == w.stack[..n];
      }
    }
  }

  /**
   * `reset_instance` returns only where the last marker is no longer
   * than the dispatch stack; it then cuts the stack back to the marker,
   * pops the marker and takes back one rally.
   */
  lemma InstanceResetCuts(s: Sim, env: Env)
    requires Ready(s.world.game)
    ensures var r := InstanceReset(s, env);
      r.ok ==> (s.marks != [] && 0 <= s.marks[|s.marks| - 1] <= |s.world.stack|
        && r.sim.world.stack == s.world.stack[..s.marks[|s.marks| - 1]]
        && r.sim.marks == s.marks[..|s.marks| - 1]
        && r.sim.world.game.instance == s.world.game.instance - 1)
  {
    if s.marks != [] {
      RolledBackCuts(s.world, s.marks[|s.marks| - 1], env);
    }
  }

  /**
   * With no action dispatched since the last marker, `reset_instance`
   * never returns: its first `reset` takes the stack below the marker
   * and the loop cannot grow it back.
   */
  lemma InstanceResetNeedsAction(s: Sim, env: Env)
    requires Ready(s.world.game)
    requires s.marks != [] && s.world.stack != [] && |s.world.stack| <= s.marks[|s.marks| - 1]
    ensures !InstanceReset(s, env).ok
  {
    RolledBackCuts(s.world, s.marks[|s.marks| - 1], env);
  }

  lemma UntalliedKeepsInstance(s: GameState, a: Action, onPlayer: bool)
    ensures Untallied(s, a, onPlayer).state.instance == s.instance
  {
    match Tallied(s, a.team, a.player, StatOf(a.kind), -1, onPlayer)
    case None =>
    case Some(s1) =>
      assert s1 == WithTeam(s, a.team, TeamTallied(TeamOf(s, a.team), a.player, StatOf(a.kind), -1, onPlayer).value);
  }

  lemma RatedUndoKeepsInstance(s: GameState, d: Done)
    ensures UndoneRated(s, d).state.instance == s.instance
  {
    UntalliedKeepsInstance(s, d.action, true);
  }

  lemma AttackUndoKeepsInstance(s: GameState, d: Done)
    requires Ready(s)
    ensures UndoneAttack(s, d).state.instance == s.instance
  {
    var u := Untallied(s, d.action, true);
    UntalliedKeepsInstance(s, d.action, true);
    if u.ok && d.success && d.block.Some? {
      UntalliedKeepsInstance(u.state, d.block.value.action, true);
    }
  }

  lemma SubstitutionUndoKeepsInstance(s: GameState, a: Action, env: Env)
    requires Ready(s) && a.kind.Substitution?
    ensures UndoneSubstitution(s, a, env).state.instance == s.instance
  {
  }

  /** Undoing an action never touches the rally counter. */
  lemma UndoneKeepsInstance(s: GameState, d: Done, env: Env)
    requires Ready(s)
    ensures Undone(s, d, env).state.instance == s.instance
  {
    hide Ready;
    match d.action.kind
    case Receive => RatedUndoKeepsInstance(s, d);
    case Dig => RatedUndoKeepsInstance(s, d);
    case Serve => RatedUndoKeepsInstance(s, d);
    case Block => UntalliedKeepsInstance(s, d.action, true);
    case Set => UntalliedKeepsInstance(s, d.action, false);
    case Attack => AttackUndoKeepsInstance(s, d);
    case Move(src, dest) =>
      assert Undone(s, d, env) == UndoneMove(s, src, dest);
      assert UndoneMove(s, src, dest).state.(grid := s.grid).instance == s.instance;
    case Substitution(_) => SubstitutionUndoKeepsInstance(s, d.action, env);
    case Timeout =>
      var v := TeamOf(s, d.action.team);
      assert Undone(s, d, env).state == WithTeam(s, d.action.team, v.(timeOuts := v.timeOuts + 1));
    case Nothing =>
    case ManagerNothing =>
  }

  lemma RolledBackKeepsInstance(w: World, n: int, env: Env)
    requires Ready(w.game)
    ensures RolledBack(w, n, env).world.game.instance == w.game.instance
  {
    if w.stack != [] {
      UndoneKeepsInstance(w.game, w.stack[|w.stack| - 1], env);
    }
    var p := Popped(w, env);
    if p.ok {
      PoppedToKeepsInstance(p.world, n, env);
    }
  }

  lemma {:induction false} PoppedToKeepsInstance(w: World, n: int, env: Env)
    requires Ready(w.game)
    ensures PoppedTo(w, n, env).world.game.instance == w.game.instance
    decreases |w.stack|
  {
    if |w.stack| != n && |w.stack| >= n && w.stack != [] {
      UndoneKeepsInstance(w.game, w.stack[|w.stack| - 1], env);
      var p := Popped(w, env);
      if p.ok {
        PoppedToKeepsInstance(p.world, n, env);
      }
    }
  }

  /** `reset_instance` as written never moves the rally counter, whether it returns or raises. */
  lemma InstanceResetAsWrittenKeepsInstance(s: Sim, env: Env)
    requires Ready(s.world.game)
    ensures InstanceResetAsWritten(s, env).sim.world.game.instance == s.world.game.instance
  {
    if s.marks == [] {
      if s.world.stack != [] {
        UndoneKeepsInstance(s.world.game, s.world.stack[|s.world.stack| - 1], env);
      }
    } else {
      RolledBackKeepsInstance(s.world, s.marks[|s.marks| - 1], env);
    }
  }

  // ---------------------------------------------------------------------
  // `reset_all` and `SimulatorActionSimulateManager.reset`:
  // `while game.instance != target: reset_instance()`.

  /** The rewind loop as written: it stops at the target counter, or where `reset_instance` raises. */
  function ResetToAsWritten(s: Sim, target: int, env: Env): (r: SimOutcome)
    requires Ready(s.world.game)
    decreases |s.marks|
  {
    if s.world.game.instance == target then SimOutcome(s, true)
    else
      var r := InstanceResetAsWritten(s, env);
      if !r.ok then r else ResetToAsWritten(r.sim, target, env)
  }

  /**
   * As written, the rewind loop returns only where it starts at its
   * target: `reset_instance` leaves the counter alone, so the loop runs
   * until the markers run out and `self.stack[-1]` raises (or a reset
   * never returns).
   */
  lemma {:induction false} ResetToAsWrittenFails(s: Sim, target: int, env: Env)
    requires Ready(s.world.game)
    ensures ResetToAsWritten(s, target, env).ok <==> s.world.game.instance == target
    decreases |s.marks|
  {
    if s.world.game.instance != target {
      var r := InstanceResetAsWritten(s, env);
      InstanceResetAsWrittenKeepsInstance(s, env);
      if r.ok {
        ResetToAsWrittenFails(r.sim, target, env);
      }
    }
  }

  /** The rewind loop with `reset_instance` as meant. */
  function ResetTo(s: Sim, target: int, env: Env): (r: SimOutcome)
    requires Ready(s.world.game)
    ensures Ready(r.sim.world.game)
    decreases |s.marks|
  {
    if s.world.game.instance == target then SimOutcome(s, true)
    else
      var r := InstanceReset(s, env);
      if !r.ok then r else ResetTo(r.sim, target, env)
  }

  /**
   * r is s with its last k markers popped and the dispatch stack cut back
   * to the oldest of them.
   */
  predicate TakenBack(s: Sim, r: Sim, k: int)
  {
    && 0 <= k <= |s.marks|
    && r.marks == s.marks[..|s.marks| - k]
    && (k == 0 ==> r.world.stack == s.world.stack)
    && (k > 0 ==> 0 <= s.marks[|s.marks| - k] <= |s.world.stack| && r.world.stack == s.world.stack[..s.marks[|s.marks| - k]])
  }

  /** One rally taken back, then k - 1 more, is k taken back. */
  lemma TakenBackTwice(s: Sim, r1: Sim, r2: Sim, k: int)
    requires TakenBack(s, r1, 1) && TakenBack(r1, r2, k - 1)
    ensures TakenBack(s, r2, k)
  {
    var n := |s.marks|;
    if k > 1 {
      assert r1.marks[..n - 1 - (k - 1)] == s.marks[..n - k];
      assert r1.marks[n - 1 - (k - 1)] == s.marks[n - k];
      assert s.world.stack[..s.marks[n - 1]][..s.marks[n - k]] == s.world.stack[..s.marks[n - k]];
    }
  }

  /**
   * The rewind takes back k = instance - target rallies: it returns at
   * the target counter with the last k markers popped and the dispatch
   * stack cut back to the oldest of them.
   */
  lemma {:induction false} ResetToRewinds(s: Sim, target: int, env: Env)
    requires Ready(s.world.game)
    ensures var r := ResetTo(s, target, env);
      r.ok ==> r.sim.world.game.instance == target && TakenBack(s, r.sim, s.world.game.instance - target)
    decreases |s.marks|
  {
    hide *;
    if s.world.game.instance == target {
      ResetToAtTarget(s, target, env);
    } else {
      ResetToStep(s, target, env);
      var r := InstanceReset(s, env);
      if r.ok {
        var k := s.world.game.instance - target;
        assert r.sim.world.game.instance - target == k - 1;
        ResetToRewinds(r.sim, target, env);
        var f := ResetTo(r.sim, target, env);
        if f.ok {
          TakenBackTwice(s, r.sim, f.sim, k);
        }
      }
    }
  }

  /** At its target the rewind loop returns at once and takes nothing back. */
  lemma ResetToAtTarget(s: Sim, target: int, env: Env)
    requires Ready(s.world.game) && s.world.game.instance == target
    ensures ResetTo(s, target, env) == SimOutcome(s, true) && TakenBack(s, s, 0)
  {
    assert s.marks[..|s.marks|] == s.marks;
  }

  /** One turn of the rewind loop: a `reset_instance` that returns takes back one rally. */
  lemma ResetToStep(s: Sim, target: int, env: Env)
    requires Ready(s.world.game) && s.world.game.instance != target
    ensures var r := InstanceReset(s, env);
      && ResetTo(s, target, env) == (if r.ok then ResetTo(r.sim, target, env) else r)
      && (r.ok ==> TakenBack(s, r.sim, 1) && r.sim.world.game.instance == s.world.game.instance - 1)
  {
    InstanceResetCuts(s, env);
  }

  // ---------------------------------------------------------------------
  // `simulate_rally` and `simulate_managers`.

  /**
   * The rally loop as written: while `is_rally_over()` is false, the
   * side with the ball picks an action and it is dispatched.  The loop
   * has no bound in the source; here it gives up (as a failure) after
   * fuel actions.
   */
  function Rallied(w: World, play: GameState -> Action, env: Env, fuel: nat): (r: Outcome)
    requires Ready(w.game)
    ensures Ready(r.world.game)
    ensures r.ok ==> r.world.game.rally.rallyOver
    decreases fuel
  {
    if w.game.rally.rallyOver then Outcome(w, true)
    else if fuel == 0 then Outcome(w, false)
    else
      var d := Dispatched(w, play(w.game), env);
      if !d.ok then d else Rallied(d.world, play, env, fuel - 1)
  }

  /**
   * As written, a rally that has begun never ends: no action sets the
   * rally flag, so the loop runs until a dispatch raises (or forever).
   */
  lemma {:induction false} RalliedNeverEnds(w: World, play: GameState -> Action, env: Env, fuel: nat)
    requires Ready(w.game) && !w.game.rally.rallyOver
    ensures !Rallied(w, play, env, fuel).ok
    decreases fuel
  {
    hide Ready, Dispatched;
    if fuel > 0 {
      var d := Dispatched(w, play(w.game), env);
      DispatchKeepsRally(w, play(w.game), env);
      if d.ok {
        RalliedNeverEnds(d.world, play, env, fuel - 1);
      }
    }
  }

  /** `is_rally_over` as meant: the rally flag is set, or a point has been scored since the history held `points` entries. */
  predicate RallyOver(g: GameState, points: int)
  {
    g.rally.rallyOver || |g.pointsHistory| > points
  }

  /** The rally loop with `is_rally_over` as meant: it ends with the rally's point. */
  function RalliedToPoint(w: World, play: GameState -> Action, env: Env, points: int, fuel: nat): (r: Outcome)
    requires Ready(w.game)
    ensures Ready(r.world.game)
    ensures r.ok ==> RallyOver(r.world.game, points)
    decreases fuel
  {
    if RallyOver(w.game, points) then Outcome(w, true)
    else if fuel == 0 then Outcome(w, false)
    else
      var d := Dispatched(w, play(w.game), env);
      if !d.ok then d else RalliedToPoint(d.world, play, env, points, fuel - 1)
  }

  /**
   * The rally only pushes onto the dispatch stack and keeps the rally
   * counter, and a rally that was open and ends has pushed something.
   */
  lemma {:induction false} RalliedToPointExtends(w: World, play: GameState -> Action, env: Env, points: int, fuel: nat)
    requires Ready(w.game)
    ensures var r := RalliedToPoint(w, play, env, points, fuel);
      && |r.world.stack| >= |w.stack| && r.world.stack[..|w.stack|] == w.stack
      && r.world.game.instance == w.game.instance
      && (r.ok && !RallyOver(w.game, points) ==> |r.world.stack| > |w.stack|)
    decreases fuel
  {
    hide Ready, Dispatched;
    if !RallyOver(w.game, points) && fuel > 0 {
      var d := Dispatched(w, play(w.game), env);
      DispatchExtends(w, play(w.game), env);
      DispatchKeepsRally(w, play(w.game), env);
      if d.ok {
        RalliedToPointExtends(d.world, play, env, points, fuel - 1);
        var st := RalliedToPoint(d.world, play, env, points, fuel - 1).world.stack;
        assert st[..|w.stack|] == st[..|d.world.stack|][..|w.stack|];
      }
    }
  }

  /** One manager's turn: unless the mask holds it, it joins the mask and its decision is dispatched. */
  function ManagerTurn(w: World, mask: set<MaskEntry>, t: Team, manage: (GameState, Team) -> Action, env: Env)
    : (r: (Outcome, set<MaskEntry>))
    requires Ready(w.game)
    ensures Ready(r.0.world.game)
  {
    if ManagerOf(t) in mask then (Outcome(w, true), mask)
    else (Dispatched(w, manage(w.game, t), env), mask + {ManagerOf(t)})
  }

  /** `simulate_managers(mask)`: every `INTERVAL_MANAGER` rallies, the home manager and then the away manager take their turn. */
  function ManagersSimulated(w: World, mask: set<MaskEntry>, manage: (GameState, Team) -> Action, env: Env)
    : (r: (Outcome, set<MaskEntry>))
    requires Ready(w.game)
    ensures Ready(r.0.world.game)
  {
    if w.game.instance % IntervalManager != 0 then (Outcome(w, true), mask)
    else
      var (o1, m1) := ManagerTurn(w, mask, T1, manage, env);
      if !o1.ok then (o1, m1) else ManagerTurn(o1.world, m1, T2, manage, env)
  }

  /**
   * The managers decide only on a rally counter that is a multiple of
   * the interval, each at most once per mask: a manager already in the
   * mask dispatches nothing, and one that decides joins the mask.  Their
   * decisions only push onto the dispatch stack.
   */
  lemma ManagersOncePerMask(w: World, mask: set<MaskEntry>, manage: (GameState, Team) -> Action, env: Env)
    requires Ready(w.game)
    ensures var (o, m) := ManagersSimulated(w, mask, manage, env);
      && (w.game.instance % IntervalManager != 0 ==> o == Outcome(w, true) && m == mask)
      && (o.ok && w.game.instance % IntervalManager == 0 ==> m == mask + {ManagerOf(T1), ManagerOf(T2)})
      && (ManagerOf(T1) in mask && ManagerOf(T2) in mask ==> o == Outcome(w, true) && m == mask)
      && |o.world.stack| >= |w.stack| && o.world.stack[..|w.stack|] == w.stack
      && o.world.game.instance == w.game.instance
  {
    hide Ready, Dispatched;
    if w.game.instance % IntervalManager == 0 {
      var (o1, m1) := ManagerTurn(w, mask, T1, manage, env);
      if ManagerOf(T1) !in mask {
        DispatchExtends(w, manage(w.game, T1), env);
        DispatchKeepsRally(w, manage(w.game, T1), env);
      }
      if o1.ok && ManagerOf(T2) !in m1 {
        DispatchExtends(o1.world, manage(o1.world.game, T2), env);
        DispatchKeepsRally(o1.world, manage(o1.world.game, T2), env);
        var st := Dispatched(o1.world, manage(o1.world.game, T2), env).world.stack;
        assert st[..|w.stack|] == st[..|o1.world.stack|][..|w.stack|];
      }
    }
  }

  /** The world once `start_rally` has run. */
  function StartedWorld(w: World): (r: World)
    requires Ready(w.game)
    ensures Ready(r.game) && r.stack == w.stack && r.game.rally.rallyOver == false
    ensures r.game.instance == w.game.instance && r.game.pointsHistory == w.game.pointsHistory
  {
    var r := w.(game := RallyStarted(w.game));
    assert r.game.t1 == w.game.t1 && r.game.t2 == w.game.t2;
    r
  }

  /** The end of `simulate_rally`: the rally is counted and the managers decide. */
  function RallyCounted(w: World, marks: seq<int>, mask: set<MaskEntry>, manage: (GameState, Team) -> Action, env: Env)
    : (r: (SimOutcome, set<MaskEntry>))
    requires Ready(w.game)
    ensures Ready(r.0.sim.world.game)
  {
    var m := ManagersSimulated(WithInstance(w, w.game.instance + 1), mask, manage, env);
    (SimOutcome(Sim(m.0.world, marks), m.0.ok), m.1)
  }

  /**
   * `simulate_rally(mask)` as written: push the dispatch stack's length
   * as a marker, start the rally, play it out, count it, and let the
   * managers decide.  `handle_end_of_rally`, which `Game` does not
   * define, is left out.
   */
  function RallySimulatedAsWritten(s: Sim, mask: set<MaskEntry>, play: GameState -> Action,
                                   manage: (GameState, Team) -> Action, env: Env, fuel: nat): (r: (SimOutcome, set<MaskEntry>))
    requires Ready(s.world.game)
    ensures Ready(r.0.sim.world.game)
  {
    var marks := s.marks + [|s.world.stack|];
    var r := Rallied(StartedWorld(s.world), play, env, fuel);
    if !r.ok then (SimOutcome(Sim(r.world, marks), false), mask)
    else RallyCounted(r.world, marks, mask, manage, env)
  }

  /** As written, `simulate_rally` never returns: its rally never ends. */
  lemma RallySimulatedAsWrittenNeverReturns(s: Sim, mask: set<MaskEntry>, play: GameState -> Action,
                                            manage: (GameState, Team) -> Action, env: Env, fuel: nat)
    requires Ready(s.world.game)
    ensures !RallySimulatedAsWritten(s, mask, play, manage, env, fuel).0.ok
  {
    RalliedNeverEnds(StartedWorld(s.world), play, env, fuel);
  }

  /** `simulate_rally(mask)` with the rally ending at its point. */
  function RallySimulated(s: Sim, mask: set<MaskEntry>, play: GameState -> Action,
                          manage: (GameState, Team) -> Action, env: Env, fuel: nat): (r: (SimOutcome, set<MaskEntry>))
    requires Ready(s.world.game)
    ensures Ready(r.0.sim.world.game)
  {
    var marks := s.marks + [|s.world.stack|];
    var r := RalliedToPoint(StartedWorld(s.world), play, env, |s.world.game.pointsHistory|, fuel);
    if !r.ok then (SimOutcome(Sim(r.world, marks), false), mask)
    else RallyCounted(r.world, marks, mask, manage, env)
  }

  /** Counting the rally keeps the markers and moves the counter on by one; the managers' decisions only push onto the stack. */
  lemma RallyCountedExtends(w: World, marks: seq<int>, mask: set<MaskEntry>, manage: (GameState, Team) -> Action, env: Env)
    requires Ready(w.game)
    ensures var r := RallyCounted(w, marks, mask, manage, env).0;
      && r.sim.marks == marks && |r.sim.world.stack| >= |w.stack| && r.sim.world.stack[..|w.stack|] == w.stack
      && r.sim.world.game.instance == w.game.instance + 1
  {
    hide Ready, Dispatched, ManagersSimulated;
    ManagersOncePerMask(WithInstance(w, w.game.instance + 1), mask, manage, env);
  }

  /**
   * `simulate_rally` pushes its marker; a rally that returns has pushed
   * at least one action over the stack it found and counted one rally.
   */
  lemma RallySimulatedExtends(s: Sim, mask: set<MaskEntry>, play: GameState -> Action,
                              manage: (GameState, Team) -> Action, env: Env, fuel: nat)
    requires Ready(s.world.game)
    ensures var r := RallySimulated(s, mask, play, manage, env, fuel).0;
      && r.sim.marks == s.marks + [|s.world.stack|]
      && (r.ok ==> |r.sim.world.stack| > |s.world.stack| && r.sim.world.stack[..|s.world.stack|] == s.world.stack
                   && r.sim.world.game.instance == s.world.game.instance + 1)
  {
    var points := |s.world.game.pointsHistory|;
    hide Ready, Dispatched, RalliedToPoint, RallyCounted, StartedWorld;
    var started := StartedWorld(s.world);
    var rl := RalliedToPoint(started, play, env, points, fuel);
    RalliedToPointExtends(started, play, env, points, fuel);
    if rl.ok {
      RallyCountedExtends(rl.world, s.marks + [|s.world.stack|], mask, manage, env);
      var st := RallyCounted(rl.world, s.marks + [|s.world.stack|], mask, manage, env).0.sim.world.stack;
      assert st[..|s.world.stack|] == st[..|rl.world.stack|][..|s.world.stack|];
    }
  }

  /**
   * `reset_instance` takes back what `simulate_rally` did: a rewind that
   * returns gives back the stack, the markers and the rally counter the
   * rally found.
   */
  lemma RallyThenReset(s: Sim, mask: set<MaskEntry>, play: GameState -> Action,
                       manage: (GameState, Team) -> Action, env: Env, fuel: nat)
    requires Ready(s.world.game)
    ensures var r := RallySimulated(s, mask, play, manage, env, fuel).0;
      var b := InstanceReset(r.sim, env);
      r.ok && b.ok ==> (b.sim.world.stack == s.world.stack && b.sim.marks == s.marks
        && b.sim.world.game.instance == s.world.game.instance)
  {
    hide *;
    var r := RallySimulated(s, mask, play, manage, env, fuel).0;
    RallySimulatedExtends(s, mask, play, manage, env, fuel);
    InstanceResetCuts(r.sim, env);
    assert (s.marks + [|s.world.stack|])[..|s.marks|] == s.marks;
  }

  // ---------------------------------------------------------------------
  // The simulator itself: its dispatcher and its stack of rally markers.
  // Each method is proved to end where the functions above end.

  class Simulator {
    const dispatch: Dispatch
    var marks: seq<int>

    /** The dispatcher is valid. */
    predicate Valid()
      reads this, dispatch, dispatch.game, dispatch.game.field, dispatch.game.t1, dispatch.game.t2,
            dispatch.game.t1.lineUp, dispatch.game.t2.lineUp
    {
      dispatch.Valid()
    }

    /** The simulator's state: the dispatcher's world and the rally markers. */
    function Current(): Sim
      reads this, dispatch, dispatch.game, dispatch.game.field, dispatch.game.t1, dispatch.game.t2,
            dispatch.game.t1.lineUp, dispatch.game.t2.lineUp
    {
      Sim(dispatch.Current(), marks)
    }

    /** `Simulator(home, away, game)`: a fresh dispatcher over the game, and no markers. */
    constructor (game: Game, env: Env)
      ensures fresh(dispatch) && dispatch.game == game && dispatch.env == env
      ensures dispatch.stack == [] && dispatch.drawn == 0 && marks == []
    {
      dispatch := new Dispatch(game, env);
      marks := [];
    }

    /**
     * `reset_instance`, with the rally counter taken back: one reset, then
     * resets down to the last marker, then the marker is popped.
     */
    method ResetInstance() returns (ok: bool)
      requires Valid()
      modifies this, dispatch, dispatch.game, dispatch.game.field, dispatch.game.t1, dispatch.game.t2,
               dispatch.game.t1.lineUp, dispatch.game.t2.lineUp
      ensures dispatch.SameLineUps()
      ensures var r := InstanceReset(old(Current()), dispatch.env);
        ok == r.ok && (ok ==> Valid() && Current() == r.sim)
    {
      hide Ready, Dispatched, PoppedTo, Undone;
      ghost var s := Current();
      ok := dispatch.Reset();
      if marks == [] || !ok {
        return false;
      }
      ok := dispatch.PopTo(marks[|marks| - 1]);
      if !ok {
        return;
      }
      RolledBackKeepsInstance(s.world, marks[|marks| - 1], dispatch.env);
      marks := marks[..|marks| - 1];
      dispatch.game.instance := dispatch.game.instance - 1;
    }

    /**
     * `while game.instance != target: reset_instance()`: `reset_all` with
     * target 1, and `SimulatorActionSimulateManager.reset` with the
     * counter its agent noted, plus one.
     */
    method RewindTo(target: int) returns (ok: bool)
      requires Valid()
      modifies this, dispatch, dispatch.game, dispatch.game.field, dispatch.game.t1, dispatch.game.t2,
               dispatch.game.t1.lineUp, dispatch.game.t2.lineUp
      ensures dispatch.SameLineUps()
      ensures var r := ResetTo(old(Current()), target, dispatch.env);
        ok == r.ok && (ok ==> Valid() && Current() == r.sim)
    {
      hide Ready, Dispatched, InstanceReset;
      while dispatch.game.instance != target
        invariant Valid() && dispatch.SameLineUps()
        invariant ResetTo(Current(), target, dispatch.env) == ResetTo(old(Current()), target, dispatch.env)
        decreases |marks|
      {
        ghost var s := Current();
        InstanceResetCuts(s, dispatch.env);
        ok := ResetInstance();
        if !ok {
          return;
        }
      }
      ok := true;
    }

    /** The rally loop, ending with the rally's point: points is the length of the history when the rally began. */
    method PlayRally(play: GameState -> Action, points: int, fuel: nat) returns (ok: bool)
      requires Valid()
      modifies dispatch, dispatch.game, dispatch.game.field, dispatch.game.t1, dispatch.game.t2,
               dispatch.game.t1.lineUp, dispatch.game.t2.lineUp
      ensures dispatch.SameLineUps()
      ensures var r := RalliedToPoint(old(dispatch.Current()), play, dispatch.env, points, fuel);
        ok == r.ok && (ok ==> Valid() && dispatch.Current() == r.world)
    {
      hide Ready, Dispatched;
      var n := fuel;
      while !(dispatch.game.rally.rallyOver || |dispatch.game.pointsHistory| > points)
        invariant Valid() && dispatch.SameLineUps()
        invariant RalliedToPoint(dispatch.Current(), play, dispatch.env, points, n)
               == RalliedToPoint(old(dispatch.Current()), play, dispatch.env, points, fuel)
        decreases n
      {
        if n == 0 {
          return false;
        }
        ok := dispatch.DispatchAction(play(dispatch.game.State()));
        if !ok {
          return;
        }
        n := n - 1;
      }
      ok := true;
    }

    /** One manager's turn, as `ManagerTurn` states it. */
    method ManagerStep(mask: set<MaskEntry>, t: Team, manage: (GameState, Team) -> Action)
      returns (ok: bool, newMask: set<MaskEntry>)
      requires Valid()
      modifies dispatch, dispatch.game, dispatch.game.field, dispatch.game.t1, dispatch.game.t2,
               dispatch.game.t1.lineUp, dispatch.game.t2.lineUp
      ensures dispatch.SameLineUps()
      ensures var r := ManagerTurn(old(dispatch.Current()), mask, t, manage, dispatch.env);
        ok == r.0.ok && newMask == r.1 && (ok ==> Valid() && dispatch.Current() == r.0.world)
    {
      newMask := mask;
      ok := true;
      if ManagerOf(t) !in mask {
        newMask := mask + {ManagerOf(t)};
        ok := dispatch.DispatchAction(manage(dispatch.game.State(), t));
      }
    }

    /** `simulate_managers(mask)`: the new mask is returned rather than updated in place. */
    method SimulateManagers(mask: set<MaskEntry>, manage: (GameState, Team) -> Action)
      returns (ok: bool, newMask: set<MaskEntry>)
      requires Valid()
      modifies dispatch, dispatch.game, dispatch.game.field, dispatch.game.t1, dispatch.game.t2,
               dispatch.game.t1.lineUp, dispatch.game.t2.lineUp
      ensures dispatch.SameLineUps()
      ensures var r := ManagersSimulated(old(dispatch.Current()), mask, manage, dispatch.env);
        ok == r.0.ok && newMask == r.1 && (ok ==> Valid() && dispatch.Current() == r.0.world)
    {
      if dispatch.game.instance % IntervalManager != 0 {
        return true, mask;
      }
      ok, newMask := ManagerStep(mask, T1, manage);
      if !ok {
        return;
      }
      ok, newMask := ManagerStep(newMask, T2, manage);
    }

    /**
     * `simulate_rally(mask)`, with the rally ending at its point: push the
     * marker, start the rally, play it, count it, let the managers decide.
     */
    method SimulateRally(mask: set<MaskEntry>, play: GameState -> Action, manage: (GameState, Team) -> Action, fuel: nat)
      returns (ok: bool, newMask: set<MaskEntry>)
      requires Valid()
      modifies this, dispatch, dispatch.game, dispatch.game.field, dispatch.game.t1, dispatch.game.t2,
               dispatch.game.t1.lineUp, dispatch.game.t2.lineUp
      ensures dispatch.SameLineUps()
      ensures var r := RallySimulated(old(Current()), mask, play, manage, dispatch.env, fuel);
        ok == r.0.ok && (ok ==> Valid() && Current() == r.0.sim && newMask == r.1)
    {
      hide Ready, Dispatched, RalliedToPoint, ManagersSimulated;
      ghost var s := Current();
      marks := marks + [|dispatch.stack|];
      var points := |dispatch.game.pointsHistory|;
      dispatch.game.StartRally();
      assert dispatch.Current() == StartedWorld(s.world);
      ok := PlayRally(play, points, fuel);
      newMask := mask;
      if !ok {
        return;
      }
      ghost var rl := dispatch.Current();
      dispatch.game.instance := dispatch.game.instance + 1;
      assert dispatch.Current() == WithInstance(rl, rl.game.instance + 1);
      ok, newMask := SimulateManagers(mask, manage);
    }
  }
}
