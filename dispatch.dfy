/**
 * Agents/actions.py, in place: the action objects' `execute` and `reset`
 * on the `Game` object and its teams and field, and the `Dispatch` object
 * with its stack.  Every method does what the function of the same step
 * in module Actions says.
 */
module Dispatching {
  import opened Teams
  import opened Stats
  import opened LineUps
  import opened Fields
  import opened Rosters
  import opened Games
  import opened Actions

  /**
   * `while len(dispatch.stack) != n: dispatch.reset()`.  Where the stack
   * is shorter than n the source never returns (reset on an empty stack
   * does nothing); that case, like a reset that raises, is a failure.
   */
  function PoppedTo(w: World, n: int, env: Env): (r: Outcome)
    requires Ready(w.game)
    ensures Ready(r.world.game) && r.world.drawn == w.drawn
    ensures |w.stack| < n ==> !r.ok
    ensures r.ok ==> |r.world.stack| == n
    decreases |w.stack|
  {
    if |w.stack| == n then Outcome(w, true)
    else if |w.stack| < n || w.stack == [] then Outcome(w, false)
    else
      var p := Popped(w, env);
      if !p.ok then p else PoppedTo(p.world, n, env)
  }

  /** When it returns, the stack is cut back to its first n entries. */
  lemma {:induction false} PoppedToCuts(w: World, n: int, env: Env)
    requires Ready(w.game)
    ensures var r := PoppedTo(w, n, env);
      r.ok ==> 0 <= n <= |w.stack| && r.world.stack == w.stack[..n]
    decreases |w.stack|
  {
    if |w.stack| > n && w.stack != [] {
      var p := Popped(w, env);
      if p.ok {
        assert p.world.stack == w.stack[..|w.stack| - 1];
        PoppedToCuts(p.world, n, env);
      }
    }
  }

  /**
   * `Dispatch`: the game it drives, the stack of executed actions, and
   * the callees the actions use; `drawn` counts the `random()` values
   * taken from `env.random` so far.
   */
  class Dispatch {
    const game: Game
    const env: Env
    var stack: seq<Done>
    var drawn: nat

    /** The game's teams and line-ups are distinct, and its state is one the rules can run on. */
    predicate Valid()
      reads this, game, game.field, game.t1, game.t2, game.t1.lineUp, game.t2.lineUp
    {
      game.Valid() && Ready(game.State())
    }

    /** The dispatcher's world: the match state, the stack and the draws used. */
    function Current(): World
      reads this, game, game.field, game.t1, game.t2, game.t1.lineUp, game.t2.lineUp
    {
      World(game.State(), stack, drawn)
    }

    /** `Dispatch(game)`: an empty stack. */
    constructor (game: Game, env: Env)
      ensures this.game == game && this.env == env && stack == [] && drawn == 0
    {
      this.game := game;
      this.env := env;
      stack := [];
      drawn := 0;
    }

    /** Both teams still hold the line-up objects they held before. */
    twostate predicate SameLineUps()
      reads this, game, game.t1, game.t2
    {
      game.t1.lineUp == old(game.t1.lineUp) && game.t2.lineUp == old(game.t2.lineUp)
    }

    /** The `TeamData` of team t. */
    function TeamObject(t: Team): TeamData
      reads this, game
    {
      if t == T1 then game.t1 else game.t2
    }

    /** A counter of team t's statistics (and of player p's, when onPlayer) moves by d. */
    method TallyTeam(t: Team, p: int, k: Stat, d: int, onPlayer: bool) returns (ok: bool)
      requires Valid()
      modifies game.t1, game.t2
      ensures Valid() && SameLineUps()
      ensures var r := Tallied(old(game.State()), t, p, k, d, onPlayer);
        ok == r.Some? && game.State() == if ok then r.value else old(game.State())
    {
      var team := TeamObject(t);
      ok := team.Tally(p, k, d, onPlayer);
      assert game.State() == WithTeam(old(game.State()), t, team.View());
    }

    /** `execute` of Receive, Dig, Attack and Block up to the draw: counters, rating, one `random()`. */
    method RunRated(a: Action) returns (d: Done, ok: bool)
      requires Valid()
      modifies this, game.t1, game.t2
      ensures Valid() && SameLineUps() && stack == old(stack)
      ensures var e := Rated(old(game.State()), old(drawn), a, env);
        ok == e.ok && d == e.done && game.State() == e.game && drawn == e.drawn
    {
      d := Done(a, false, false, None);
      ok := TallyTeam(a.team, a.player, StatOf(a.kind), 1, true);
      if !ok {
        return;
      }
      var team := TeamObject(a.team);
      if a.player !in team.data {
        ok := false;
        return;
      }
      var u := env.random(drawn);
      drawn := drawn + 1;
      d := Done(a, Succeeds(u, SkillOf(a.kind, team.data[a.player])), false, None);
    }

    /** `score_point(t)` where an action gives a point. */
    method Score(t: Team) returns (ok: bool)
      requires Valid()
      modifies game, game.field, game.t1, game.t2, game.t1.lineUp, game.t2.lineUp
      ensures Valid() && SameLineUps()
      ensures var p := PointScored(old(game.State()), t, env.coin);
        ok == p.ok && game.State() == p.state
    {
      ok := game.ScorePoint(t, env.coin);
    }

    /** `execute` of Receive and Dig: a failure gives the opponent a point. */
    method RunReceive(a: Action) returns (d: Done, ok: bool)
      requires Valid()
      modifies this, game, game.field, game.t1, game.t2, game.t1.lineUp, game.t2.lineUp
      ensures Valid() && SameLineUps() && stack == old(stack)
      ensures var e := ScoredOnFailure(Rated(old(game.State()), old(drawn), a, env), Opponent(a.team), env.coin);
        ok == e.ok && d == e.done && game.State() == e.game && drawn == e.drawn
    {
      d, ok := RunRated(a);
      if ok && !d.success {
        ok := Score(Opponent(a.team));
      }
    }

    /** `Serve.execute`: the serve counters, the rating looked up, and success. */
    method RunServe(a: Action) returns (d: Done, ok: bool)
      requires Valid()
      modifies game.t1, game.t2
      ensures Valid() && SameLineUps()
      ensures var e := Served(old(game.State()), drawn, a);
        ok == e.ok && d == e.done && game.State() == e.game && drawn == e.drawn
    {
      d := Done(a, false, false, None);
      ok := TallyTeam(a.team, a.player, Serves, 1, true);
      if !ok {
        return;
      }
      if a.player !in TeamObject(a.team).data {
        ok := false;
        return;
      }
      d := Done(a, true, false, None);
    }

    /** `Set.execute`: the team's `sets_won` and a draw against the setting skill. */
    method RunSet(a: Action) returns (d: Done, ok: bool)
      requires Valid()
      modifies this, game.t1, game.t2
      ensures Valid() && SameLineUps() && stack == old(stack)
      ensures var e := SetExecuted(old(game.State()), old(drawn), a, env);
        ok == e.ok && d == e.done && game.State() == e.game && drawn == e.drawn
    {
      d := Done(a, false, false, None);
      ok := TallyTeam(a.team, a.player, SetsWon, 1, false);
      if !ok {
        return;
      }
      var u := env.random(drawn);
      drawn := drawn + 1;
      d := Done(a, Succeeds(u, SettingSkill), false, None);
    }

    /** `Attack.execute`: the draw, then the opponent's block and the point. */
    method RunAttack(a: Action) returns (d: Done, ok: bool)
      requires Valid()
      modifies this, game, game.field, game.t1, game.t2, game.t1.lineUp, game.t2.lineUp
      ensures Valid() && SameLineUps() && stack == old(stack)
      ensures var e := Attacked(old(game.State()), old(drawn), a, env);
        ok == e.ok && d == e.done && game.State() == e.game && drawn == e.drawn
    {
      var opp := Opponent(a.team);
      d, ok := RunRated(a);
      if !ok {
        return;
      }
      if !d.success {
        ok := Score(opp);
        return;
      }
      var blocker := env.teamBlocker(TeamOf(game.State(), opp));
      var b, blocked := RunRated(Action(Block, blocker, opp));
      d := Done(a, true, b.success, Some(b));
      if !blocked {
        ok := false;
        return;
      }
      ok := Score(if b.success then opp else a.team);
    }

    /** `Move.execute`: `move_player(src, dest)`. */
    method RunMove(a: Action) returns (d: Done, ok: bool)
      requires Valid() && a.kind.Move?
      modifies game.field
      ensures Valid() && SameLineUps()
      ensures var e := Moved(old(game.State()), drawn, a);
        ok == e.ok && d == e.done && game.State() == e.game && drawn == e.drawn
    {
      d := Done(a, false, false, None);
      if !OnCourt(a.kind.src) || !OnCourt(a.kind.dest) {
        ok := false;
        return;
      }
      ok := game.field.MovePlayer(a.kind.src, a.kind.dest);
    }

    /**
     * `Substitution.execute`.  Where a `remove` raises, the record and the
     * line-up have already changed; the state reached then is not stated.
     */
    method RunSubstitution(a: Action) returns (d: Done, ok: bool)
      requires Valid() && a.kind.Substitution?
      modifies game.field, game.t1, game.t2, game.t1.lineUp, game.t2.lineUp
      ensures SameLineUps()
      ensures var e := Substituted(old(game.State()), drawn, a, env);
        ok == e.ok && d == e.done && drawn == e.drawn && (ok ==> Valid() && game.State() == e.game)
    {
      d := Done(a, false, false, None);
      var team := TeamObject(a.team);
      var inn := a.kind.playerIn;
      var m: Formation := team.lineUp.slots;
      var grid := game.field.grid;
      ok := team.Substitute(a.player, inn, game.board.currentSet, env.substitutePlayer(m, a.player, inn));
      if !ok {
        return;
      }
      game.field.grid := env.updatePlayerOnField(grid, a.player, inn, a.team);
      assert game.State() == Substituted(old(game.State()), drawn, a, env).game;
    }

    /** `Timeout.execute`: `register_time_out`. */
    method RunTimeout(a: Action) returns (d: Done, ok: bool)
      requires Valid() && a.kind.Timeout?
      modifies game.t1, game.t2
      ensures Valid() && SameLineUps()
      ensures var e := Execute(old(game.State()), drawn, a, env);
        ok == e.ok && d == e.done && game.State() == e.game && drawn == e.drawn
    {
      game.RegisterTimeOut(a.team);
      d := Done(a, false, false, None);
      ok := true;
    }

    /** `execute` of any action. */
    method Run(a: Action) returns (d: Done, ok: bool)
      requires Valid()
      modifies this, game, game.field, game.t1, game.t2, game.t1.lineUp, game.t2.lineUp
      ensures SameLineUps() && stack == old(stack)
      ensures var e := Execute(old(game.State()), old(drawn), a, env);
        ok == e.ok && d == e.done && drawn == e.drawn
      ensures var e := Execute(old(game.State()), old(drawn), a, env);
        ok || !a.kind.Substitution? ==> Valid() && game.State() == e.game
    {
      match a.kind
      case Receive => d, ok := RunReceive(a);
      case Dig => d, ok := RunReceive(a);
      case Block => d, ok := RunRated(a);
      case Attack => d, ok := RunAttack(a);
      case Serve => d, ok := RunServe(a);
      case Set => d, ok := RunSet(a);
      case Move(_, _) => d, ok := RunMove(a);
      case Substitution(_) => d, ok := RunSubstitution(a);
      case Timeout => d, ok := RunTimeout(a);
      case Nothing => d, ok := Done(a, false, false, None), true;
      case ManagerNothing => d, ok := Done(a, false, false, None), true;
    }

    /** `reset` of Receive, Dig and Serve. */
    method UndoRated(d: Done) returns (ok: bool)
      requires Valid()
      modifies game, game.t1, game.t2
      ensures Valid() && SameLineUps()
      ensures var u := UndoneRated(old(game.State()), d);
        ok == u.ok && game.State() == u.state
    {
      var a := d.action;
      ok := TallyTeam(a.team, a.player, StatOf(a.kind), -1, true);
      if ok && !d.success {
        game.RevertPoint(Opponent(a.team));
      }
    }

    /** `reset` of Block (onPlayer) and of Set (the team's `sets_won` only). */
    method UndoTally(d: Done, onPlayer: bool) returns (ok: bool)
      requires Valid()
      modifies game.t1, game.t2
      ensures Valid() && SameLineUps()
      ensures var u := Untallied(old(game.State()), d.action, onPlayer);
        ok == u.ok && game.State() == u.state
    {
      var a := d.action;
      ok := TallyTeam(a.team, a.player, StatOf(a.kind), -1, onPlayer);
    }

    /** `Attack.reset`: its counter, its block's counter, and the point. */
    method UndoAttack(d: Done) returns (ok: bool)
      requires Valid()
      modifies game, game.t1, game.t2
      ensures Valid() && SameLineUps()
      ensures var u := UndoneAttack(old(game.State()), d);
        ok == u.ok && game.State() == u.state
    {
      ok := UndoTally(d, true);
      if ok && d.success && d.block.Some? {
        ok := UndoTally(d.block.value, true);
      }
      if ok {
        game.RevertPoint(AttackReverted(d));
      }
    }

    /** `Move.reset`: `move_player(dest, src)`. */
    method UndoMove(src: Coord, dest: Coord) returns (ok: bool)
      requires Valid()
      modifies game.field
      ensures Valid() && SameLineUps()
      ensures var u := UndoneMove(old(game.State()), src, dest);
        ok == u.ok && game.State() == u.state
    {
      if !OnCourt(src) || !OnCourt(dest) {
        return false;
      }
      ok := game.field.MovePlayer(dest, src);
    }

    /** `Substitution.reset`; where `pop` or a `remove` raises, the state reached is not stated. */
    method UndoSubstitution(a: Action) returns (ok: bool)
      requires Valid() && a.kind.Substitution?
      modifies game.field, game.t1, game.t2, game.t1.lineUp, game.t2.lineUp
      ensures SameLineUps()
      ensures var u := UndoneSubstitution(old(game.State()), a, env);
        ok == u.ok && (ok ==> Valid() && game.State() == u.state)
    {
      var team := TeamObject(a.team);
      var inn := a.kind.playerIn;
      var m: Formation := team.lineUp.slots;
      var grid := game.field.grid;
      ok := team.Unsubstitute(a.player, inn, env.substitutePlayer(m, inn, a.player));
      if !ok {
        return;
      }
      game.field.grid := env.updatePlayerOnField(grid, inn, a.player, a.team);
      assert game.State() == UndoneSubstitution(old(game.State()), a, env).state;
    }

    /** `reset` of any executed action. */
    method Undo(d: Done) returns (ok: bool)
      requires Valid()
      modifies game, game.field, game.t1, game.t2, game.t1.lineUp, game.t2.lineUp
      ensures SameLineUps()
      ensures var u := Undone(old(game.State()), d, env);
        ok == u.ok && (ok || !d.action.kind.Substitution? ==> Valid() && game.State() == u.state)
    {
      match d.action.kind
      case Receive => ok := UndoRated(d);
      case Dig => ok := UndoRated(d);
      case Serve => ok := UndoRated(d);
      case Block => ok := UndoTally(d, true);
      case Set => ok := UndoTally(d, false);
      case Attack => ok := UndoAttack(d);
      case Move(src, dest) => ok := UndoMove(src, dest);
      case Substitution(_) => ok := UndoSubstitution(d.action);
      case Timeout =>
        game.RevertTimeout(d.action.team);
        ok := true;
      case Nothing => ok := true;
      case ManagerNothing => ok := true;
    }

    /** `Dispatch.reset`: pop the last action and reset it; nothing on an empty stack. */
    method Reset() returns (ok: bool)
      requires Valid()
      modifies this, game, game.field, game.t1, game.t2, game.t1.lineUp, game.t2.lineUp
      ensures SameLineUps()
      ensures var p := Popped(old(Current()), env);
        ok == p.ok && stack == p.world.stack && drawn == p.world.drawn
      ensures var p := Popped(old(Current()), env);
        ok || old(stack) == [] || !old(stack)[|old(stack)| - 1].action.kind.Substitution? ==> Valid() && Current() == p.world
    {
      if stack == [] {
        return true;
      }
      var d := stack[|stack| - 1];
      stack := stack[..|stack| - 1];
      ok := Undo(d);
    }

    /** `dispatch(a)`: execute a, push it, and run its trigger unless it raised. */
    method DispatchAction(a: Action) returns (ok: bool)
      requires Valid()
      modifies this, game, game.field, game.t1, game.t2, game.t1.lineUp, game.t2.lineUp
      ensures SameLineUps()
      ensures var r := Dispatched(old(Current()), a, env);
        ok == r.ok && (ok ==> Valid() && Current() == r.world)
      decreases Rank(a.kind), 3
    {
      var d;
      d, ok := Run(a);
      stack := stack + [d];
      if !ok {
        return;
      }
      ok := Trigger(d);
    }

    /** The point of a trigger that dispatches nothing, or the end of a chain with none. */
    method Finish(d: Done) returns (ok: bool)
      requires Valid()
      modifies game, game.field, game.t1, game.t2, game.t1.lineUp, game.t2.lineUp
      ensures Valid() && SameLineUps()
      ensures var r := Finished(old(Current()), d, env);
        ok == r.ok && Current() == r.world
    {
      match TriggerPoint(d)
      case Some(x) => ok := Score(x);
      case None => ok := Rank(d.action.kind) == 0;
    }

    /** A trigger that dispatches b from the world it found. */
    method Chain(d: Done, b: Action) returns (ok: bool)
      requires Valid() && Next(Current(), d, env) == Some((Current(), b))
      modifies this, game, game.field, game.t1, game.t2, game.t1.lineUp, game.t2.lineUp
      ensures SameLineUps()
      ensures var r := Triggered(old(Current()), d, env);
        ok == r.ok && (ok ==> Valid() && Current() == r.world)
      decreases Rank(d.action.kind), 0
    {
      ok := DispatchAction(b);
    }

    /**
     * `serve_trigger` after a successful serve: the ball over the net, and
     * the closest receiver.  Where the search raises, or finds no one (the
     * source then dispatches a receive of `None`, which raises), the
     * ball has already moved; the state reached then is not stated.
     */
    method TriggerServe(d: Done) returns (ok: bool)
      requires Valid() && d.success && d.action.kind.Serve?
      modifies this, game, game.field, game.t1, game.t2, game.t1.lineUp, game.t2.lineUp
      ensures SameLineUps()
      ensures var r := Triggered(old(Current()), d, env);
        ok == r.ok && (ok ==> Valid() && Current() == r.world)
      decreases Rank(d.action.kind), 1
    {
      ghost var w := Current();
      var opp := Opponent(d.action.team);
      var crossed, moved := game.field.MoveBall(ServeFrom, ServeTo);
      if !moved {
        ok := Finish(d);
        return;
      }
      ghost var w1 := Current();
      assert w1 == w.(game := w.game.(grid := BallMoved(w.game.grid, ServeFrom, ServeTo)));
      assert TeamObject(opp).onField == TeamOf(w1.game, opp).onField;
      var c := game.GetClosestPlayerToBall(opp, env.order(TeamObject(opp).onField));
      assert c == ClosestPlayer(w1.game, opp, env.order(TeamOf(w1.game, opp).onField));
      if c.Best? && c.player.Some? {
        assert Next(w, d, env) == Some((w1, Action(Receive, c.player.value, opp)));
        ok := DispatchAction(Action(Receive, c.player.value, opp));
      } else {
        assert Next(w, d, env) == None;
        ok := false;
      }
    }

    /** The `*_trigger` of d: dispatch the next action of the chain, or finish the rally. */
    method Trigger(d: Done) returns (ok: bool)
      requires Valid()
      modifies this, game, game.field, game.t1, game.t2, game.t1.lineUp, game.t2.lineUp
      ensures SameLineUps()
      ensures var r := Triggered(old(Current()), d, env);
        ok == r.ok && (ok ==> Valid() && Current() == r.world)
      decreases Rank(d.action.kind), 2
    {
      var t := d.action.team;
      if !d.success || Rank(d.action.kind) <= 1 {
        ok := Finish(d);
        return;
      }
      if d.action.kind.Serve? {
        ok := TriggerServe(d);
        return;
      }
      var g := game.State();
      var b :=
        match d.action.kind
        case Set => Action(Attack, env.selectAttacker(g, t), t)
        case Attack => Action(Block, env.selectBlocker(g, Opponent(t)), Opponent(t))
        case _ => Action(Set, env.selectSetter(g, t), t);
      ok := Chain(d, b);
    }

    /** `while len(stack) != n: reset()`. */
    method PopTo(n: int) returns (ok: bool)
      requires Valid()
      modifies this, game, game.field, game.t1, game.t2, game.t1.lineUp, game.t2.lineUp
      ensures SameLineUps()
      ensures var r := PoppedTo(old(Current()), n, env);
        ok == r.ok && (ok ==> Valid() && Current() == r.world)
    {
      while |stack| != n
        invariant Valid() && SameLineUps()
        invariant PoppedTo(Current(), n, env) == PoppedTo(old(Current()), n, env)
        decreases |stack|
      {
        if |stack| < n || stack == [] {
          return false;
        }
        ghost var w := Current();
        ok := Reset();
        if !ok {
          assert PoppedTo(w, n, env) == Popped(w, env);
          return;
        }
        assert Current() == Popped(w, env).world;
      }
      ok := true;
    }
  }
}
