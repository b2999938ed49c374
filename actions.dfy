/**
 * Agents/actions.py: the actions of a rally and of the managers, each with
 * an `execute` and a `reset` meant to undo it, and `Dispatch`, the stack
 * of executed actions that also chains the rally (serve, receive, set,
 * attack, block, point).  The functions below say what each step does to
 * the match state; the classes at the end carry them out in place.
 */
module Actions {
  import opened Teams
  import opened Stats
  import opened LineUps
  import opened Fields
  import opened Rosters
  import opened Games

  /** A value of `random()`. */
  type Draw = r: real | 0.0 <= r < 1.0

  /** A line-up the rules can run on: the six rotation numbers, each on a cell of the court. */
  type Formation = m: Slots | Complete(m) && SlotsOnCourt(m) witness StandardSlots()

  /** The `setting_skill` that `Set.execute` draws against. */
  const SettingSkill: int := 1679

  /** The action classes; a move carries its cells and a substitution the player coming in. */
  datatype Kind =
    | Receive | Serve | Dig | Set | Attack | Block
    | Move(src: Coord, dest: Coord)
    | Nothing
    | Substitution(playerIn: int)
    | Timeout
    | ManagerNothing

  /** An action: its class, the acting player (the player going out for a substitution, -1 for the managers' actions) and the team. */
  datatype Action = Action(kind: Kind, player: int, team: Team)

  /**
   * An executed action as it sits on the stack: the action, the cached
   * `success`, and for an attack `blocked` and the nested block.
   */
  datatype Done = Done(action: Action, success: bool, blocked: bool, block: Option<Done>)

  /**
   * What the actions call but the model cannot see: the stream of
   * `random()` values, `coin_toss`, the iteration order of a set of
   * dorsals, `Game.select_setter/attacker/blocker`,
   * `TeamData.select_blocker`, `LineUp.substitute_player` and
   * `Field.update_player_on_field`.
   */
  datatype Env = Env(
    random: nat -> Draw,
    coin: bool,
    order: set<int> -> seq<int>,
    selectSetter: (GameState, Team) -> int,
    selectAttacker: (GameState, Team) -> int,
    selectBlocker: (GameState, Team) -> int,
    teamBlocker: TeamView -> int,
    substitutePlayer: (Formation, int, int) -> Formation,
    updatePlayerOnField: (CourtGrid, int, int, Team) -> CourtGrid)

  /** Substituting a player and then substituting back gives the line-up and the grid back. */
  ghost predicate SwapsUndo(env: Env)
  {
    && (forall m: Formation, o: int, i: int :: env.substitutePlayer(env.substitutePlayer(m, o, i), i, o) == m)
    && (forall g: CourtGrid, o: int, i: int, t: Team :: env.updatePlayerOnField(env.updatePlayerOnField(g, o, i, t), i, o, t) == g)
  }

  /** The match state after an `execute`, the draws used so far, the action as it is cached, and whether it completed. */
  datatype Executed = Executed(game: GameState, drawn: nat, done: Done, ok: bool)

  /** The counter an action adds to. */
  function StatOf(k: Kind): Stat
  {
    match k
    case Receive => Receives
    case Serve => Serves
    case Dig => Digs
    case Attack => Attacks
    case Block => Blocks
    case _ => SetsWon
  }

  /** The rating an action draws against. */
  function SkillOf(k: Kind, pd: PlayerData): int
  {
    match k
    case Receive => pd.receiving
    case Dig => pd.digging
    case Attack => pd.attacking
    case Block => pd.blocking
    case Serve => pd.pServe
    case _ => SettingSkill
  }

  /** `random() <= skill / 100`. */
  predicate Succeeds(u: real, skill: int)
  {
    u <= skill as real / 100.0
  }

  /** A team's counters tallied in the match state; None where the player has no counters. */
  function Tallied(s: GameState, t: Team, p: int, k: Stat, d: int, onPlayer: bool): (r: Option<GameState>)
    ensures r.Some? <==> p in TeamOf(s, t).playersStatistics
    ensures Ready(s) && r.Some? ==> Ready(r.value)
    ensures r.Some? ==> r.value.board == s.board && r.value.pointsHistory == s.pointsHistory && r.value.grid == s.grid
    ensures r.Some? ==> SameRosters(r.value, s)
  {
    match TeamTallied(TeamOf(s, t), p, k, d, onPlayer)
    case None => None
    case Some(v) => Some(WithTeam(s, t, v))
  }

  /** An action that raised: the state reached and the action as far as it got. */
  function Failed(s: GameState, drawn: nat, a: Action): Executed
  {
    Executed(s, drawn, Done(a, false, false, None), false)
  }

  /**
   * `execute` of Receive, Dig, Attack and Block up to the draw: the
   * counter goes up by one for the team and the player, the rating is
   * read, and one `random()` decides success.
   */
  function Rated(s: GameState, drawn: nat, a: Action, env: Env): (r: Executed)
    ensures r.done == Done(a, r.done.success, false, None)
    ensures Ready(s) ==> Ready(r.game)
    ensures r.game.board == s.board && r.game.pointsHistory == s.pointsHistory && r.game.grid == s.grid
    ensures r.ok ==> r.drawn == drawn + 1
    ensures r.ok <==> a.player in TeamOf(s, a.team).playersStatistics && a.player in TeamOf(s, a.team).data
  {
    match Tallied(s, a.team, a.player, StatOf(a.kind), 1, true)
    case None => Failed(s, drawn, a)
    case Some(s1) =>
      if a.player !in TeamOf(s1, a.team).data then Failed(s1, drawn, a)
      else
        var u := env.random(drawn);
        Executed(s1, drawn + 1, Done(a, Succeeds(u, SkillOf(a.kind, TeamOf(s1, a.team).data[a.player])), false, None), true)
  }

  /** A point to `scorer` when a completed action failed. */
  function ScoredOnFailure(e: Executed, scorer: Team, coin: bool): (r: Executed)
    requires Ready(e.game)
    ensures Ready(r.game) && r.done == e.done && r.drawn == e.drawn
  {
    if e.ok && !e.done.success then
      var p := PointScored(e.game, scorer, coin);
      e.(game := p.state, ok := p.ok)
    else e
  }

  /** `Serve.execute`: the serve counters go up, the rating is read but not drawn against, and the serve succeeds. */
  function Served(s: GameState, drawn: nat, a: Action): (r: Executed)
    ensures Ready(s) ==> Ready(r.game)
    ensures r.ok ==> r.done == Done(a, true, false, None) && r.drawn == drawn
  {
    match Tallied(s, a.team, a.player, Serves, 1, true)
    case None => Failed(s, drawn, a)
    case Some(s1) =>
      if a.player !in TeamOf(s1, a.team).data then Failed(s1, drawn, a)
      else Executed(s1, drawn, Done(a, true, false, None), true)
  }

  /** `Set.execute`: the team's `sets_won` goes up (the player's counters are looked up only) and one draw against 1679. */
  function SetExecuted(s: GameState, drawn: nat, a: Action, env: Env): (r: Executed)
    ensures Ready(s) ==> Ready(r.game)
    ensures r.done.action == a && r.done.block.None?
    ensures r.ok ==> r.done.success
  {
    match Tallied(s, a.team, a.player, SetsWon, 1, false)
    case None => Failed(s, drawn, a)
    case Some(s1) => Executed(s1, drawn + 1, Done(a, Succeeds(env.random(drawn), SettingSkill), false, None), true)
  }

  /**
   * `Attack.execute`: counters and draw as for every rated action; a
   * successful attack meets the block of the player `TeamData.select_blocker`
   * names, and the point goes to the blockers when it holds and to the
   * attackers when it does not; a failed attack gives the point to the
   * opponent.
   */
  function Attacked(s: GameState, drawn: nat, a: Action, env: Env): (r: Executed)
    requires Ready(s)
    ensures Ready(r.game) && r.done.action == a
  {
    var e := Rated(s, drawn, a, env);
    var opp := Opponent(a.team);
    if !e.ok || !e.done.success then ScoredOnFailure(e, opp, env.coin)
    else
      var b := Rated(e.game, e.drawn, Action(Block, env.teamBlocker(TeamOf(e.game, opp)), opp), env);
      var d := Done(a, true, b.done.success, Some(b.done));
      if !b.ok then Executed(b.game, b.drawn, d, false)
      else
        var p := PointScored(b.game, if b.done.success then opp else a.team, env.coin);
        Executed(p.state, b.drawn, d, p.ok)
  }

  /**
   * `Move.execute`: `move_player(src, dest)`; it fails on an empty source
   * and off the court.  Off the court the source raises for an index past
   * the grid and wraps a negative one; the player agents only offer moves
   * between court cells.
   */
  function Moved(s: GameState, drawn: nat, a: Action): (r: Executed)
    requires a.kind.Move?
    ensures r.game.(grid := s.grid) == s
  {
    var src := a.kind.src;
    var dest := a.kind.dest;
    if !OnCourt(src) || !OnCourt(dest) || IsEmpty(At(s.grid, src)) then Failed(s, drawn, a)
    else Executed(s.(grid := PlayerMoved(s.grid, src, dest)), drawn, Done(a, false, false, None), true)
  }

  /**
   * `Substitution.execute`: the record is appended, the line-up and the
   * grid take the player coming in, and the two players swap court and
   * bench.
   */
  function Substituted(s: GameState, drawn: nat, a: Action, env: Env): (r: Executed)
    requires Ready(s) && a.kind.Substitution?
    ensures Ready(r.game)
  {
    var v := TeamOf(s, a.team);
    var inn := a.kind.playerIn;
    match SubstitutionMade(v, a.player, inn, s.board.currentSet, env.substitutePlayer(v.slots, a.player, inn))
    case None => Failed(s, drawn, a)
    case Some(v1) =>
      Executed(WithTeam(s, a.team, v1).(grid := env.updatePlayerOnField(s.grid, a.player, inn, a.team)), drawn, Done(a, false, false, None), true)
  }

  /** `execute` of any action. */
  function Execute(s: GameState, drawn: nat, a: Action, env: Env): (r: Executed)
    requires Ready(s)
    ensures Ready(r.game) && r.done.action == a
  {
    match a.kind
    case Receive => ScoredOnFailure(Rated(s, drawn, a, env), Opponent(a.team), env.coin)
    case Dig => ScoredOnFailure(Rated(s, drawn, a, env), Opponent(a.team), env.coin)
    case Block => Rated(s, drawn, a, env)
    case Attack => Attacked(s, drawn, a, env)
    case Serve => Served(s, drawn, a)
    case Set => SetExecuted(s, drawn, a, env)
    case Move(_, _) => Moved(s, drawn, a)
    case Substitution(_) => Substituted(s, drawn, a, env)
    case Timeout => Executed(TimeOutRegistered(s, a.team), drawn, Done(a, false, false, None), true)
    case Nothing => Executed(s, drawn, Done(a, false, false, None), true)
    case ManagerNothing => Executed(s, drawn, Done(a, false, false, None), true)
  }

  /** The counter part of a `reset`: the counter goes down by one. */
  function Untallied(s: GameState, a: Action, onPlayer: bool): (r: Step)
    ensures Ready(s) ==> Ready(r.state)
    ensures r.state.board == s.board && r.state.pointsHistory == s.pointsHistory
  {
    match Tallied(s, a.team, a.player, StatOf(a.kind), -1, onPlayer)
    case None => Step(s, false)
    case Some(s1) => Step(s1, true)
  }

  /** The team an attack's `reset` reverts the point of. */
  function AttackReverted(d: Done): Team
  {
    if d.success && !d.blocked then d.action.team else Opponent(d.action.team)
  }

  /** `reset` of Receive, Dig and Serve: the counter goes down, and the opponent's point is reverted when the action had failed. */
  function UndoneRated(s: GameState, d: Done): (r: Step)
    ensures Ready(s) ==> Ready(r.state)
  {
    var u := Untallied(s, d.action, true);
    if u.ok && !d.success then Step(PointReverted(u.state, Opponent(d.action.team)), true) else u
  }

  /**
   * `Attack.reset`: the counter goes down, the block (always a `Block`,
   * whose `reset` takes its counter back) is reset first, then the point
   * of `AttackReverted` is reverted.
   */
  function UndoneAttack(s: GameState, d: Done): (r: Step)
    requires Ready(s)
    ensures Ready(r.state)
  {
    var u := Untallied(s, d.action, true);
    var b := if u.ok && d.success && d.block.Some? then Untallied(u.state, d.block.value.action, true) else u;
    if b.ok then Step(PointReverted(b.state, AttackReverted(d)), true) else b
  }

  /** `Move.reset`: `move_player(dest, src)`. */
  function UndoneMove(s: GameState, src: Coord, dest: Coord): (r: Step)
    ensures r.state.(grid := s.grid) == s
  {
    if !OnCourt(src) || !OnCourt(dest) || IsEmpty(At(s.grid, dest)) then Step(s, false)
    else Step(s.(grid := PlayerMoved(s.grid, dest, src)), true)
  }

  /** `Substitution.reset`: the record is popped and the substitution made in the other direction. */
  function UndoneSubstitution(s: GameState, a: Action, env: Env): (r: Step)
    requires Ready(s) && a.kind.Substitution?
    ensures Ready(r.state)
  {
    var v := TeamOf(s, a.team);
    var inn := a.kind.playerIn;
    match SubstitutionUndone(v, a.player, inn, env.substitutePlayer(v.slots, inn, a.player))
    case None => Step(s, false)
    case Some(v1) => Step(WithTeam(s, a.team, v1).(grid := env.updatePlayerOnField(s.grid, inn, a.player, a.team)), true)
  }

  /**
   * `reset` of an executed action.  Receive, Dig and Serve revert the
   * opponent's point when they had failed; Attack resets its block first
   * and then reverts the point of `AttackReverted`; Set takes back its
   * `sets_won`.
   */
  function Undone(s: GameState, d: Done, env: Env): (r: Step)
    requires Ready(s)
    ensures Ready(r.state)
  {
    match d.action.kind
    case Receive => UndoneRated(s, d)
    case Dig => UndoneRated(s, d)
    case Serve => UndoneRated(s, d)
    case Block => Untallied(s, d.action, true)
    case Set => Untallied(s, d.action, false)
    case Attack => UndoneAttack(s, d)
    case Move(src, dest) => UndoneMove(s, src, dest)
    case Substitution(_) => UndoneSubstitution(s, d.action, env)
    case Timeout => Step(TimeOutReverted(s, d.action.team), true)
    case Nothing => Step(s, true)
    case ManagerNothing => Step(s, true)
  }

  // ---------------------------------------------------------------------
  // The dispatcher.

  /** What the dispatcher works on: the match state, the stack of executed actions, and how many draws were used. */
  datatype World = World(game: GameState, stack: seq<Done>, drawn: nat)

  /** A world reached, and whether the call completed (false: it raised there). */
  datatype Outcome = Outcome(world: World, ok: bool)

  /** How far an action is from the end of the trigger chain. */
  function Rank(k: Kind): nat
  {
    match k
    case Serve => 5
    case Receive => 4
    case Dig => 4
    case Set => 3
    case Attack => 2
    case Block => 1
    case _ => 0
  }

  /** The cells `serve_trigger` moves the ball between. */
  const ServeFrom: Coord := (8, 4)
  const ServeTo: Coord := (12, 4)

  /** `score_point(t)` from a trigger. */
  function Scored(w: World, t: Team, coin: bool): (r: Outcome)
    requires Ready(w.game)
    ensures Ready(r.world.game) && r.world.stack == w.stack
  {
    var p := PointScored(w.game, t, coin);
    Outcome(w.(game := p.state), p.ok)
  }

  /**
   * `dispatch(a)`: the action goes on the stack, is executed, and its
   * trigger runs.
   */
  function Dispatched(w: World, a: Action, env: Env): (r: Outcome)
    requires Ready(w.game)
    ensures Ready(r.world.game)
    decreases Rank(a.kind), 2
  {
    Continued(w, Execute(w.game, w.drawn, a, env), env)
  }

  /** The rest of `dispatch` once the action has run: on the stack it goes, and its trigger runs unless it raised. */
  function Continued(w: World, e: Executed, env: Env): (r: Outcome)
    requires Ready(e.game)
    ensures Ready(r.world.game)
    decreases Rank(e.done.action.kind), 1
  {
    var w1 := World(e.game, w.stack + [e.done], e.drawn);
    if !e.ok then Outcome(w1, false) else Triggered(w1, e.done, env)
  }

  /**
   * The action the trigger of a successful d dispatches, and the world it
   * is dispatched from: a serve moves the ball over the net and the
   * opponent's closest player receives; a receive or a dig is set by the
   * same team, a set is attacked, an attack is blocked by the opponent.
   * None when the trigger dispatches nothing, and where `move_ball` or
   * the receive of no one raises.
   */
  function Next(w: World, d: Done, env: Env): (r: Option<(World, Action)>)
    requires Ready(w.game)
    ensures r.Some? ==> Ready(r.value.0.game) && r.value.0.stack == w.stack && r.value.0.drawn == w.drawn
    ensures r.Some? ==> Rank(r.value.1.kind) < Rank(d.action.kind)
  {
    var t := d.action.team;
    var opp := Opponent(t);
    var g := w.game;
    if !d.success then None
    else
      match d.action.kind
      case Serve =>
        if !At(g.grid, ServeFrom).ball then None
        else
          var g1 := g.(grid := BallMoved(g.grid, ServeFrom, ServeTo));
          (match ClosestPlayer(g1, opp, env.order(TeamOf(g1, opp).onField))
           case Best(Some(p), _) => Some((w.(game := g1), Action(Receive, p, opp)))
           case _ => None)
      case Receive => Some((w, Action(Set, env.selectSetter(g, t), t)))
      case Dig => Some((w, Action(Set, env.selectSetter(g, t), t)))
      case Set => Some((w, Action(Attack, env.selectAttacker(g, t), t)))
      case Attack => Some((w, Action(Block, env.selectBlocker(g, opp), opp)))
      case _ => None
  }

  /**
   * The team the trigger of d gives the point to, if it gives one: a
   * failed serve, receive, dig, set or attack gives it to the opponent; a
   * block gives it to the blockers when it holds and to the attackers
   * when it does not.
   */
  function TriggerPoint(d: Done): Option<Team>
  {
    match d.action.kind
    case Block => Some(if d.success then d.action.team else Opponent(d.action.team))
    case Serve => if d.success then None else Some(Opponent(d.action.team))
    case Receive => if d.success then None else Some(Opponent(d.action.team))
    case Dig => if d.success then None else Some(Opponent(d.action.team))
    case Set => if d.success then None else Some(Opponent(d.action.team))
    case Attack => if d.success then None else Some(Opponent(d.action.team))
    case _ => None
  }

  /**
   * The trigger of d when it dispatches nothing: the point goes to
   * `TriggerPoint(d)` when there is one; otherwise a rally action had
   * succeeded without a next action (a serve that found no ball or no
   * receiver) and raised, and the other actions have no trigger.
   */
  function Finished(w: World, d: Done, env: Env): (r: Outcome)
    requires Ready(w.game)
    ensures Ready(r.world.game) && r.world.stack == w.stack
  {
    match TriggerPoint(d)
    case Some(x) => Scored(w, x, env.coin)
    case None => Outcome(w, Rank(d.action.kind) == 0)
  }

  /** The `*_trigger` of d: dispatch the next action, or finish the rally. */
  function Triggered(w: World, d: Done, env: Env): (r: Outcome)
    requires Ready(w.game)
    ensures Ready(r.world.game)
    decreases Rank(d.action.kind), 0
  {
    match Next(w, d, env)
    case Some((w2, b)) => Dispatched(w2, b, env)
    case None => Finished(w, d, env)
  }

  /** `Dispatch.reset`: the last action is popped and reset; nothing happens on an empty stack. */
  function Popped(w: World, env: Env): (r: Outcome)
    requires Ready(w.game)
    ensures Ready(r.world.game) && r.world.drawn == w.drawn
    ensures r.world.stack == if w.stack == [] then [] else w.stack[..|w.stack| - 1]
    ensures w.stack == [] ==> r == Outcome(w, true)
  {
    if w.stack == [] then Outcome(w, true)
    else
      var u := Undone(w.game, w.stack[|w.stack| - 1], env);
      Outcome(World(u.state, w.stack[..|w.stack| - 1], w.drawn), u.ok)
  }

  // ---------------------------------------------------------------------
  // Laws of the actions and the dispatcher.

  /** The rally action a trigger dispatches after d, as the chain is meant to run. */
  predicate Follows(prev: Done, next: Action)
  {
    prev.success &&
    match prev.action.kind
    case Serve => next.kind.Receive? && next.team == Opponent(prev.action.team)
    case Receive => next.kind.Set? && next.team == prev.action.team
    case Dig => next.kind.Set? && next.team == prev.action.team
    case Set => next.kind.Attack? && next.team == prev.action.team
    case Attack => next.kind.Block? && next.team == Opponent(prev.action.team)
    case _ => false
  }

  /** An action after which nothing more is dispatched: its trigger scores, or it has none. */
  predicate EndsChain(d: Done)
  {
    TriggerPoint(d).Some? || Rank(d.action.kind) == 0
  }

  /** From position i on, each action on the stack was dispatched by the trigger of the one before. */
  ghost predicate ChainedFrom(st: seq<Done>, i: nat)
  {
    forall j, k :: i <= j && k == j + 1 && k < |st| ==> Follows(st[j], st[k].action)
  }

  /** The last point of the history went to t. */
  predicate LastPointTo(s: GameState, t: Team)
  {
    s.pointsHistory != [] && s.pointsHistory[|s.pointsHistory| - 1].team == t
  }

  /** Every action a trigger dispatches is the one the chain table names. */
  lemma NextFollows(w: World, d: Done, env: Env)
    requires Ready(w.game) && Next(w, d, env).Some?
    ensures Follows(d, Next(w, d, env).value.1)
  {
  }

  /**
   * A trigger that dispatches nothing leaves the stack alone; when it
   * completes, d ends the chain, and a point it gives is the last point
   * of the history.
   */
  lemma FinishedEnds(w: World, d: Done, env: Env)
    requires Ready(w.game) && Next(w, d, env).None?
    ensures var r := Finished(w, d, env);
      && (r.ok ==> EndsChain(d))
      && (r.ok && TriggerPoint(d).Some? ==> LastPointTo(r.world.game, TriggerPoint(d).value))
  {
    match TriggerPoint(d)
    case Some(x) => ScorePointEffects(w.game, x, env.coin);
    case None =>
  }

  /**
   * What a dispatch leaves on top of the stack base it found: base is
   * still underneath, what was pushed over it forms the trigger chain, and
   * when the dispatch completes the last action ends the chain and a
   * point it gives is the last point of the history.
   */
  ghost predicate ChainLaw(base: seq<Done>, r: Outcome)
  {
    var st := r.world.stack;
    && |st| > |base| && st[..|base|] == base
    && ChainedFrom(st, |base|)
    && (r.ok ==> EndsChain(st[|st| - 1]))
    && (r.ok && TriggerPoint(st[|st| - 1]).Some? ==> LastPointTo(r.world.game, TriggerPoint(st[|st| - 1]).value))
  }

  /** `dispatch(a)` pushes a over the stack it found, and keeps the chain law. */
  lemma {:induction false} DispatchChain(w: World, a: Action, env: Env)
    requires Ready(w.game)
    ensures ChainLaw(w.stack, Dispatched(w, a, env))
    ensures Dispatched(w, a, env).world.stack[|w.stack|].action == a
    decreases Rank(a.kind), 3
  {
    var e := Execute(w.game, w.drawn, a, env);
    ContinuedChain(w, e, env);
    assert Dispatched(w, a, env) == Continued(w, e, env);
  }

  /** The same for the rest of `dispatch`, once the action e.done has run. */
  lemma {:induction false} ContinuedChain(w: World, e: Executed, env: Env)
    requires Ready(e.game)
    ensures ChainLaw(w.stack, Continued(w, e, env))
    ensures Continued(w, e, env).world.stack[|w.stack|] == e.done
    decreases Rank(e.done.action.kind), 2
  {
    var w1 := World(e.game, w.stack + [e.done], e.drawn);
    if e.ok {
      TriggerChain(w1, e.done, env);
      var r := Triggered(w1, e.done, env);
      assert Continued(w, e, env) == r;
      var st := r.world.stack;
      assert st[..|w1.stack|][..|w.stack|] == w.stack;
    }
  }

  /** The same for the trigger of d, the action on top of the stack. */
  lemma {:induction false} TriggerChain(w: World, d: Done, env: Env)
    requires Ready(w.game) && w.stack != [] && w.stack[|w.stack| - 1] == d
    ensures ChainLaw(w.stack[..|w.stack| - 1], Triggered(w, d, env))
    ensures Triggered(w, d, env).world.stack[..|w.stack|] == w.stack
    decreases Rank(d.action.kind), 1
  {
    match Next(w, d, env)
    case None =>
      FinishedChain(w, d, env);
    case Some((w2, b)) =>
      NextChain(w, d, env, w2, b);
  }

  /** A trigger that dispatches nothing ends the chain at d. */
  lemma FinishedChain(w: World, d: Done, env: Env)
    requires Ready(w.game) && w.stack != [] && w.stack[|w.stack| - 1] == d
    requires Next(w, d, env).None?
    ensures ChainLaw(w.stack[..|w.stack| - 1], Triggered(w, d, env))
    ensures Triggered(w, d, env).world.stack[..|w.stack|] == w.stack
  {
    FinishedEnds(w, d, env);
  }

  /** A trigger that dispatches b continues the chain from d with b's own chain. */
  lemma {:induction false} NextChain(w: World, d: Done, env: Env, w2: World, b: Action)
    requires Ready(w.game) && w.stack != [] && w.stack[|w.stack| - 1] == d
    requires Next(w, d, env) == Some((w2, b))
    ensures ChainLaw(w.stack[..|w.stack| - 1], Triggered(w, d, env))
    ensures Triggered(w, d, env).world.stack[..|w.stack|] == w.stack
    decreases Rank(d.action.kind), 0
  {
    NextFollows(w, d, env);
    DispatchChain(w2, b, env);
    var r := Dispatched(w2, b, env);
    assert Triggered(w, d, env) == r;
    var st := r.world.stack;
    assert st[|w.stack| - 1] == d;
  }

  // ---------------------------------------------------------------------
  // What the actions leave alone: the rally flag and the rally counter.

  lemma TalliedKeepsRally(s: GameState, t: Team, p: int, k: Stat, d: int, onPlayer: bool)
    ensures var r := Tallied(s, t, p, k, d, onPlayer); r.Some? ==> SameRally(s, r.value)
  {
  }

  lemma RatedKeepsRally(s: GameState, drawn: nat, a: Action, env: Env)
    ensures SameRally(s, Rated(s, drawn, a, env).game)
  {
    TalliedKeepsRally(s, a.team, a.player, StatOf(a.kind), 1, true);
  }

  lemma ScoredOnFailureKeepsRally(e: Executed, scorer: Team, coin: bool)
    requires Ready(e.game)
    ensures SameRally(e.game, ScoredOnFailure(e, scorer, coin).game)
  {
    PointKeepsRally(e.game, scorer, coin);
  }

  lemma AttackedKeepsRally(s: GameState, drawn: nat, a: Action, env: Env)
    requires Ready(s)
    ensures SameRally(s, Attacked(s, drawn, a, env).game)
  {
    var e := Rated(s, drawn, a, env);
    var opp := Opponent(a.team);
    RatedKeepsRally(s, drawn, a, env);
    if !e.ok || !e.done.success {
      ScoredOnFailureKeepsRally(e, opp, env.coin);
    } else {
      var b := Rated(e.game, e.drawn, Action(Block, env.teamBlocker(TeamOf(e.game, opp)), opp), env);
      RatedKeepsRally(e.game, e.drawn, Action(Block, env.teamBlocker(TeamOf(e.game, opp)), opp), env);
      if b.ok {
        PointKeepsRally(b.game, if b.done.success then opp else a.team, env.coin);
      }
    }
  }

  /** The `execute` of any action sets neither the rally flag nor the rally counter. */
  lemma ExecuteKeepsRally(s: GameState, drawn: nat, a: Action, env: Env)
    requires Ready(s)
    ensures SameRally(s, Execute(s, drawn, a, env).game)
  {
    hide Rated, ScoredOnFailure, Attacked, Ready;
    match a.kind
    case Receive =>
      RatedKeepsRally(s, drawn, a, env);
      ScoredOnFailureKeepsRally(Rated(s, drawn, a, env), Opponent(a.team), env.coin);
    case Dig =>
      RatedKeepsRally(s, drawn, a, env);
      ScoredOnFailureKeepsRally(Rated(s, drawn, a, env), Opponent(a.team), env.coin);
    case Block => RatedKeepsRally(s, drawn, a, env);
    case Attack => AttackedKeepsRally(s, drawn, a, env);
    case Serve => TalliedKeepsRally(s, a.team, a.player, Serves, 1, true);
    case Set => TalliedKeepsRally(s, a.team, a.player, SetsWon, 1, false);
    case Move(_, _) =>
    case Substitution(_) =>
    case Timeout =>
    case Nothing =>
    case ManagerNothing =>
  }

  /** Nor does a `dispatch`, through all the triggers it runs. */
  lemma {:induction false} DispatchKeepsRally(w: World, a: Action, env: Env)
    requires Ready(w.game)
    ensures SameRally(w.game, Dispatched(w, a, env).world.game)
    decreases Rank(a.kind), 2
  {
    var e := Execute(w.game, w.drawn, a, env);
    ExecuteKeepsRally(w.game, w.drawn, a, env);
    var w1 := World(e.game, w.stack + [e.done], e.drawn);
    if e.ok {
      TriggerKeepsRally(w1, e.done, env);
    }
  }

  /** The same for the trigger of d. */
  lemma {:induction false} TriggerKeepsRally(w: World, d: Done, env: Env)
    requires Ready(w.game)
    ensures SameRally(w.game, Triggered(w, d, env).world.game)
    decreases Rank(d.action.kind), 1
  {
    match Next(w, d, env)
    case None =>
      if TriggerPoint(d).Some? {
        PointKeepsRally(w.game, TriggerPoint(d).value, env.coin);
      }
    case Some((w2, b)) =>
      DispatchKeepsRally(w2, b, env);
  }

  // ---------------------------------------------------------------------
  // Laws of `execute` and `reset`.

  /** Tallying a counter back by the same amount gives the match state back. */
  lemma TalliedBack(s: GameState, t: Team, p: int, k: Stat, d: int, onPlayer: bool)
    requires p in TeamOf(s, t).playersStatistics
    ensures Tallied(Tallied(s, t, p, k, d, onPlayer).value, t, p, k, -d, onPlayer) == Some(s)
  {
    var v := TeamOf(s, t);
    TalliedUndo(v, p, k, d, onPlayer);
    var s1 := WithTeam(s, t, TeamTallied(v, p, k, d, onPlayer).value);
    assert WithTeam(s1, t, v) == s;
  }

  /** The counter part of a rated action's `reset` takes back what its `execute` added. */
  lemma RatedBack(s: GameState, drawn: nat, a: Action, env: Env)
    ensures var e := Rated(s, drawn, a, env);
      e.ok ==> Untallied(e.game, a, true) == Step(s, true)
  {
    if a.player in TeamOf(s, a.team).playersStatistics {
      TalliedBack(s, a.team, a.player, StatOf(a.kind), 1, true);
    }
  }

  /**
   * The actions whose `execute` changes nothing but counters, or only the
   * time-out count: Serve (whose success is fixed), Block, Set, Timeout and
   * the two Nothing actions, and a Receive or Dig that succeeds.
   */
  predicate KeepsScore(d: Done)
  {
    match d.action.kind
    case Receive => d.success
    case Dig => d.success
    case Serve => true
    case Block => true
    case Set => true
    case Timeout => true
    case Nothing => true
    case ManagerNothing => true
    case _ => false
  }

  /** For those actions `reset` after a completed `execute` gives back exactly the state before. */
  lemma ExecuteThenReset(s: GameState, drawn: nat, a: Action, env: Env)
    requires Ready(s)
    ensures var e := Execute(s, drawn, a, env);
      e.ok && KeepsScore(e.done) ==> Undone(e.game, e.done, env) == Step(s, true)
  {
    var e := Execute(s, drawn, a, env);
    match a.kind
    case Receive => RatedBack(s, drawn, a, env);
    case Dig => RatedBack(s, drawn, a, env);
    case Block => RatedBack(s, drawn, a, env);
    case Serve =>
      if a.player in TeamOf(s, a.team).playersStatistics {
        TalliedBack(s, a.team, a.player, Serves, 1, true);
      }
    case Set =>
      if a.player in TeamOf(s, a.team).playersStatistics {
        TalliedBack(s, a.team, a.player, SetsWon, 1, false);
      }
    case Timeout => TimeOutRoundTrip(s, a.team);
    case Nothing =>
    case ManagerNothing =>
    case Attack =>
    case Move(_, _) =>
    case Substitution(_) =>
  }

  /** Neither team would win the set with one more point. */
  predicate NoSetPoint(s: GameState)
  {
    !SetOver(WithScore(s, T1, ScoreOf(s, T1) + 1)) && !SetOver(WithScore(s, T2, ScoreOf(s, T2) + 1))
  }

  /** Both scores, the set number and the history of two states agree. */
  predicate SameScores(a: GameState, b: GameState)
  {
    a.board.t1Score == b.board.t1Score && a.board.t2Score == b.board.t2Score
  }

  /** The record `score_point(t)` appends to the history. */
  function RecordFor(s: GameState, t: Team): PointRecord
  {
    PointRecord(t, ScoreOf(s, t) + 1, s.board.currentSet)
  }

  /**
   * A point scored by an `execute` away from a set point, on a state s1
   * that only differs from s in counters: the score goes up by one, the
   * record is appended, and the rosters stay.
   */
  lemma PointFrom(s: GameState, s1: GameState, t: Team, coin: bool)
    requires Ready(s1) && s1.board == s.board && s1.pointsHistory == s.pointsHistory && NoSetPoint(s)
    ensures var p := PointScored(s1, t, coin);
      p.ok ==>
        && SameScores(PointReverted(p.state, t), s)
        && p.state.pointsHistory == s.pointsHistory + [RecordFor(s, t)]
        && SameRosters(p.state, s1)
  {
    PointFromRecord(s, s1, t, coin);
    PointFromScores(s, s1, t, coin);
  }

  /** The record part of `PointFrom`. */
  lemma PointFromRecord(s: GameState, s1: GameState, t: Team, coin: bool)
    requires Ready(s1) && s1.board == s.board && s1.pointsHistory == s.pointsHistory
    ensures var p := PointScored(s1, t, coin);
      p.ok ==> p.state.pointsHistory == s.pointsHistory + [RecordFor(s, t)] && SameRosters(p.state, s1)
  {
    ScorePointEffects(s1, t, coin);
    assert RecordFor(s, t) == PointRecord(t, ScoreOf(s1, t) + 1, s1.board.currentSet);
    ScoringKeepsRosters(s1, t, coin);
  }

  /** The score part of `PointFrom`. */
  lemma PointFromScores(s: GameState, s1: GameState, t: Team, coin: bool)
    requires Ready(s1) && s1.board == s.board && NoSetPoint(s)
    ensures var p := PointScored(s1, t, coin);
      p.ok ==> SameScores(PointReverted(p.state, t), s)
  {
    assert WithScore(s1, t, ScoreOf(s1, t) + 1).board == WithScore(s, t, ScoreOf(s, t) + 1).board;
    assert !SetOver(WithScore(s1, t, ScoreOf(s1, t) + 1));
    ScorePointWithinSet(s1, t, coin);
    var p := PointScored(s1, t, coin);
    if p.ok {
      var q := PointReverted(p.state, t);
      assert ScoreOf(q, t) == ScoreOf(s, t) && ScoreOf(q, Opponent(t)) == ScoreOf(s, Opponent(t));
    }
  }

  /** What a failed rated action and its `reset` leave, in terms of the pieces of `execute` and `reset`. */
  lemma FailedRatedReverts(s: GameState, drawn: nat, a: Action, env: Env)
    requires Ready(s) && NoSetPoint(s)
    ensures var e := ScoredOnFailure(Rated(s, drawn, a, env), Opponent(a.team), env.coin);
      var u := UndoneRated(e.game, e.done);
      e.ok && !e.done.success ==>
        && u.ok && SameScores(u.state, s)
        && u.state.pointsHistory == s.pointsHistory + [RecordFor(s, Opponent(a.team))]
  {
    var r := Rated(s, drawn, a, env);
    var opp := Opponent(a.team);
    if r.ok && !r.done.success {
      PointFrom(s, r.game, opp, env.coin);
      var p := PointScored(r.game, opp, env.coin);
      if p.ok {
        assert TeamOf(p.state, a.team).playersStatistics.Keys == TeamOf(r.game, a.team).playersStatistics.Keys;
        RevertedAfterFailure(p.state, r.done);
      }
    }
  }

  /** The `reset` of a failed Receive, Dig or Serve: the counter goes down and the opponent's score with it. */
  lemma RevertedAfterFailure(p: GameState, d: Done)
    requires !d.success && d.action.player in TeamOf(p, d.action.team).playersStatistics
    ensures var u := UndoneRated(p, d);
      u.ok && SameScores(u.state, PointReverted(p, Opponent(d.action.team))) && u.state.pointsHistory == p.pointsHistory
  {
  }

  /**
   * A Receive or Dig that fails gives the opponent a point; its `reset`
   * takes the score back, but the history keeps the record (and the serve
   * stays with the opponent).
   */
  lemma FailedActionRevertsScore(s: GameState, drawn: nat, a: Action, env: Env)
    requires Ready(s) && (a.kind.Receive? || a.kind.Dig?) && NoSetPoint(s)
    ensures var e := Execute(s, drawn, a, env);
      var u := Undone(e.game, e.done, env);
      var opp := Opponent(a.team);
      e.ok && !e.done.success ==>
        && u.ok && SameScores(u.state, s)
        && u.state.pointsHistory == s.pointsHistory + [RecordFor(s, opp)]
  {
    var e := ScoredOnFailure(Rated(s, drawn, a, env), Opponent(a.team), env.coin);
    FailedRatedReverts(s, drawn, a, env);
    assert Execute(s, drawn, a, env) == e;
    assert Undone(e.game, e.done, env) == UndoneRated(e.game, e.done);
  }

  /** A rated action changes counters only: the rosters and the dorsals with counters stay. */
  lemma RatedKeepsRosters(s: GameState, drawn: nat, a: Action, env: Env)
    ensures SameRosters(Rated(s, drawn, a, env).game, s)
  {
    var v := TeamOf(s, a.team);
    var t := TeamTallied(v, a.player, StatOf(a.kind), 1, true);
    if t.Some? {
      assert t.value.data == v.data;
    }
  }

  /** The team `Attack.execute` gives the point to, and the rosters it keeps. */
  lemma AttackedPoint(s: GameState, drawn: nat, a: Action, env: Env)
    requires Ready(s)
    ensures var e := Attacked(s, drawn, a, env);
      e.ok ==> e.game.pointsHistory == s.pointsHistory + [RecordFor(s, AttackReverted(e.done))] && SameRosters(e.game, s)
  {
    var r := Rated(s, drawn, a, env);
    var opp := Opponent(a.team);
    RatedKeepsRosters(s, drawn, a, env);
    if r.ok && !r.done.success {
      PointFromRecord(s, r.game, opp, env.coin);
    } else if r.ok {
      var b := Rated(r.game, r.drawn, Action(Block, env.teamBlocker(TeamOf(r.game, opp)), opp), env);
      RatedKeepsRosters(r.game, r.drawn, b.done.action, env);
      if b.ok {
        PointFromRecord(s, b.game, if b.done.success then opp else a.team, env.coin);
      }
    }
  }

  /** The dorsals an attack's `reset` looks up have counters, and reverting its point restores both scores. */
  lemma AttackedFacts(s: GameState, drawn: nat, a: Action, env: Env)
    requires Ready(s) && NoSetPoint(s)
    ensures var e := Attacked(s, drawn, a, env);
      e.ok ==>
        && a.player in TeamOf(e.game, a.team).playersStatistics
        && (e.done.success && e.done.block.Some? ==>
              e.done.block.value.action.player in TeamOf(e.game, e.done.block.value.action.team).playersStatistics)
        && SameScores(PointReverted(e.game, AttackReverted(e.done)), s)
  {
    var e := Attacked(s, drawn, a, env);
    var r := Rated(s, drawn, a, env);
    var opp := Opponent(a.team);
    AttackedPoint(s, drawn, a, env);
    RatedKeepsRosters(s, drawn, a, env);
    if e.ok {
      var scorer := AttackReverted(e.done);
      if r.done.success {
        var b := Rated(r.game, r.drawn, Action(Block, env.teamBlocker(TeamOf(r.game, opp)), opp), env);
        RatedKeepsRosters(r.game, r.drawn, b.done.action, env);
        assert e.game == PointScored(b.game, scorer, env.coin).state;
        PointFromScores(s, b.game, scorer, env.coin);
      } else {
        assert e.game == PointScored(r.game, scorer, env.coin).state;
        PointFromScores(s, r.game, scorer, env.coin);
      }
    }
  }

  /** `Attack.reset` on its own: counters down, the block reset, and the point of `AttackReverted` taken back. */
  lemma UndoneAttackScores(p: GameState, d: Done)
    requires Ready(p) && d.action.player in TeamOf(p, d.action.team).playersStatistics
    requires d.success && d.block.Some? ==> d.block.value.action.player in TeamOf(p, d.block.value.action.team).playersStatistics
    ensures var u := UndoneAttack(p, d);
      u.ok && SameScores(u.state, PointReverted(p, AttackReverted(d))) && u.state.pointsHistory == p.pointsHistory
  {
    var u := Untallied(p, d.action, true);
    assert u.ok && SameRosters(u.state, p) && u.state.board == p.board;
  }

  /** `Attack.reset` after a completed `execute`: both scores are back, the history keeps the point. */
  lemma AttackedReset(s: GameState, drawn: nat, a: Action, env: Env)
    requires Ready(s) && NoSetPoint(s)
    ensures var e := Attacked(s, drawn, a, env);
      var u := UndoneAttack(e.game, e.done);
      e.ok ==> u.ok && SameScores(u.state, s) && u.state.pointsHistory == e.game.pointsHistory
  {
    var e := Attacked(s, drawn, a, env);
    AttackedFacts(s, drawn, a, env);
    if e.ok {
      UndoneAttackScores(e.game, e.done);
    }
  }

  /**
   * An attack gives the point to the team its `reset` reverts the point
   * of, whether the attack failed, was blocked or went through; away from
   * a set point the `reset` gives both scores back (the record stays).
   */
  lemma AttackRevertsItsPoint(s: GameState, drawn: nat, a: Action, env: Env)
    requires Ready(s) && a.kind.Attack?
    ensures var e := Execute(s, drawn, a, env);
      e.ok ==> e.game.pointsHistory == s.pointsHistory + [RecordFor(s, AttackReverted(e.done))]
    ensures var e := Execute(s, drawn, a, env);
      var u := Undone(e.game, e.done, env);
      e.ok && NoSetPoint(s) ==> u.ok && SameScores(u.state, s) && u.state.pointsHistory == e.game.pointsHistory
  {
    var e := Attacked(s, drawn, a, env);
    assert Execute(s, drawn, a, env) == e;
    AttackedPoint(s, drawn, a, env);
    if NoSetPoint(s) {
      AttackedReset(s, drawn, a, env);
    }
    assert Undone(e.game, e.done, env) == UndoneAttack(e.game, e.done);
  }

  /**
   * `Move.execute` then `reset` gives the grid back, except that a
   * destination that was empty keeps no team label or slot number.
   */
  lemma MoveThenReset(s: GameState, drawn: nat, a: Action, env: Env)
    requires Ready(s) && a.kind.Move?
    ensures var e := Execute(s, drawn, a, env);
      var u := Undone(e.game, e.done, env);
      var dest := a.kind.dest;
      e.ok ==>
        && OnCourt(a.kind.src) && OnCourt(dest) && u.ok
        && u.state == s.(grid := if IsEmpty(At(s.grid, dest)) then SetCell(s.grid, dest, At(s.grid, dest).(team := Blank, position := 0)) else s.grid)
  {
    var e := Moved(s, drawn, a);
    assert Execute(s, drawn, a, env) == e;
    if e.ok {
      var src := a.kind.src;
      var dest := a.kind.dest;
      PlayerMovedCells(s.grid, src, dest);
      PlayerMovedBack(s.grid, src, dest);
      assert Undone(e.game, e.done, env) == UndoneMove(e.game, src, dest);
    }
  }

  /** What `SubstitutionThenReset` says, on `Substituted` and `UndoneSubstitution`. */
  lemma SubstitutedBack(s: GameState, drawn: nat, a: Action, env: Env)
    requires Ready(s) && a.kind.Substitution?
    requires a.player !in TeamOf(s, a.team).onBench && a.kind.playerIn !in TeamOf(s, a.team).onField
    ensures var e := Substituted(s, drawn, a, env);
      var u := UndoneSubstitution(e.game, a, env);
      var m := env.substitutePlayer(env.substitutePlayer(TeamOf(s, a.team).slots, a.player, a.kind.playerIn), a.kind.playerIn, a.player);
      var g := env.updatePlayerOnField(env.updatePlayerOnField(s.grid, a.player, a.kind.playerIn, a.team), a.kind.playerIn, a.player, a.team);
      e.ok ==> u == Step(WithTeam(s, a.team, TeamOf(s, a.team).(slots := m)).(grid := g), true)
  {
    var e := Substituted(s, drawn, a, env);
    if e.ok {
      var t := a.team;
      var out := a.player;
      var inn := a.kind.playerIn;
      var v := TeamOf(s, t);
      var m1 := env.substitutePlayer(v.slots, out, inn);
      var v1 := SubstitutionMade(v, out, inn, s.board.currentSet, m1).value;
      assert TeamOf(e.game, t) == v1;
      var m2 := env.substitutePlayer(v1.slots, inn, out);
      SubstitutionBack(v, out, inn, s.board.currentSet, m1, m2);
      assert WithTeam(e.game, t, v.(slots := m2)) == WithTeam(s, t, v.(slots := m2)).(grid := e.game.grid);
    }
  }

  /**
   * `Substitution.execute` then `reset`, when the player going out is not
   * on the bench and the player coming in not on the court: the court, the
   * bench and the substitution history are back, and the whole match state
   * is when `substitute_player` and `update_player_on_field` undo
   * themselves with the players swapped.
   */
  lemma SubstitutionThenReset(s: GameState, drawn: nat, a: Action, env: Env)
    requires Ready(s) && a.kind.Substitution?
    requires a.player !in TeamOf(s, a.team).onBench && a.kind.playerIn !in TeamOf(s, a.team).onField
    ensures var e := Execute(s, drawn, a, env);
      var u := Undone(e.game, e.done, env);
      e.ok ==>
        && u.ok
        && TeamOf(u.state, a.team).(slots := TeamOf(s, a.team).slots) == TeamOf(s, a.team)
        && TeamOf(u.state, Opponent(a.team)) == TeamOf(s, Opponent(a.team))
        && u.state.(t1 := s.t1, t2 := s.t2, grid := s.grid) == s
    ensures var e := Execute(s, drawn, a, env);
      e.ok && SwapsUndo(env) ==> Undone(e.game, e.done, env) == Step(s, true)
  {
    var e := Substituted(s, drawn, a, env);
    assert Execute(s, drawn, a, env) == e;
    SubstitutedBack(s, drawn, a, env);
    if e.ok {
      assert e.done.action == a;
      assert Undone(e.game, e.done, env) == UndoneSubstitution(e.game, a, env);
      if SwapsUndo(env) {
        var v := TeamOf(s, a.team);
        var f: Formation := v.slots;
        assert env.substitutePlayer(env.substitutePlayer(f, a.player, a.kind.playerIn), a.kind.playerIn, a.player) == f;
        assert env.updatePlayerOnField(env.updatePlayerOnField(s.grid, a.player, a.kind.playerIn, a.team), a.kind.playerIn, a.player, a.team) == s.grid;
        assert WithTeam(s, a.team, v) == s;
      }
    }
  }

  /** `dispatch` of a block: the block runs, goes on the stack, and its trigger scores. */
  lemma BlockDispatched(w: World, a: Action, env: Env)
    requires Ready(w.game) && a.kind.Block?
    ensures var e := Rated(w.game, w.drawn, a, env);
      var w1 := World(e.game, w.stack + [e.done], e.drawn);
      Dispatched(w, a, env) == if e.ok then Scored(w1, if e.done.success then a.team else Opponent(a.team), env.coin) else Outcome(w1, false)
  {
    var e := Rated(w.game, w.drawn, a, env);
    assert Execute(w.game, w.drawn, a, env) == e;
    var w1 := World(e.game, w.stack + [e.done], e.drawn);
    assert Dispatched(w, a, env) == Continued(w, e, env);
    if e.ok {
      assert Continued(w, e, env) == Triggered(w1, e.done, env);
      assert Next(w1, e.done, env).None?;
      assert Triggered(w1, e.done, env) == Finished(w1, e.done, env);
    }
  }

  /**
   * Resetting a block on top of a world its trigger scored in: the block
   * ran on g, which differs from the state s before it only in counters;
   * the counters go back, the point x stays.
   */
  lemma BlockPointKept(s: GameState, g: GameState, base: seq<Done>, d: Done, n: nat, x: Team, env: Env)
    requires Ready(g) && NoSetPoint(s) && d.action.kind.Block?
    requires g.board == s.board && g.pointsHistory == s.pointsHistory
    requires d.action.player in TeamOf(g, d.action.team).playersStatistics
    ensures var r := Scored(World(g, base + [d], n), x, env.coin);
      var p := Popped(r.world, env);
      r.ok ==>
        && p.ok && p.world.stack == base
        && p.world.game.pointsHistory == s.pointsHistory + [RecordFor(s, x)]
        && SameScores(PointReverted(p.world.game, x), s)
  {
    var r := Scored(World(g, base + [d], n), x, env.coin);
    if r.ok {
      PointFromRecord(s, g, x, env.coin);
      PointFromScores(s, g, x, env.coin);
      var q := r.world.game;
      assert d.action.player in TeamOf(q, d.action.team).playersStatistics;
      PoppedBlock(r.world, base, d, env);
      var pw := Popped(r.world, env).world.game;
      assert PointReverted(pw, x).board == PointReverted(q, x).board;
    }
  }

  /** `reset` of a block on top of the stack: it is popped, and only counters change. */
  lemma PoppedBlock(w: World, base: seq<Done>, d: Done, env: Env)
    requires Ready(w.game) && w.stack == base + [d] && d.action.kind.Block?
    requires d.action.player in TeamOf(w.game, d.action.team).playersStatistics
    ensures var p := Popped(w, env);
      p.ok && p.world.stack == base && p.world.game.board == w.game.board && p.world.game.pointsHistory == w.game.pointsHistory
  {
    assert w.stack[..|w.stack| - 1] == base;
    var u := Untallied(w.game, d.action, true);
    assert Undone(w.game, d, env) == u;
  }

  /**
   * The point the trigger of a block gives is outside every `reset`:
   * dispatching a block and then resetting once pops the block and takes
   * its counter back, but the point, its record and the serve stay.
   */
  lemma TriggerPointOutlivesReset(w: World, a: Action, env: Env)
    requires Ready(w.game) && a.kind.Block? && NoSetPoint(w.game)
    ensures var e := Execute(w.game, w.drawn, a, env);
      var x := if e.done.success then a.team else Opponent(a.team);
      var r := Dispatched(w, a, env);
      var p := Popped(r.world, env);
      r.ok ==>
        && p.ok && p.world.stack == w.stack
        && p.world.game.pointsHistory == w.game.pointsHistory + [RecordFor(w.game, x)]
        && SameScores(PointReverted(p.world.game, x), w.game)
  {
    var e := Rated(w.game, w.drawn, a, env);
    assert Execute(w.game, w.drawn, a, env) == e;
    BlockDispatched(w, a, env);
    if e.ok {
      BlockPointKept(w.game, e.game, w.stack, e.done, e.drawn, if e.done.success then a.team else Opponent(a.team), env);
    }
  }

  // ---------------------------------------------------------------------
  // Two actions as written, next to the corrected ones the model runs.

  /** The opponent `Receive.execute` and `reset` compute as written: T1 for either team. */
  function ReceiveOpponentAsWritten(t: Team): Team
  {
    if t == T2 then T1 else T1
  }

  /** `Receive.execute` as written: the point for a failed receive goes to `ReceiveOpponentAsWritten`. */
  function ReceivedAsWritten(s: GameState, drawn: nat, a: Action, env: Env): (r: Executed)
    requires Ready(s)
    ensures Ready(r.game) && r.done.action == a
  {
    ScoredOnFailure(Rated(s, drawn, a, env), ReceiveOpponentAsWritten(a.team), env.coin)
  }

  /** As written, a receive by T1 that fails gives the point to T1 itself. */
  lemma ReceiveAsWrittenRewardsFault(s: GameState, drawn: nat, a: Action, env: Env)
    requires Ready(s) && a.kind.Receive? && a.team == T1
    ensures var e := ReceivedAsWritten(s, drawn, a, env);
      e.ok && !e.done.success ==> e.game.pointsHistory == s.pointsHistory + [RecordFor(s, a.team)]
  {
    var r := Rated(s, drawn, a, env);
    PointFromRecord(s, r.game, T1, env.coin);
  }

  /** The corrected receive gives the point of a failure to the other team. */
  lemma ReceiveRewardsOpponent(s: GameState, drawn: nat, a: Action, env: Env)
    requires Ready(s) && a.kind.Receive?
    ensures var e := Execute(s, drawn, a, env);
      e.ok && !e.done.success ==>
        e.game.pointsHistory == s.pointsHistory + [RecordFor(s, Opponent(a.team))] && Opponent(a.team) != a.team
  {
    var r := Rated(s, drawn, a, env);
    assert Execute(s, drawn, a, env) == ScoredOnFailure(r, Opponent(a.team), env.coin);
    PointFromRecord(s, r.game, Opponent(a.team), env.coin);
  }

  /** `Set.reset` as written: `sets` goes down by one for the team and the player. */
  function SetUndoneAsWritten(s: GameState, d: Done): (r: Step)
    ensures r.ok ==> r.state.board == s.board && r.state.pointsHistory == s.pointsHistory
  {
    match Tallied(s, d.action.team, d.action.player, Sets, -1, true)
    case None => Step(s, false)
    case Some(s1) => Step(s1, true)
  }

  /**
   * As written, `Set.reset` does not undo `Set.execute`: the team's
   * `sets_won` stays one up, whatever happens to `sets`.
   */
  lemma SetResetAsWrittenKeepsSetsWon(s: GameState, drawn: nat, a: Action, env: Env)
    requires Ready(s) && a.kind.Set?
    ensures var e := Execute(s, drawn, a, env);
      var u := SetUndoneAsWritten(e.game, e.done);
      e.ok && u.ok ==>
        Get(TeamOf(u.state, a.team).statistics, SetsWon) == Get(TeamOf(s, a.team).statistics, SetsWon) + 1 && u.state != s
  {
    var e := SetExecuted(s, drawn, a, env);
    assert Execute(s, drawn, a, env) == e;
  }
}
