/**
 * Agents/manager_action_strategy.py, `ActionMiniMaxStrategy.maximize` and
 * `minimize`: alpha-beta search over the manager actions, played on the
 * shared dispatcher and rolled back after every child.  The evaluator is
 * a parameter returning an integer; the source's infinities are the two
 * ends of `Ext`.
 */
module Minimax {
  import opened Teams
  import opened Games
  import opened Actions
  import opened ManagerActions
  import opened Dispatching

  /** An evaluation, or the source's `float("-inf")` / `float("inf")`. */
  datatype Ext = NegInf | Fin(v: int) | PosInf

  /** a < b. */
  predicate Below(a: Ext, b: Ext)
  {
    match (a, b)
    case (NegInf, NegInf) => false
    case (NegInf, _) => true
    case (Fin(x), Fin(y)) => x < y
    case (Fin(_), PosInf) => true
    case _ => false
  }

  /** `max(a, b)`. */
  function Larger(a: Ext, b: Ext): (r: Ext)
    ensures !Below(r, a) && !Below(r, b) && (r == a || r == b)
  {
    if Below(a, b) then b else a
  }

  /** `min(a, b)`. */
  function Smaller(a: Ext, b: Ext): (r: Ext)
    ensures !Below(a, r) && !Below(b, r) && (r == a || r == b)
  {
    if Below(b, a) then b else a
  }

  /** A search's end: the world reached, the value and best action returned, and whether it completed. */
  datatype Search = Search(world: World, value: Ext, best: Option<Action>, ok: bool)

  /** `ManagerGameEvaluator().eval(game, team), None`. */
  function Evaluated(w: World, t: Team, eval: (GameState, Team) -> int): Search
  {
    Search(w, Fin(eval(w.game, t)), None, true)
  }

  /**
   * The rollback after a child: one `reset`, then `reset` until the stack
   * is back to n entries.
   */
  function RolledBack(w: World, n: int, env: Env): (r: Outcome)
    requires Ready(w.game)
    ensures Ready(r.world.game)
  {
    var p := Popped(w, env);
    if !p.ok then p else PoppedTo(p.world, n, env)
  }

  /** `maximize(depth, alpha, beta)` for team t: its own actions, each answered by `minimize`. */
  function Maximized(w: World, depth: nat, alpha: Ext, beta: Ext, t: Team, env: Env, eval: (GameState, Team) -> int): (r: Search)
    requires Ready(w.game)
    ensures Ready(r.world.game)
    ensures r.ok ==> r.world.stack == w.stack
    ensures depth == 0 || IsFinish(w.game) ==> r == Evaluated(w, t, eval)
    ensures r.best.Some? ==> PossibleActions(w.game, t, env.order).Some? && r.best.value in PossibleActions(w.game, t, env.order).value
    decreases depth, 1, 0
  {
    if depth == 0 || IsFinish(w.game) then Evaluated(w, t, eval)
    else
      match PossibleActions(w.game, t, env.order)
      case None => Search(w, NegInf, None, false)
      case Some(acts) =>
        if acts == [] then Evaluated(w, t, eval)
        else MaxFrom(w, acts, 0, depth, alpha, beta, NegInf, None, t, env, eval)
  }

  /**
   * The loop of `maximize` at depth `depth` from the i-th action: dispatch
   * the action, search the answer one level down, keep it when strictly
   * better, roll back, raise alpha, and stop once beta <= alpha.
   */
  function MaxFrom(w: World, acts: seq<Action>, i: nat, depth: nat, alpha: Ext, beta: Ext, maxEval: Ext, best: Option<Action>,
                   t: Team, env: Env, eval: (GameState, Team) -> int): (r: Search)
    requires Ready(w.game) && i <= |acts| && depth > 0
    requires best.Some? ==> best.value in acts
    ensures Ready(r.world.game)
    ensures r.ok ==> r.world.stack == w.stack
    ensures r.best.Some? ==> r.best.value in acts
    ensures !Below(r.value, maxEval)
    decreases depth, 0, |acts| - i
  {
    if i == |acts| then Search(w, maxEval, best, true)
    else
      var c := Answered(Dispatched(w, acts[i], env), depth, alpha, beta, t, env, eval, false);
      var m := if Below(maxEval, c.value) then c.value else maxEval;
      var b := if Below(maxEval, c.value) then Some(acts[i]) else best;
      if !c.ok then Search(c.world, m, b, false)
      else
        DispatchExtends(w, acts[i], env);
        RollbackRestores(w.stack, c.world, env);
        var rb := RolledBack(c.world, |w.stack|, env);
        if !rb.ok then Search(rb.world, m, b, false)
        else
          var a := Larger(alpha, c.value);
          if !Below(a, beta) then Search(rb.world, m, b, true)
          else MaxFrom(rb.world, acts, i + 1, depth, a, beta, m, b, t, env, eval)
  }

  /**
   * One child of either loop at depth `depth`, after its action's dispatch
   * d: search the reply one level down (`maximize` when the loop is
   * minimizing).  A dispatch that raised ends the child with a value
   * neither loop keeps.
   */
  function Answered(d: Outcome, depth: nat, alpha: Ext, beta: Ext, t: Team, env: Env,
                    eval: (GameState, Team) -> int, minimizing: bool): (r: Search)
    requires Ready(d.world.game) && depth > 0
    ensures Ready(r.world.game)
    ensures r.ok ==> d.ok && r.world.stack == d.world.stack
    decreases depth, 0, 0
  {
    if !d.ok then Search(d.world, if minimizing then PosInf else NegInf, None, false)
    else if minimizing then Maximized(d.world, depth - 1, alpha, beta, t, env, eval)
    else Minimized(d.world, depth - 1, alpha, beta, t, env, eval)
  }

  /** `minimize(depth, alpha, beta)` for team t: the opponent's actions, each answered by `maximize`. */
  function Minimized(w: World, depth: nat, alpha: Ext, beta: Ext, t: Team, env: Env, eval: (GameState, Team) -> int): (r: Search)
    requires Ready(w.game)
    ensures Ready(r.world.game)
    ensures r.ok ==> r.world.stack == w.stack
    ensures depth == 0 || IsFinish(w.game) ==> r == Evaluated(w, t, eval)
    ensures r.best.Some? ==> PossibleActions(w.game, Opponent(t), env.order).Some? && r.best.value in PossibleActions(w.game, Opponent(t), env.order).value
    decreases depth, 1, 0
  {
    if depth == 0 || IsFinish(w.game) then Evaluated(w, t, eval)
    else
      match PossibleActions(w.game, Opponent(t), env.order)
      case None => Search(w, PosInf, None, false)
      case Some(acts) =>
        if acts == [] then Evaluated(w, t, eval)
        else MinFrom(w, acts, 0, depth, alpha, beta, PosInf, None, t, env, eval)
  }

  /** The loop of `minimize` from the i-th action: keep the strictly smaller answer, lower beta. */
  function MinFrom(w: World, acts: seq<Action>, i: nat, depth: nat, alpha: Ext, beta: Ext, minEval: Ext, best: Option<Action>,
                   t: Team, env: Env, eval: (GameState, Team) -> int): (r: Search)
    requires Ready(w.game) && i <= |acts| && depth > 0
    requires best.Some? ==> best.value in acts
    ensures Ready(r.world.game)
    ensures r.ok ==> r.world.stack == w.stack
    ensures r.best.Some? ==> r.best.value in acts
    ensures !Below(minEval, r.value)
    decreases depth, 0, |acts| - i
  {
    if i == |acts| then Search(w, minEval, best, true)
    else
      var c := Answered(Dispatched(w, acts[i], env), depth, alpha, beta, t, env, eval, true);
      var m := if Below(c.value, minEval) then c.value else minEval;
      var b := if Below(c.value, minEval) then Some(acts[i]) else best;
      if !c.ok then Search(c.world, m, b, false)
      else
        DispatchExtends(w, acts[i], env);
        RollbackRestores(w.stack, c.world, env);
        var rb := RolledBack(c.world, |w.stack|, env);
        if !rb.ok then Search(rb.world, m, b, false)
        else
          var bt := Smaller(beta, c.value);
          if !Below(alpha, bt) then Search(rb.world, m, b, true)
          else MinFrom(rb.world, acts, i + 1, depth, alpha, bt, m, b, t, env, eval)
  }

  /** A rollback to |base| entries from a stack that extends base gives base back. */
  lemma RollbackRestores(base: seq<Done>, c: World, env: Env)
    requires Ready(c.game) && |c.stack| > |base| && c.stack[..|base|] == base
    ensures var rb := RolledBack(c, |base|, env);
      rb.ok ==> rb.world.stack == base
  {
    var p := Popped(c, env);
    if p.ok {
      PoppedToCuts(p.world, |base|, env);
      assert p.world.stack[..|base|] == c.stack[..|base|];
    }
  }

  /** A dispatch only pushes: the stack before it is a strict prefix of the stack after it. */
  lemma DispatchExtends(w: World, a: Action, env: Env)
    requires Ready(w.game)
    ensures var st := Dispatched(w, a, env).world.stack;
      |st| > |w.stack| && st[..|w.stack|] == w.stack
  {
    DispatchChain(w, a, env);
  }

  // ---------------------------------------------------------------------
  // The search played on a dispatcher.  Each method is proved to end
  // where the search functions above end, and to return their value and
  // best action.

  /** `maximize(depth, alpha, beta, team)` on the dispatcher. */
  method Maximize(dp: Dispatch, depth: nat, alpha: Ext, beta: Ext, t: Team, eval: (GameState, Team) -> int)
    returns (value: Ext, best: Option<Action>, ok: bool)
    requires dp.Valid()
    modifies dp, dp.game, dp.game.field, dp.game.t1, dp.game.t2, dp.game.t1.lineUp, dp.game.t2.lineUp
    ensures dp.SameLineUps()
    ensures var r := Maximized(old(dp.Current()), depth, alpha, beta, t, dp.env, eval);
      ok == r.ok && (ok ==> dp.Valid() && dp.Current() == r.world && value == r.value && best == r.best)
    decreases depth, 6
  {
    var s := dp.game.State();
    if depth == 0 || IsFinish(s) {
      return Fin(eval(s, t)), None, true;
    }
    value, best, ok := MaxActions(dp, dp.Current(), depth, alpha, beta, t, eval);
  }

  /** Past the leaf cases, `maximize` lists the actions, then runs its loop over them. */
  lemma MaximizedCases(w: World, depth: nat, alpha: Ext, beta: Ext, t: Team, env: Env, eval: (GameState, Team) -> int,
                       acts: Option<seq<Action>>)
    requires Ready(w.game) && depth > 0 && !IsFinish(w.game)
    requires PossibleActions(w.game, t, env.order) == acts
    ensures var r := Maximized(w, depth, alpha, beta, t, env, eval);
      && (acts.None? ==> !r.ok)
      && (acts == Some([]) ==> r == Evaluated(w, t, eval))
      && (acts.Some? && acts.value != [] ==> r == MaxFrom(w, acts.value, 0, depth, alpha, beta, NegInf, None, t, env, eval))
  {
    match PossibleActions(w.game, t, env.order)
    case None =>
    case Some(xs) =>
      assert Some(xs) == acts;
  }

  /** `maximize` past its leaf cases: list the actions, then run the loop over them. */
  method MaxActions(dp: Dispatch, ghost w: World, depth: nat, alpha: Ext, beta: Ext, t: Team, eval: (GameState, Team) -> int)
    returns (value: Ext, best: Option<Action>, ok: bool)
    requires dp.Valid() && dp.Current() == w && depth > 0 && !IsFinish(w.game)
    modifies dp, dp.game, dp.game.field, dp.game.t1, dp.game.t2, dp.game.t1.lineUp, dp.game.t2.lineUp
    ensures dp.SameLineUps()
    ensures var r := Maximized(w, depth, alpha, beta, t, dp.env, eval);
      ok == r.ok && (ok ==> dp.Valid() && dp.Current() == r.world && value == r.value && best == r.best)
    decreases depth, 5
  {
    var s := dp.game.State();
    var acts := PossibleActions(s, t, dp.env.order);
    MaximizedCases(w, depth, alpha, beta, t, dp.env, eval, acts);
    if acts.None? {
      return NegInf, None, false;
    }
    if acts.value == [] {
      return Fin(eval(s, t)), None, true;
    }
    value, best, ok := MaxList(dp, w, acts.value, depth, alpha, beta, t, eval);
  }

  /** `maximize` over a non-empty list of actions. */
  method MaxList(dp: Dispatch, ghost w: World, xs: seq<Action>, depth: nat, alpha: Ext, beta: Ext, t: Team, eval: (GameState, Team) -> int)
    returns (value: Ext, best: Option<Action>, ok: bool)
    requires dp.Valid() && dp.Current() == w && depth > 0 && !IsFinish(w.game)
    requires PossibleActions(w.game, t, dp.env.order) == Some(xs) && xs != []
    modifies dp, dp.game, dp.game.field, dp.game.t1, dp.game.t2, dp.game.t1.lineUp, dp.game.t2.lineUp
    ensures dp.SameLineUps()
    ensures var r := Maximized(w, depth, alpha, beta, t, dp.env, eval);
      ok == r.ok && (ok ==> dp.Valid() && dp.Current() == r.world && value == r.value && best == r.best)
    decreases depth, 4
  {
    MaximizedCases(w, depth, alpha, beta, t, dp.env, eval, Some(xs));
    hide *;
    value, best, ok := MaxLoop(dp, w, xs, depth, alpha, beta, t, eval);
  }

  /** The `for action in actions` loop of `maximize`. */
  method MaxLoop(dp: Dispatch, ghost w: World, xs: seq<Action>, depth: nat, alpha: Ext, beta: Ext, t: Team, eval: (GameState, Team) -> int)
    returns (value: Ext, best: Option<Action>, ok: bool)
    requires dp.Valid() && dp.Current() == w && depth > 0
    modifies dp, dp.game, dp.game.field, dp.game.t1, dp.game.t2, dp.game.t1.lineUp, dp.game.t2.lineUp
    ensures dp.SameLineUps()
    ensures var r := MaxFrom(w, xs, 0, depth, alpha, beta, NegInf, None, t, dp.env, eval);
      ok == r.ok && (ok ==> dp.Valid() && dp.Current() == r.world && value == r.value && best == r.best)
    decreases depth, 3
  {
    var a := alpha;
    value, best := NegInf, None;
    var i := 0;
    while i < |xs|
      invariant dp.Valid() && dp.SameLineUps()
      invariant i <= |xs| && (best.Some? ==> best.value in xs)
      invariant MaxFrom(dp.Current(), xs, i, depth, a, beta, value, best, t, dp.env, eval)
             == MaxFrom(w, xs, 0, depth, alpha, beta, NegInf, None, t, dp.env, eval)
    {
      var stop;
      value, best, a, stop, ok := MaxStep(dp, dp.Current(), xs, i, depth, a, beta, value, best, t, eval);
      if !ok || stop {
        return;
      }
      i := i + 1;
    }
    ok := true;
  }

  /** MaxFrom one action on: the child's answer c, then the rollback rb. */
  lemma MaxFromNext(w: World, xs: seq<Action>, i: nat, depth: nat, alpha: Ext, beta: Ext, maxEval: Ext, best: Option<Action>,
                    t: Team, env: Env, eval: (GameState, Team) -> int)
    requires Ready(w.game) && i < |xs| && depth > 0 && (best.Some? ==> best.value in xs)
    ensures var r := MaxFrom(w, xs, i, depth, alpha, beta, maxEval, best, t, env, eval);
      var c := Answered(Dispatched(w, xs[i], env), depth, alpha, beta, t, env, eval, false);
      var rb := RolledBack(c.world, |w.stack|, env);
      (!(c.ok && rb.ok) ==> !r.ok) &&
      var m := if Below(maxEval, c.value) then c.value else maxEval;
      var b := if Below(maxEval, c.value) then Some(xs[i]) else best;
      (c.ok && rb.ok ==>
      var a := Larger(alpha, c.value);
      r == if !Below(a, beta) then Search(rb.world, m, b, true)
           else MaxFrom(rb.world, xs, i + 1, depth, a, beta, m, b, t, env, eval))
  {
  }

  /**
   * One pass of the loop of `maximize` over xs[i]: the child's answer, the
   * kept maximum and best action, the raised alpha, and whether beta <= alpha
   * stops the loop.
   */
  method MaxStep(dp: Dispatch, ghost w: World, xs: seq<Action>, i: nat, depth: nat, alpha: Ext, beta: Ext, maxEval: Ext,
                 best: Option<Action>, t: Team, eval: (GameState, Team) -> int)
    returns (value: Ext, best': Option<Action>, a: Ext, stop: bool, ok: bool)
    requires dp.Valid() && dp.Current() == w && Ready(w.game) && i < |xs| && depth > 0 && (best.Some? ==> best.value in xs)
    modifies dp, dp.game, dp.game.field, dp.game.t1, dp.game.t2, dp.game.t1.lineUp, dp.game.t2.lineUp
    ensures dp.SameLineUps()
    ensures var r := MaxFrom(w, xs, i, depth, alpha, beta, maxEval, best, t, dp.env, eval);
      (!ok ==> !r.ok) &&
      (ok ==> dp.Valid() && (best'.Some? ==> best'.value in xs) &&
              (stop ==> r == Search(dp.Current(), value, best', true)) &&
              (!stop ==> r == MaxFrom(dp.Current(), xs, i + 1, depth, a, beta, value, best', t, dp.env, eval)))
    decreases depth, 2
  {
    hide *;
    MaxFromNext(w, xs, i, depth, alpha, beta, maxEval, best, t, dp.env, eval);
    var c;
    c, ok := Child(dp, w, xs[i], depth, alpha, beta, t, eval, false);
    value, best' := maxEval, best;
    a := alpha;
    stop := false;
    if !ok {
      return;
    }
    if Below(maxEval, c) {
      value, best' := c, Some(xs[i]);
    }
    a := Larger(alpha, c);
    stop := !Below(a, beta);
  }

  /** `minimize(depth, alpha, beta, team)` on the dispatcher: the opponent's actions. */
  method Minimize(dp: Dispatch, depth: nat, alpha: Ext, beta: Ext, t: Team, eval: (GameState, Team) -> int)
    returns (value: Ext, best: Option<Action>, ok: bool)
    requires dp.Valid()
    modifies dp, dp.game, dp.game.field, dp.game.t1, dp.game.t2, dp.game.t1.lineUp, dp.game.t2.lineUp
    ensures dp.SameLineUps()
    ensures var r := Minimized(old(dp.Current()), depth, alpha, beta, t, dp.env, eval);
      ok == r.ok && (ok ==> dp.Valid() && dp.Current() == r.world && value == r.value && best == r.best)
    decreases depth, 6
  {
    var s := dp.game.State();
    if depth == 0 || IsFinish(s) {
      return Fin(eval(s, t)), None, true;
    }
    value, best, ok := MinActions(dp, dp.Current(), depth, alpha, beta, t, eval);
  }

  /** Past the leaf cases, `minimize` lists the opponent's actions, then runs its loop over them. */
  lemma MinimizedCases(w: World, depth: nat, alpha: Ext, beta: Ext, t: Team, env: Env, eval: (GameState, Team) -> int,
                       acts: Option<seq<Action>>)
    requires Ready(w.game) && depth > 0 && !IsFinish(w.game)
    requires PossibleActions(w.game, Opponent(t), env.order) == acts
    ensures var r := Minimized(w, depth, alpha, beta, t, env, eval);
      && (acts.None? ==> !r.ok)
      && (acts == Some([]) ==> r == Evaluated(w, t, eval))
      && (acts.Some? && acts.value != [] ==> r == MinFrom(w, acts.value, 0, depth, alpha, beta, PosInf, None, t, env, eval))
  {
    match PossibleActions(w.game, Opponent(t), env.order)
    case None =>
    case Some(xs) =>
      assert Some(xs) == acts;
  }

  /** `minimize` past its leaf cases: list the opponent's actions, then run the loop over them. */
  method MinActions(dp: Dispatch, ghost w: World, depth: nat, alpha: Ext, beta: Ext, t: Team, eval: (GameState, Team) -> int)
    returns (value: Ext, best: Option<Action>, ok: bool)
    requires dp.Valid() && dp.Current() == w && depth > 0 && !IsFinish(w.game)
    modifies dp, dp.game, dp.game.field, dp.game.t1, dp.game.t2, dp.game.t1.lineUp, dp.game.t2.lineUp
    ensures dp.SameLineUps()
    ensures var r := Minimized(w, depth, alpha, beta, t, dp.env, eval);
      ok == r.ok && (ok ==> dp.Valid() && dp.Current() == r.world && value == r.value && best == r.best)
    decreases depth, 5
  {
    var s := dp.game.State();
    var acts := PossibleActions(s, Opponent(t), dp.env.order);
    MinimizedCases(w, depth, alpha, beta, t, dp.env, eval, acts);
    if acts.None? {
      return PosInf, None, false;
    }
    if acts.value == [] {
      return Fin(eval(s, t)), None, true;
    }
    value, best, ok := MinList(dp, w, acts.value, depth, alpha, beta, t, eval);
  }

  /** `minimize` over a non-empty list of actions. */
  method MinList(dp: Dispatch, ghost w: World, xs: seq<Action>, depth: nat, alpha: Ext, beta: Ext, t: Team, eval: (GameState, Team) -> int)
    returns (value: Ext, best: Option<Action>, ok: bool)
    requires dp.Valid() && dp.Current() == w && depth > 0 && !IsFinish(w.game)
    requires PossibleActions(w.game, Opponent(t), dp.env.order) == Some(xs) && xs != []
    modifies dp, dp.game, dp.game.field, dp.game.t1, dp.game.t2, dp.game.t1.lineUp, dp.game.t2.lineUp
    ensures dp.SameLineUps()
    ensures var r := Minimized(w, depth, alpha, beta, t, dp.env, eval);
      ok == r.ok && (ok ==> dp.Valid() && dp.Current() == r.world && value == r.value && best == r.best)
    decreases depth, 4
  {
    MinimizedCases(w, depth, alpha, beta, t, dp.env, eval, Some(xs));
    hide *;
    value, best, ok := MinLoop(dp, w, xs, depth, alpha, beta, t, eval);
  }

  /** The `for action in actions` loop of `minimize`. */
  method MinLoop(dp: Dispatch, ghost w: World, xs: seq<Action>, depth: nat, alpha: Ext, beta: Ext, t: Team, eval: (GameState, Team) -> int)
    returns (value: Ext, best: Option<Action>, ok: bool)
    requires dp.Valid() && dp.Current() == w && depth > 0
    modifies dp, dp.game, dp.game.field, dp.game.t1, dp.game.t2, dp.game.t1.lineUp, dp.game.t2.lineUp
    ensures dp.SameLineUps()
    ensures var r := MinFrom(w, xs, 0, depth, alpha, beta, PosInf, None, t, dp.env, eval);
      ok == r.ok && (ok ==> dp.Valid() && dp.Current() == r.world && value == r.value && best == r.best)
    decreases depth, 3
  {
    var b := beta;
    value, best := PosInf, None;
    var i := 0;
    while i < |xs|
      invariant dp.Valid() && dp.SameLineUps()
      invariant i <= |xs| && (best.Some? ==> best.value in xs)
      invariant MinFrom(dp.Current(), xs, i, depth, alpha, b, value, best, t, dp.env, eval)
             == MinFrom(w, xs, 0, depth, alpha, beta, PosInf, None, t, dp.env, eval)
    {
      var stop;
      value, best, b, stop, ok := MinStep(dp, dp.Current(), xs, i, depth, alpha, b, value, best, t, eval);
      if !ok || stop {
        return;
      }
      i := i + 1;
    }
    ok := true;
  }

  /** MinFrom one action on: the child's answer c, then the rollback rb. */
  lemma MinFromNext(w: World, xs: seq<Action>, i: nat, depth: nat, alpha: Ext, beta: Ext, minEval: Ext, best: Option<Action>,
                    t: Team, env: Env, eval: (GameState, Team) -> int)
    requires Ready(w.game) && i < |xs| && depth > 0 && (best.Some? ==> best.value in xs)
    ensures var r := MinFrom(w, xs, i, depth, alpha, beta, minEval, best, t, env, eval);
      var c := Answered(Dispatched(w, xs[i], env), depth, alpha, beta, t, env, eval, true);
      var rb := RolledBack(c.world, |w.stack|, env);
      (!(c.ok && rb.ok) ==> !r.ok) &&
      var m := if Below(c.value, minEval) then c.value else minEval;
      var b := if Below(c.value, minEval) then Some(xs[i]) else best;
      (c.ok && rb.ok ==>
      var bt := Smaller(beta, c.value);
      r == if !Below(alpha, bt) then Search(rb.world, m, b, true)
           else MinFrom(rb.world, xs, i + 1, depth, alpha, bt, m, b, t, env, eval))
  {
  }

  /**
   * One pass of the loop of `minimize` over xs[i]: the child's answer, the
   * kept minimum and best action, the lowered beta, and whether beta <= alpha
   * stops the loop.
   */
  method MinStep(dp: Dispatch, ghost w: World, xs: seq<Action>, i: nat, depth: nat, alpha: Ext, beta: Ext, minEval: Ext,
                 best: Option<Action>, t: Team, eval: (GameState, Team) -> int)
    returns (value: Ext, best': Option<Action>, b: Ext, stop: bool, ok: bool)
    requires dp.Valid() && dp.Current() == w && Ready(w.game) && i < |xs| && depth > 0 && (best.Some? ==> best.value in xs)
    modifies dp, dp.game, dp.game.field, dp.game.t1, dp.game.t2, dp.game.t1.lineUp, dp.game.t2.lineUp
    ensures dp.SameLineUps()
    ensures var r := MinFrom(w, xs, i, depth, alpha, beta, minEval, best, t, dp.env, eval);
      (!ok ==> !r.ok) &&
      (ok ==> dp.Valid() && (best'.Some? ==> best'.value in xs) &&
              (stop ==> r == Search(dp.Current(), value, best', true)) &&
              (!stop ==> r == MinFrom(dp.Current(), xs, i + 1, depth, alpha, b, value, best', t, dp.env, eval)))
    decreases depth, 2
  {
    hide *;
    MinFromNext(w, xs, i, depth, alpha, beta, minEval, best, t, dp.env, eval);
    var c;
    c, ok := Child(dp, w, xs[i], depth, alpha, beta, t, eval, true);
    value, best' := minEval, best;
    b := beta;
    stop := false;
    if !ok {
      return;
    }
    if Below(c, minEval) {
      value, best' := c, Some(xs[i]);
    }
    b := Smaller(beta, c);
    stop := !Below(alpha, b);
  }

  /**
   * One child of either loop on the dispatcher: record the stack length,
   * dispatch the action, then search the reply and roll back.
   */
  method Child(dp: Dispatch, ghost w: World, a: Action, depth: nat, alpha: Ext, beta: Ext, t: Team,
               eval: (GameState, Team) -> int, minimizing: bool) returns (value: Ext, ok: bool)
    requires dp.Valid() && dp.Current() == w && depth > 0
    modifies dp, dp.game, dp.game.field, dp.game.t1, dp.game.t2, dp.game.t1.lineUp, dp.game.t2.lineUp
    ensures dp.SameLineUps()
    ensures var c := Answered(Dispatched(w, a, dp.env), depth, alpha, beta, t, dp.env, eval, minimizing);
      var rb := RolledBack(c.world, |w.stack|, dp.env);
      ok == (c.ok && rb.ok) && (ok ==> value == c.value && dp.Valid() && dp.Current() == rb.world)
    decreases depth, 1
  {
    ghost var d := Dispatched(w, a, dp.env);
    var n := |dp.stack|;
    ok := dp.DispatchAction(a);
    if !ok {
      assert !Answered(d, depth, alpha, beta, t, dp.env, eval, minimizing).ok;
      return NegInf, false;
    }
    value, ok := Reply(dp, d, n, depth, alpha, beta, t, eval, minimizing);
  }

  /** The rest of a child once its dispatch d has completed: the reply one level down, then the rollback. */
  method Reply(dp: Dispatch, ghost d: Outcome, n: int, depth: nat, alpha: Ext, beta: Ext, t: Team,
               eval: (GameState, Team) -> int, minimizing: bool) returns (value: Ext, ok: bool)
    requires dp.Valid() && d.ok && dp.Current() == d.world && depth > 0
    modifies dp, dp.game, dp.game.field, dp.game.t1, dp.game.t2, dp.game.t1.lineUp, dp.game.t2.lineUp
    ensures dp.SameLineUps()
    ensures var c := Answered(d, depth, alpha, beta, t, dp.env, eval, minimizing);
      var rb := RolledBack(c.world, n, dp.env);
      ok == (c.ok && rb.ok) && (ok ==> value == c.value && dp.Valid() && dp.Current() == rb.world)
    decreases depth, 0
  {
    var below: nat := depth - 1;
    AnsweredReplies(d, depth, below, alpha, beta, t, dp.env, eval, minimizing);
    value, ok := Rewound(dp, d.world, n, below, alpha, beta, t, eval, minimizing);
  }

  /** A completed dispatch is answered by the other side's search, one level down. */
  lemma AnsweredReplies(d: Outcome, depth: nat, below: nat, alpha: Ext, beta: Ext, t: Team, env: Env,
                        eval: (GameState, Team) -> int, minimizing: bool)
    requires Ready(d.world.game) && d.ok && depth == below + 1
    ensures Answered(d, depth, alpha, beta, t, env, eval, minimizing)
         == if minimizing then Maximized(d.world, below, alpha, beta, t, env, eval)
            else Minimized(d.world, below, alpha, beta, t, env, eval)
  {
  }

  /**
   * Search the reply at depth `below` (`maximize` when the loop is
   * minimizing), then `reset` once and `reset` until the stack is back to
   * n entries.
   */
  method Rewound(dp: Dispatch, ghost u: World, n: int, below: nat, alpha: Ext, beta: Ext, t: Team,
                 eval: (GameState, Team) -> int, minimizing: bool) returns (value: Ext, ok: bool)
    requires dp.Valid() && dp.Current() == u
    modifies dp, dp.game, dp.game.field, dp.game.t1, dp.game.t2, dp.game.t1.lineUp, dp.game.t2.lineUp
    ensures dp.SameLineUps()
    ensures var c := if minimizing then Maximized(u, below, alpha, beta, t, dp.env, eval)
                     else Minimized(u, below, alpha, beta, t, dp.env, eval);
      var rb := RolledBack(c.world, n, dp.env);
      ok == (c.ok && rb.ok) && (ok ==> value == c.value && dp.Valid() && dp.Current() == rb.world)
    decreases below, 7
  {
    var best;
    if minimizing {
      value, best, ok := Maximize(dp, below, alpha, beta, t, eval);
    } else {
      value, best, ok := Minimize(dp, below, alpha, beta, t, eval);
    }
    if ok {
      ok := Unwind(dp, n);
    }
  }

  /** `reset` once, then `reset` until the stack is back to n entries. */
  method Unwind(dp: Dispatch, n: int) returns (ok: bool)
    requires dp.Valid()
    modifies dp, dp.game, dp.game.field, dp.game.t1, dp.game.t2, dp.game.t1.lineUp, dp.game.t2.lineUp
    ensures dp.SameLineUps()
    ensures var rb := RolledBack(old(dp.Current()), n, dp.env);
      ok == rb.ok && (ok ==> dp.Valid() && dp.Current() == rb.world)
  {
    ghost var c := dp.Current();
    ok := dp.Reset();
    if !ok {
      return;
    }
    ok := dp.PopTo(n);
    assert RolledBack(c, n, dp.env) == PoppedTo(Popped(c, dp.env).world, n, dp.env);
  }
}
