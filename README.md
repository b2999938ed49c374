# VolleySim core in Dafny

A model of the engine of VolleySim, a volleyball match simulator in which
player and manager agents act on a shared match state. The model covers:

- the match state: the score, sets, serve and rotation, touches, time-outs,
  the points history and the per-team and per-player counters;
- the 19 by 9 court grid, with the net on row 9, the ball and the players
  placed on it;
- the six rotation slots of a line-up;
- the rally actions, each with an `execute` and an inverse `reset`, and
  the dispatcher that keeps them on a LIFO stack and chains the triggers
  of a rally (serve, receive, set, attack, block, point);
- the legal actions of a player and of a manager;
- the alpha-beta search a manager runs on the shared stack;
- the greedy line-up builders;
- the simulator that plays a match rally by rally and rewinds it with
  its own stack of rally markers.

Each source file is one module:

| module | file | source |
|---|---|---|
| Teams | teams.dfy | the two team labels, `Option` and the shared enums |
| Stats | stats.dfy | Tools/data.py: `StatisticsPlayer`, `StatisticsTeam` |
| LineUps | line_up.dfy | Tools/line_up.py |
| Rosters | team_data.dfy | Tools/data.py: `TeamData` |
| Fields | field.dfy | Tools/field.py |
| Games | game.dfy | Tools/game.py |
| Actions | actions.dfy | Agents/actions.py: the action variants and the value-level dispatcher |
| Dispatching | dispatch.dfy | Agents/actions.py: the `Dispatch` class |
| ManagerActions | manager_actions.dfy | Agents/manager_action_strategy.py: substitutions, actions, runs of points |
| Minimax | minimax.dfy | Agents/manager_action_strategy.py: `maximize`, `minimize` |
| PlayerAgents | player_agent.dfy | Agents/player_agent.py |
| LineUpBuilder | line_up_builder.dfy | Agents/manager_line_up_strategy.py |
| Simulation | simulator.dfy | Simulator/simulator.py |

The model has two layers.

- **Values.** Each operation that changes the match is first a function
  on a value `GameState` (or on a `World`: the state, the dispatch stack
  and the draws used). It returns the state it reaches and whether it
  completed (`false` where the Python raises, apart from the cases listed
  under "## Left out"). The laws are lemmas about
  these functions: round trips, the stack law, trigger chains, bounds.
- **Objects.** `Field`, `LineUp`, `TeamData`, `Game`, `Dispatch` and
  `Simulator` are classes whose fields the methods update in place. Each
  method ensures that the new state is the value function applied to the
  old one (`State() == PointScored(old(State()), t, coin).state`), so the
  lemmas carry over to the objects.

Randomness, the collaborators the source does not define and agent
decisions come in as parameters:

- `random()` is a stream of draws in an `Env` record, with a cursor on the
  dispatcher;
- `coin_toss` is a boolean;
- `select_setter`, `select_attacker`, `select_blocker`,
  `LineUp.substitute_player` and `Field.update_player_on_field` are
  functions in `Env`;
- the player's and the manager's choices are functions of the match state.

## Notes on the code

- The actions do not all undo themselves.
  - The points that the `*_trigger` methods of `Dispatch` award
    (Agents/actions.py:405-477) are never taken back by `Dispatch.reset`.
  - `Set.execute` raises the team's `sets_won`, while `Set.reset` lowers
    `sets` for the team and the player (Agents/actions.py:170, 179-180).
  - `revert_point` lowers one score and leaves the history, possession,
    serve and rotation as they are (Tools/game.py:231-237).

  `Actions.ExecuteThenReset` states which actions do round-trip, with
  `Set` under the corrected reset. `Actions.FailedActionRevertsScore` and
  `Actions.TriggerPointOutlivesReset` state what stays behind.
- The value functions `Actions.Execute`, `Actions.Undone`,
  `Actions.Dispatched` and `Actions.Triggered`, and the `Dispatch` class,
  run two actions in their corrected form:
  - a failed `Receive` gives the point to the other team;
  - `Set.reset` lowers `sets_won`.

  The versions as written are `Actions.ReceivedAsWritten` and
  `Actions.SetUndoneAsWritten`, and the first two rows of "## Findings"
  set them side by side.

  `score_point` also runs corrected, through `Games.Awarded`: the point at
  25 completes, where the code as written raises on a missing counter
  (`Games.AwardedAsWritten`, row 9 of "## Findings").
- `rotate` (Tools/line_up.py:66-74) makes the old slot 6 the new server.
  That is the reverse of the clockwise turn of FIVB rule 7.6
  (`LineUps.RotatedIsReverseOfFivb`).
- `has_set_ended` (Tools/game.py:92-98) plays every set to 25 points with
  a lead of two, including the deciding fifth set, which FIVB rule 6.2
  plays to 15. The model follows the code.
- The minimax calls `Dispatch.rollback`, which Agents/actions.py does not
  define; the model uses `Dispatch.reset`.

## Model

| member | source | states |
|---|---|---|
| Teams.Opponent | Tools/game.py:293-295 | the opponent of a team is the other team: never the team itself, and T1 exactly when the team is T2 |
| Teams.Pick | Tools/data.py:70-71 | iterating over a non-empty set yields one of its members |
| Stats.FreshCounters | Tools/data.py:10-22 | a freshly built statistics object holds 0 in every counter |
| Stats.Bump | Tools/data.py:29-41 | `stats.k += d` changes counter k by exactly d and leaves every other counter as it was |
| Stats.CountersExt | Tools/data.py:10-41 | two statistics objects that agree on every counter are the same object value |
| Stats.BumpUndo | Agents/actions.py:70-83 | adding d and then -d to one counter gives the counters back, which every action's `reset` relies on |
| Stats.BumpCommutes | Agents/actions.py:55-59 | bumps of two counters can happen in either order and reach the same counters |
| LineUps.NewLineUpGrid | Tools/line_up.py:20-26 | a new slot has the given cell, rotation number and role, no player (-1) and the NORMAL setting |
| LineUps.RatedPlayer.constructor | Tools/line_up.py:94-105 | a player record holds exactly the ratings it is built with |
| LineUps.ApplyRolePenalty | Tools/line_up.py:36-45 | a player out of the slot's role loses exactly 5 on each of the seven ratings; a player in role keeps them; dorsal and role never change |
| LineUps.ConfPlayer | Tools/line_up.py:28-30 | the slot afterwards seats the player's dorsal and nothing else of the slot changes; the ratings drop by 5 exactly when the preferred role differs from the slot's role; the player's dorsal and preferred role are unchanged |
| LineUps.Rotated | Tools/line_up.py:66-74 | rotating a complete line-up gives a complete line-up whose every slot is numbered with its own key |
| LineUps.RotatedMovesContent | Tools/line_up.py:68-73 | after `rotate`, slot k carries the cell, player, setting and role of the slot that moves into it (6 into 1, k-1 into k) |
| LineUps.RotatedKeepsOccupants | Tools/line_up.py:66-74 | rotation only renumbers: every player sits in as many slots as before |
| LineUps.RotatedServerWasSix | Tools/line_up.py:68-69 | the new slot 1 (the server) holds what slot 6 held |
| LineUps.RotatedTimes | Tools/line_up.py:66-74 | any number of rotations keeps the line-up complete |
| LineUps.RotatedTimesAt | Tools/line_up.py:66-74 | after n rotations slot k holds the content of one computed source slot, renumbered k |
| LineUps.SourceAfterStep | Tools/line_up.py:68-69 | each further rotation moves the source of a slot one place back around the cycle |
| LineUps.SixRotationsIdentity | Tools/line_up.py:66-74 | six rotations give back a consistently numbered line-up unchanged |
| LineUps.FivbRotated | Tools/line_up.py:67 | the clockwise rotation of rule 7.6 of the FIVB Official Volleyball Rules, which the comment names, keeps the line-up complete and numbered |
| LineUps.RotatedIsReverseOfFivb | Tools/line_up.py:67-69 | `rotate` turns the opposite way to rule 7.6: a turn by the rule undoes it, and the two pick different servers whenever slots 2 and 6 differ |
| LineUps.PartialRotationDone | Tools/line_up.py:70-74 | the six steps of the loop over `zip(position_numbers, rotated_positions)` build exactly the rotated line-up |
| LineUps.FindHolder | Tools/line_up.py:56-60 | the search returns a slot seating the player, found among the slots from the starting number on, and returns nothing exactly when no such slot seats the player |
| LineUps.LineUp.constructor | Tools/line_up.py:49-50 | a new line-up has no slots |
| LineUps.LineUp.Standard | Tools/line_up.py:77-88 | the standard line-up holds the six standard slots, complete and numbered |
| LineUps.LineUp.Rotate | Tools/line_up.py:66-74 | the slots become the rotated line-up of the old slots, in place |
| LineUps.LineUp.GetPlayerPosition | Tools/line_up.py:56-60 | returns a slot of the line-up seating the player, or None exactly when no slot seats the player |
| LineUps.LineUp.GetPlayerRole | Tools/line_up.py:62-64 | returns the role of the slot holding the player exactly when there is one, None otherwise |
| LineUps.StandardSlots | Tools/line_up.py:81-88 | the standard slots are complete and numbered |
| Rosters.RosterOf | Tools/data.py:61-63 | the roster's keys are exactly the dorsals of the player list |
| Rosters.RosterKeepsLast | Tools/data.py:61-63 | the last player of the list with a given dorsal is the one the roster keeps |
| Rosters.FreshFor | Tools/data.py:70-71 | every listed dorsal gets fresh counters and every other entry is kept |
| Rosters.FreshForPointwise | Tools/data.py:70-71 | a map that agrees with `FreshFor` on every key is `FreshFor`, so any iteration order gives the same result |
| Rosters.OnFieldOf | Tools/game.py:153-154 | a dorsal is on court exactly when some slot of the line-up seats it |
| Rosters.TeamReset | Tools/data.py:65-71 | reset gives fresh team counters and fresh counters for every roster dorsal, and nothing else of the team changes |
| Rosters.WithLineUp | Tools/game.py:148-162 | after taking a line-up the court and the bench are disjoint and together hold the line-up's dorsals and the roster; nothing else changes |
| Rosters.TeamTallied | Agents/actions.py:55-59 | an action's tally succeeds exactly when the player has counters; it adds d to the team's counter and, when asked, to that player's, and changes nothing else |
| Rosters.TalliedUndo | Agents/actions.py:70-83 | tallying -d after +d on the same counter gives the team back |
| Rosters.Swapped | Agents/actions.py:318-321 | a swap succeeds exactly when the player going out is on court and the player coming in is on the bench; the two then exchange court and bench |
| Rosters.SwappedBack | Agents/actions.py:336-341 | swapping back restores court and bench |
| Rosters.SubstitutionMade | Agents/actions.py:310-321 | a substitution succeeds exactly when the swap can be made, and appends the record {out, in, set} to the history |
| Rosters.SubstitutionUndone | Agents/actions.py:332-341 | undoing succeeds exactly when there is history to pop and the swap back can be made, and removes the last record |
| Rosters.SubstitutionBack | Agents/actions.py:306-346 | reset after execute gives back court, bench and history |
| Rosters.HistoryJson | Tools/data.py:81 | the history's JSON list has one record per substitution, in order |
| Rosters.Ints | Tools/data.py:79-80 | a list of dorsals becomes a JSON list of the same integers in the same order |
| Rosters.TeamData.constructor | Tools/data.py:48-63 | a new team has the roster built from the list, fresh counters for every roster dorsal and for the team, empty court, bench, unavailable set and history, and the time-out allowance it is given (see "## Left out") |
| Rosters.TeamData.Reset | Tools/data.py:65-71 | the team becomes `TeamReset` of the old team: fresh counters, nothing else changed |
| Rosters.TeamData.TakeLineUp | Tools/game.py:148-162 | the team takes the line-up and becomes `WithLineUp` of the old team |
| Rosters.TeamData.CreditLastPlayer | Tools/game.py:42-46 | applies the player part of a point; fails exactly where the lookup raises, leaving the team unchanged |
| Rosters.TeamData.CreditScore | Tools/game.py:47-50 | the team's set counter grows by one exactly when its new score is 25, with the `sets` counter `StatisticsTeam` lacks (row 9 of "## Findings") |
| Rosters.TeamData.Tally | Agents/actions.py:55-59 | applies `TeamTallied`; fails exactly where the lookup raises, leaving the team unchanged |
| Rosters.TeamData.Substitute | Agents/actions.py:310-321 | fails exactly where a `remove` raises; on success the team becomes `SubstitutionMade` of the old team |
| Rosters.TeamData.Unsubstitute | Agents/actions.py:332-341 | fails exactly where `pop` or a `remove` raises; on success the team becomes `SubstitutionUndone` of the old team |
| Rosters.TeamData.GetPlayerRole | Tools/data.py:85-93 | returns the role of a roster dorsal, and None (where the source raises) exactly for a dorsal not in the roster |
| Rosters.TeamData.ToJson | Tools/data.py:73-83 | the object has exactly the five keys; `statistics` is the team statistics object's dictionary and `players_statistics` maps every dorsal to its player's dictionary; court and bench become lists holding each member once; the history is listed in full |
| Rosters.TeamStatsJsonShape | Tools/data.py:29-41 | a team's statistics dictionary holds `team_name`, the empty `lineup` and exactly the ten counters `StatisticsTeam` declares, each with its value, and nothing else |
| Rosters.PlayerStatsJsonShape | Tools/data.py:10-21 | a player's statistics dictionary holds exactly the twelve counters `StatisticsPlayer` declares, each with its value, and nothing else |
| Rosters.StatNameDistinct | Tools/data.py:10-41 | each counter's attribute name names that counter alone, and is neither `team_name` nor `lineup` |
| Rosters.ListOf | Tools/data.py:79-80 | `list(s)` holds every member of the set exactly once and nothing else |
| Fields.IsValidGrid | Tools/field.py:190-192 | a coordinate is valid exactly when it indexes a cell of the grid |
| Fields.SetCell | Tools/field.py:99-103 | writing one cell changes that cell and no other |
| Fields.FreshGridNet | Tools/field.py:66-74 | in a new grid exactly the cells of row 9 are net, and no cell holds a ball, a player or a label |
| Fields.IntDistanceMetric | Tools/field.py:200-204 | `int_distance` is symmetric, is 0 exactly on equal cells, and obeys the triangle inequality |
| Fields.ContiguousIffDistanceOne | Tools/field.py:34-37 | two cells are contiguous exactly when their `int_distance` is 1 |
| Fields.CrossesNetMeansSideChange | Tools/field.py:137-140 | the net-crossing test holds exactly when the ball goes from one side (or the net row) to the other side |
| Fields.PlayerMovedCells | Tools/field.py:168-188 | an occupied destination blocks the move; otherwise the destination takes the player, label and number, the source is emptied, and no ball flag and no other cell changes |
| Fields.PlayerMovedBack | Tools/field.py:168-188 | moving a player there and back restores the grid, except that the emptied destination keeps label "" and number 0 |
| Fields.GridExt | Tools/field.py:69-71 | two grids that agree on every cell are equal |
| Fields.SweptGrid | Tools/field.py:86-94 | a sweep applies the same cell update to every cell of the grid |
| Fields.RotatedOnCourt | Tools/field.py:147-149 | rotating a line-up keeps all its cells on the court |
| Fields.SeatedKeepsBalls | Tools/field.py:97-112 | seating a line-up never clears a ball flag |
| Fields.SeatedElsewhere | Tools/field.py:97-112 | seating changes only the cells the slots name |
| Fields.LastSlotAt | Tools/field.py:97-112 | finds the last slot that names a cell, or reports that no slot names it |
| Fields.SeatedCell | Tools/field.py:97-112 | after seating, a cell some slot names holds the player, label and number of the last such slot and keeps its net flag; a cell no slot names is unchanged |
| Fields.SeatedBall | Tools/field.py:98-99 | when the team serves, slot 1's cell holds the ball after the whole line-up is seated |
| Fields.SeatedBallStays | Tools/field.py:97-112 | a ball present after slot 1 is seated survives the later slots |
| Fields.FirstInRow | Tools/field.py:121-123 | the scan of a row returns the first matching column, or None exactly when no later cell matches |
| Fields.FirstFrom | Tools/field.py:120-124 | the scan from a row on returns a matching cell in those rows |
| Fields.FirstWhere | Tools/field.py:206-220 | a cell the scan returns is on the court and matches the probe |
| Fields.FirstFromSpec | Tools/field.py:120-124 | the scan from a row returns a match with no earlier match, or reports that none of those rows matches |
| Fields.FirstWhereSpec | Tools/field.py:206-220 | the scan returns the first match in row-major order, or None exactly when no cell matches |
| Fields.FirstWhereUnique | Tools/field.py:206-220 | a matching cell with no match before it is the one the scan returns |
| Fields.BallSetKeepsScan | Tools/game.py:164-166 | putting the ball on the cell a player or position scan found leaves that scan's answer as it was |
| Fields.Field.constructor | Tools/field.py:66-74 | a new field is the fresh 19x9 grid whose row 9 is net |
| Fields.Field.Reset | Tools/field.py:76-81 | reset makes the grid fresh again |
| Fields.Field.ConfLineUps | Tools/field.py:83-112 | the grid becomes both line-ups placed on a cleared court, with the ball on the server's slot 1 |
| Fields.Field.RotatePlayers | Tools/field.py:147-166 | the team's line-up is rotated in place, the team's cells are cleared, and the rotated slots are re-seated with the ball on slot 1 |
| Fields.Field.SweepAll | Tools/field.py:86-94 | one nested clearing loop applies its cell update to every cell |
| Fields.Field.SeatLineUp | Tools/field.py:97-103 | one seating loop seats every slot of the line-up |
| Fields.Field.FindPlayerInPosition | Tools/field.py:114-124 | returns the first cell of the team with that rotation number, or None |
| Fields.Field.FindPlayer | Tools/field.py:206-213 | returns the first cell with that dorsal for the team; None where the source raises |
| Fields.Field.FindBall | Tools/field.py:215-220 | returns the first cell with the ball; None where the source raises |
| Fields.Field.Scan | Tools/field.py:207-210 | the nested row-major loop returns the first matching cell |
| Fields.Field.MoveBall | Tools/field.py:126-145 | fails, leaving the grid unchanged, exactly when the source has no ball; otherwise the ball moves and the result says whether it crossed the net |
| Fields.Field.MovePlayer | Tools/field.py:168-188 | fails, leaving the grid unchanged, exactly when the source is empty; otherwise the grid is the one with the player moved |
| Fields.BuildGrid | Tools/field.py:69-74 | the comprehension and the net loop build the fresh grid |
| Games.WithTeam | Tools/game.py:21-22 | replacing one team's data leaves the other team's as it was |
| Games.WithScore | Tools/game.py:23-24 | setting one team's score leaves the other team's score as it was |
| Games.SetEnded | Tools/game.py:100-124 | ending a set keeps the game playable, both teams' data, the history, possession and touches |
| Games.Awarded | Tools/game.py:40-66 | corrected for the missing `sets` counter (row 9 of "## Findings"): the scorer gets possession; the step fails exactly where the counter lookup raises; on success the scorer's score grows by one, the other's stays, and the record {team, new score, set} is appended to the history; the server, set and line-ups are untouched |
| Games.RotateTeam | Tools/game.py:72-75 | rotating one team's players rotates that team's line-up and changes nothing but the teams and the grid |
| Games.SideOut | Tools/game.py:68-81 | the scorer serves afterwards; the scorer's line-up rotates exactly when it was not serving; the other line-up, the scores, the set, the history and possession stay; the touches and the last team touched are cleared |
| Games.PointScored | Tools/game.py:39-90 | a point keeps the game playable; it runs the corrected `Awarded`, so it completes at a new score of 25 |
| Games.PointReverted | Tools/game.py:231-237 | reverting a point lowers only that team's score, by one |
| Games.RallyStarted | Tools/game.py:248-254 | a new rally has no touches for either team, no last team, possession with the server and the rally open; the board and the rest stay |
| Games.TimeOutRegistered | Tools/game.py:347-351 | calling a time-out takes one from that team and leaves the other team alone |
| Games.TimeOutReverted | Tools/game.py:353-357 | reverting a time-out gives one back to that team and leaves the other team alone |
| Games.DeterminePointWinner | Tools/game.py:259-270 | the winner is never the faulting team; without a fault it is the last team to touch, or the team that did not serve when nobody touched |
| Games.ClosestFromSpec | Tools/game.py:276-288 | the scan raises exactly when a listed player has no cell; otherwise it returns a listed player (none for an empty list) than whom no listed player is strictly closer to the ball |
| Games.GameReset | Tools/game.py:132-146 | reset keeps the game playable |
| Games.LineUpsConfigured | Tools/game.py:148-162 | both teams take their line-ups, with the line-up's dorsals on court and the rest of the roster on the bench |
| Games.ScorePointEffects | Tools/game.py:39-81 | with the corrected `Awarded`, a point raises exactly when the last toucher is on the scorer's court without counters; otherwise it is appended to the history, the scorer has the ball and the touches are cleared |
| Games.SideOutKeepsRally | Tools/game.py:68-81 | a side-out sets neither the rally flag nor the rally counter |
| Games.PointKeepsRally | Tools/game.py:39-90 | `score_point` sets neither the rally flag (`rally_over`) nor the rally counter (`instance`) |
| Games.AwardedKeepsRosters | Tools/game.py:40-66 | awarding a point keeps both rosters and their dorsals with counters |
| Games.SideOutKeepsRosters | Tools/game.py:68-81 | a side-out keeps both rosters and their dorsals with counters |
| Games.ScoringKeepsRosters | Tools/game.py:39-90 | `score_point` neither adds nor removes a dorsal from either roster or counter table |
| Games.ScorePointWithinSet | Tools/game.py:47-70 | a point that does not end the set adds one to the scorer only; the scorer serves and the set number stays |
| Games.ScorePointRotation | Tools/game.py:68-75 | the scorer's line-up rotates exactly when the scorer was not serving; the other line-up never moves |
| Games.SetGoesToLeader | Tools/game.py:92-109 | a finished set goes to the leader, who has at least 25 and leads by two; the winner gets one set more, the loser none, both scores restart and the set number grows |
| Games.MatchEndsAtThreeSets | Tools/game.py:111-112 | the match ends exactly when the set just won is the winner's third; then the server and the court stay as they were |
| Games.ServerAlternates | Tools/game.py:115-118 | the first server alternates between the teams from set to set, and set 5 follows the coin |
| Games.NewSetServer | Tools/game.py:113-124 | a new set re-seats both line-ups on a rebuilt court, with the server chosen by set number and the ball given to the team that does not serve, as written |
| Games.ScoreThenRevert | Tools/game.py:231-237 | reverting a point restores both scores within a set, but the history keeps the point and the serve and rotation stay with the scorer, so the two are not inverses |
| Games.TimeOutRoundTrip | Tools/game.py:347-357 | `revert_timeout` undoes `register_time_out` exactly |
| Games.TimeOutAllowance | Tools/game.py:344-351 | a time-out may be called while one is left; calling it never leaves a negative count, and it uses the last one exactly when one was left |
| Games.OpponentInvolution | Tools/game.py:293-295 | `get_opponent_team` undoes itself |
| Games.GetTeamSetsAsWrittenWrong | Tools/game.py:359-360 | whenever the set counts differ, `get_team_sets` as written reports T2's count wrongly |
| Games.AwardedAsWritten | Tools/game.py:40-66 | `score_point` as written raises exactly where the corrected credit fails or the new score is 25, where `sets` is missing. In the second case the score and possession have changed and no history record is appended; elsewhere it agrees with `Awarded` |
| Games.AwardedAsWrittenNeverReaches25 | Tools/game.py:47-63 | as written, no completed point takes a score from below 25 to 25 or more, and a team at 24 never scores |
| Games.AwardedCreditsSet | Tools/game.py:47-63 | corrected, a team at 24 whose last toucher can be credited scores its 25th point, and its set counter rises by one |
| Games.ResetRestarts | Tools/game.py:132-146 | after reset the game is at its start: rally counter 0, set 1, fresh team counters, not finished; the history and the general touch count survive, as written |
| Games.ConfiguredBall | Tools/game.py:148-168 | `conf_line_ups` raises exactly when the server's number 1 is nowhere on the court; otherwise the ball lies on the cell where it is found |
| Games.ConfiguredReady | Tools/game.py:148-162 | complete line-ups on the court give a playable game |
| Games.Game.constructor | Tools/game.py:15-37 | a new game has a fresh field, no points, set 1, T2 serving and holding the ball, an empty history and rally counter 0 |
| Games.Game.ScorePoint | Tools/game.py:39-90 | the game becomes `PointScored` of the old game, in place; it fails exactly where the corrected `score_point` raises |
| Games.Game.AwardPoint | Tools/game.py:40-66 | the game becomes `Awarded` of the old game, the corrected credit of a point |
| Games.Game.SideOutTo | Tools/game.py:68-81 | the game becomes `SideOut` of the old game |
| Games.Game.TakeServe | Tools/game.py:69-75 | the scorer takes the serve and its players rotate on the field |
| Games.Game.EndSet | Tools/game.py:100-124 | the game becomes `SetEnded` of the old game |
| Games.Game.Reset | Tools/game.py:132-146 | the game becomes `GameReset` of the old game |
| Games.Game.ConfLineUps | Tools/game.py:148-168 | the teams take the two line-ups and the game becomes `LineUpsConfigured` of the old game; it fails exactly where the source raises |
| Games.Game.StartRally | Tools/game.py:248-254 | the game becomes `RallyStarted` of the old game |
| Games.Game.RevertPoint | Tools/game.py:231-237 | the game becomes `PointReverted` of the old game |
| Games.Game.RegisterTimeOut | Tools/game.py:347-351 | the game becomes `TimeOutRegistered` of the old game |
| Games.Game.RevertTimeout | Tools/game.py:353-357 | the game becomes `TimeOutReverted` of the old game |
| Games.Game.GetClosestPlayerToBall | Tools/game.py:276-288 | the loop computes the closest-player scan of `ClosestFromSpec` |
| Actions.Tallied | Agents/actions.py:55-59 | an action's counter update succeeds exactly when the player has counters; it keeps the game playable, the board, the history, the grid and both rosters |
| Actions.Rated | Agents/actions.py:51-63 | a rated action caches itself with its draw's outcome, keeps board, history and grid, uses exactly one draw when it completes, and completes exactly when the player has counters and a roster entry |
| Actions.ScoredOnFailure | Agents/actions.py:65-68 | the point for a failure keeps the game playable and the cached action and draws |
| Actions.Served | Agents/actions.py:91-108 | a completed serve succeeds without using a draw |
| Actions.SetExecuted | Agents/actions.py:166-173 | a completed set succeeds (the draw is against 1679/100, above every draw) |
| Actions.Attacked | Agents/actions.py:190-218 | an attack keeps the game playable and caches itself |
| Actions.Moved | Agents/actions.py:281-282 | a move changes the grid only |
| Actions.Substituted | Agents/actions.py:306-326 | a substitution keeps the game playable |
| Actions.Execute | Agents/actions.py:38-39 | `execute` of any action keeps the game playable and caches that action |
| Actions.Untallied | Agents/actions.py:74-78 | the counter part of a reset keeps the board and the history |
| Actions.UndoneRated | Agents/actions.py:70-83 | the reset of Receive, Dig and Serve keeps the game playable |
| Actions.UndoneAttack | Agents/actions.py:220-236 | the reset of an attack keeps the game playable |
| Actions.UndoneMove | Agents/actions.py:284-285 | the reset of a move changes the grid only |
| Actions.UndoneSubstitution | Agents/actions.py:328-346 | the reset of a substitution keeps the game playable |
| Actions.Undone | Agents/actions.py:42-43 | `reset` of any executed action keeps the game playable |
| Actions.Scored | Agents/actions.py:409 | a trigger's point keeps the game playable and the stack |
| Actions.Dispatched | Agents/actions.py:384-403 | `dispatch` keeps the game playable |
| Actions.Continued | Agents/actions.py:385-403 | the rest of `dispatch` keeps the game playable |
| Actions.Next | Agents/actions.py:405-477 | the action a trigger dispatches is strictly closer to the end of the chain, and the world it starts from keeps the stack and the draws |
| Actions.Finished | Agents/actions.py:405-477 | a trigger that dispatches nothing keeps the game playable and the stack |
| Actions.Triggered | Agents/actions.py:405-477 | every trigger keeps the game playable |
| Actions.Popped | Agents/actions.py:479-483 | `Dispatch.reset` pops exactly the last action, keeps the draws, and does nothing on an empty stack |
| Actions.NextFollows | Agents/actions.py:405-477 | every action a trigger dispatches is the one the chain names: a serve is received by the opponent, a receive or dig is set by the same team, a set is attacked, an attack is blocked by the opponent |
| Actions.FinishedEnds | Agents/actions.py:405-477 | a trigger that dispatches nothing leaves the stack; when it completes, the action ends the chain and a point it gives is the last point of the history |
| Actions.DispatchChain | Agents/actions.py:384-477 | `dispatch(a)` puts a on top of the stack it found, what it pushes forms the trigger chain, and on completion the last action ends the chain |
| Actions.ContinuedChain | Agents/actions.py:385-403 | the rest of `dispatch` puts the executed action on top of the stack and keeps the chain law |
| Actions.TriggerChain | Agents/actions.py:405-477 | a trigger keeps the stack below it and extends the chain from the action on top |
| Actions.FinishedChain | Agents/actions.py:405-477 | a trigger that dispatches nothing ends the chain at the top action |
| Actions.NextChain | Agents/actions.py:405-477 | a trigger that dispatches an action continues the chain with that action's own chain |
| Actions.TalliedKeepsRally | Agents/actions.py:55-59 | a counter update sets neither the rally flag nor the rally counter |
| Actions.RatedKeepsRally | Agents/actions.py:51-63 | a rated action sets neither the rally flag nor the rally counter |
| Actions.ScoredOnFailureKeepsRally | Agents/actions.py:65-68 | the point of a failure sets neither the rally flag nor the rally counter |
| Actions.AttackedKeepsRally | Agents/actions.py:190-218 | an attack sets neither the rally flag nor the rally counter |
| Actions.ExecuteKeepsRally | Agents/actions.py:38-39 | the `execute` of any action sets neither the rally flag (`rally_over`) nor the rally counter |
| Actions.DispatchKeepsRally | Agents/actions.py:384-403 | nor does a `dispatch`, through all the triggers it runs |
| Actions.TriggerKeepsRally | Agents/actions.py:405-477 | nor does a trigger |
| Actions.TalliedBack | Agents/actions.py:74-78 | taking a counter back by the same amount gives the match state back |
| Actions.RatedBack | Agents/actions.py:70-78 | the counter part of a rated action's reset takes back exactly what its execute added |
| Actions.ExecuteThenReset | Agents/actions.py:38-43 | for Serve, Block, Timeout, the Nothing actions, a Receive or Dig that succeeds, and Set under the corrected reset, reset after a completed execute gives back exactly the state before |
| Actions.PointFrom | Tools/game.py:39-90 | a point scored away from a set point on a state differing only in counters adds one to the scorer, appends the record and keeps the rosters |
| Actions.PointFromRecord | Tools/game.py:51-66 | the record part of `PointFrom` |
| Actions.PointFromScores | Tools/game.py:47-60 | the score part of `PointFrom` |
| Actions.FailedRatedReverts | Agents/actions.py:65-83 | a failed rated action gives the opponent a point, and its reset takes the counter and the score back |
| Actions.RevertedAfterFailure | Agents/actions.py:80-83 | the reset of a failed Receive, Dig or Serve lowers the counter and the opponent's score |
| Actions.FailedActionRevertsScore | Agents/actions.py:131-158 | a failed Receive or Dig gives the opponent a point; its reset restores both scores, but the history keeps the record |
| Actions.RatedKeepsRosters | Agents/actions.py:51-63 | a rated action changes counters only: both rosters and their dorsals with counters stay |
| Actions.AttackedPoint | Agents/actions.py:200-218 | an attack gives its point to the blockers when blocked, to the attackers when it goes through, and to the opponent when it fails |
| Actions.AttackedFacts | Agents/actions.py:220-236 | the dorsals an attack's reset looks up have counters, and reverting its point restores both scores |
| Actions.UndoneAttackScores | Agents/actions.py:220-236 | the attack's reset lowers its counters, resets the block first, and takes back the point of the team it reverts |
| Actions.AttackedReset | Agents/actions.py:190-236 | an attack's reset after its execute restores both scores; the history keeps the point |
| Actions.AttackRevertsItsPoint | Agents/actions.py:201-236 | an attack gives the point to the very team its reset reverts, whether it failed, was blocked or went through; away from a set point the reset gives both scores back |
| Actions.MoveThenReset | Agents/actions.py:281-285 | a move's reset gives back the grid, except that a destination that was empty keeps no team label or rotation number |
| Actions.SubstitutedBack | Agents/actions.py:306-346 | the pieces of `SubstitutionThenReset`, on the substitution functions |
| Actions.SubstitutionThenReset | Agents/actions.py:306-346 | a substitution's reset gives back court, bench, history and the other team; and the whole state when the line-up and field updates undo themselves |
| Actions.BlockDispatched | Agents/actions.py:456-465 | dispatching a block runs it, pushes it and lets its trigger score |
| Actions.BlockPointKept | Agents/actions.py:479-483 | resetting a block whose trigger scored takes its counters back but keeps the point |
| Actions.PoppedBlock | Agents/actions.py:479-483 | resetting a block on top of the stack pops it and changes counters only |
| Actions.TriggerPointOutlivesReset | Agents/actions.py:456-483 | a block's trigger point is outside every reset: one reset after dispatching a block pops the block and takes its counter back, while the point, its record and the serve stay |
| Actions.ReceivedAsWritten | Agents/actions.py:51-68 | the receive as written keeps the game playable and caches itself |
| Actions.ReceiveAsWrittenRewardsFault | Agents/actions.py:65-68 | as written, a failed receive by T1 gives the point to T1 itself |
| Actions.ReceiveRewardsOpponent | Agents/actions.py:65-68 | the corrected receive gives the point of a failure to the other team |
| Actions.SetUndoneAsWritten | Agents/actions.py:175-180 | `Set.reset` as written changes only counters |
| Actions.SetResetAsWrittenKeepsSetsWon | Agents/actions.py:166-180 | as written, `Set.reset` does not undo `Set.execute`: the team's `sets_won` stays one up |
| Dispatching.PoppedTo | Simulator/simulator.py:224-226 | popping down to n keeps the game playable and the draws; it fails whenever the stack is shorter than n, and leaves exactly n actions when it returns |
| Dispatching.PoppedToCuts | Simulator/simulator.py:251-253 | when popping down to n returns, the stack is its own first n entries |
| Dispatching.Dispatch.constructor | Agents/actions.py:380-382 | a new dispatcher drives the given game with an empty stack |
| Dispatching.Dispatch.TallyTeam | Agents/actions.py:55-59 | the game becomes `Tallied` of the old game; fails exactly where the lookup raises |
| Dispatching.Dispatch.RunRated | Agents/actions.py:51-63 | the game becomes `Rated` of the old game, with the draws it used |
| Dispatching.Dispatch.Score | Tools/game.py:39-90 | the game becomes `PointScored` of the old game, with the corrected credit of a point |
| Dispatching.Dispatch.RunReceive | Agents/actions.py:51-68 | a receive or dig runs the rated part and gives the opponent the point of a failure |
| Dispatching.Dispatch.RunServe | Agents/actions.py:91-108 | the game becomes `Served` of the old game |
| Dispatching.Dispatch.RunSet | Agents/actions.py:166-173 | the game becomes `SetExecuted` of the old game |
| Dispatching.Dispatch.RunAttack | Agents/actions.py:190-218 | the game becomes `Attacked` of the old game |
| Dispatching.Dispatch.RunMove | Agents/actions.py:281-282 | the game becomes `Moved` of the old game |
| Dispatching.Dispatch.RunSubstitution | Agents/actions.py:306-326 | on success the game becomes `Substituted` of the old game |
| Dispatching.Dispatch.RunTimeout | Agents/actions.py:354-356 | the game becomes the timeout's `Execute` of the old game |
| Dispatching.Dispatch.Run | Agents/actions.py:38-39 | `execute` of any action: the game becomes `Execute` of the old game and the stack stays |
| Dispatching.Dispatch.UndoRated | Agents/actions.py:70-83 | the game becomes `UndoneRated` of the old game |
| Dispatching.Dispatch.UndoTally | Agents/actions.py:175-180 | the game becomes `Untallied` of the old game |
| Dispatching.Dispatch.UndoAttack | Agents/actions.py:220-236 | the game becomes `UndoneAttack` of the old game |
| Dispatching.Dispatch.UndoMove | Agents/actions.py:284-285 | the game becomes `UndoneMove` of the old game |
| Dispatching.Dispatch.UndoSubstitution | Agents/actions.py:328-346 | on success the game becomes `UndoneSubstitution` of the old game |
| Dispatching.Dispatch.Undo | Agents/actions.py:42-43 | `reset` of any executed action: the game becomes `Undone` of the old game |
| Dispatching.Dispatch.Reset | Agents/actions.py:479-483 | the dispatcher becomes `Popped` of the old one: the last action popped and reset, nothing on an empty stack |
| Dispatching.Dispatch.DispatchAction | Agents/actions.py:384-403 | the dispatcher becomes `Dispatched` of the old one |
| Dispatching.Dispatch.Finish | Agents/actions.py:405-477 | the dispatcher becomes `Finished` of the old one |
| Dispatching.Dispatch.Chain | Agents/actions.py:405-477 | a trigger that dispatches the next action leaves the dispatcher as `Triggered` of the old one |
| Dispatching.Dispatch.TriggerServe | Agents/actions.py:405-417 | `serve_trigger` after a successful serve leaves the dispatcher as `Triggered` of the old one |
| Dispatching.Dispatch.Trigger | Agents/actions.py:405-477 | every trigger leaves the dispatcher as `Triggered` of the old one |
| Dispatching.Dispatch.PopTo | Simulator/simulator.py:224-226 | the reset loop leaves the dispatcher as `PoppedTo` of the old one |
| ManagerActions.SubstitutionsFor | Agents/manager_action_strategy.py:34-53 | the inner loop raises exactly when some bench player forms a non-skipped pair with an unknown dorsal; otherwise it offers exactly the substitutions by eligible bench players: same position, and the court player did not come on in place of that bench player |
| ManagerActions.SubstitutionsFrom | Agents/manager_action_strategy.py:30-53 | the outer loop raises exactly when some court and bench pair raises; otherwise it offers exactly the substitutions of eligible pairs, skipping a bench player whom the court player replaced |
| ManagerActions.CourtPlayers | Agents/manager_action_strategy.py:30-31 | one dorsal per line-up key, in iteration order |
| ManagerActions.SubstitutionsCapped | Agents/manager_action_strategy.py:25-27 | once two substitutions are in the history, no substitution is offered |
| ManagerActions.SubstitutionsOffered | Agents/manager_action_strategy.py:30-55 | below the cap, a substitution is offered exactly when it swaps a line-up player for a bench player of the same position, unless a record `(in, out)` of the history shows the line-up player came on in place of that bench player; the generator raises exactly when a non-skipped pair names an unknown dorsal |
| ManagerActions.SubstitutionsAsWrittenRaise | Agents/manager_action_strategy.py:36-40 | with one substitution made and known dorsals, the generator as written raises (it indexes a dictionary entry by 0 and 1), while the corrected one offers a list |
| ManagerActions.PossibleActionsShape | Agents/manager_action_strategy.py:58-71 | the list of manager actions is never empty, ends in doing nothing, holds a time-out exactly when the team can call one, and everything else in it is a substitution |
| ManagerActions.TrailRun | Agents/manager_action_strategy.py:193-202 | a trailing run is never longer than the history |
| ManagerActions.TrailRunIs | Agents/manager_action_strategy.py:193-202 | n is the trailing run of a team when the last n points are that team's and the one before them is not |
| ManagerActions.TrailRunMeans | Agents/manager_action_strategy.py:193-202 | the trailing run is made of the team's points, and the point before it (if any) is not the team's |
| ManagerActions.ContinuesPointsCases | Agents/manager_action_strategy.py:189-204 | on an empty history both runs are 0; when the last point is the team's the first run is positive; otherwise the first is 0 and the second is the opponent's positive trailing run |
| ManagerActions.ContinuesPointsRuns | Agents/manager_action_strategy.py:189-204 | the first run covers the team's last points, the second the opponent's points before them, and the point before both (if any) is the team's |
| ManagerActions.Reversed | Agents/manager_action_strategy.py:192 | `reverse` puts the list in the other order |
| ManagerActions.ReversedTwice | Agents/manager_action_strategy.py:192-203 | reversing twice gives the history back |
| ManagerActions.GetContinuesPoints | Agents/manager_action_strategy.py:189-204 | the game is left exactly as it was, and the two counts are the two runs of `ContinuesPoints` |
| ManagerActions.CountRuns | Agents/manager_action_strategy.py:193-202 | the loop over the reversed history counts exactly the two runs |
| ManagerActions.RunsCountedReversed | Agents/manager_action_strategy.py:193-202 | counts that match the loop's exit conditions on the reversed history are the two runs |
| ManagerActions.RunsCounted | Agents/manager_action_strategy.py:193-202 | two counts that cover the team's last points, then the opponent's, and stop at a change of team are the two runs |
| Minimax.Larger | Agents/manager_action_strategy.py:256 | `max(a, b)` is one of the two and below neither |
| Minimax.Smaller | Agents/manager_action_strategy.py:295 | `min(a, b)` is one of the two and above neither |
| Minimax.RolledBack | Agents/manager_action_strategy.py:252-254 | the rollback after a child keeps the game playable |
| Minimax.Maximized | Agents/manager_action_strategy.py:224-260 | `maximize` gives the stack back when it completes, evaluates at depth 0 or at the end of the match, and its best action is one of the team's possible actions |
| Minimax.MaxFrom | Agents/manager_action_strategy.py:242-258 | the loop gives the stack back, picks its best action among the listed ones, and never returns less than the maximum so far |
| Minimax.Answered | Agents/manager_action_strategy.py:244-246 | a child completes only after a completed dispatch, and gives its stack back |
| Minimax.Minimized | Agents/manager_action_strategy.py:262-299 | `minimize` gives the stack back when it completes, evaluates at depth 0 or at the end of the match, and its best action is one of the opponent's possible actions |
| Minimax.MinFrom | Agents/manager_action_strategy.py:281-297 | the loop gives the stack back, picks its best action among the listed ones, and never returns more than the minimum so far |
| Minimax.RollbackRestores | Agents/manager_action_strategy.py:252-254 | rolling back to the recorded length from a stack that extends it gives the recorded stack back |
| Minimax.DispatchExtends | Agents/actions.py:384-386 | a dispatch only pushes: the old stack is a strict prefix of the new one |
| Minimax.Maximize | Agents/manager_action_strategy.py:224-260 | `maximize` on the dispatcher ends where `Maximized` ends and returns its value and best action |
| Minimax.MaximizedCases | Agents/manager_action_strategy.py:232-242 | past the leaf cases, `maximize` raises when listing raises, evaluates when there are no actions, and otherwise runs its loop |
| Minimax.MaxActions | Agents/manager_action_strategy.py:238-260 | `maximize` past its leaf cases matches `Maximized` |
| Minimax.MaxList | Agents/manager_action_strategy.py:242-260 | `maximize` over a non-empty list matches `Maximized` |
| Minimax.MaxLoop | Agents/manager_action_strategy.py:242-258 | the `for action in actions` loop of `maximize` matches `MaxFrom` from the first action |
| Minimax.MaxFromNext | Agents/manager_action_strategy.py:242-258 | one pass of `maximize`'s loop: dispatch, answer, keep a strictly better value, roll back, raise alpha, stop once beta <= alpha |
| Minimax.MaxStep | Agents/manager_action_strategy.py:243-258 | one pass of `maximize`'s loop on the dispatcher matches `MaxFrom` |
| Minimax.Minimize | Agents/manager_action_strategy.py:262-299 | `minimize` on the dispatcher ends where `Minimized` ends and returns its value and best action |
| Minimax.MinimizedCases | Agents/manager_action_strategy.py:270-281 | past the leaf cases, `minimize` raises when listing raises, evaluates when there are no actions, and otherwise runs its loop |
| Minimax.MinActions | Agents/manager_action_strategy.py:276-299 | `minimize` past its leaf cases matches `Minimized` |
| Minimax.MinList | Agents/manager_action_strategy.py:281-299 | `minimize` over a non-empty list matches `Minimized` |
| Minimax.MinLoop | Agents/manager_action_strategy.py:281-297 | the loop of `minimize` matches `MinFrom` from the first action |
| Minimax.MinFromNext | Agents/manager_action_strategy.py:281-297 | one pass of `minimize`'s loop: dispatch, answer, keep a strictly smaller value, roll back, lower beta, stop once beta <= alpha |
| Minimax.MinStep | Agents/manager_action_strategy.py:282-297 | one pass of `minimize`'s loop on the dispatcher matches `MinFrom` |
| Minimax.Child | Agents/manager_action_strategy.py:243-254 | one child on the dispatcher: record the length, dispatch, answer and roll back, as `Answered` and `RolledBack` say |
| Minimax.Reply | Agents/manager_action_strategy.py:246-254 | the rest of a child after its dispatch matches `Answered` and the rollback |
| Minimax.AnsweredReplies | Agents/manager_action_strategy.py:246 | a completed dispatch is answered by the other side's search one level down |
| Minimax.Rewound | Agents/manager_action_strategy.py:246-254 | searching the reply and then rolling back matches the search function and `RolledBack` |
| Minimax.Unwind | Agents/manager_action_strategy.py:252-254 | one reset, then resets until the stack is back to n, as `RolledBack` says |
| PlayerAgents.RowMajorFrom | Tools/field.py:222-230 | the k-th cell on of the scan has row (k+j) div 9 and column (k+j) mod 9, and the scan has 171 - k cells |
| PlayerAgents.AllCellsOnCourt | Tools/field.py:222-230 | the row-by-row scan of the grid holds every cell of the 19 by 9 court and nothing else |
| PlayerAgents.Within | Tools/field.py:222-230 | the cells kept are exactly those of the scan whose Euclidean distance from the centre is at most the radius |
| PlayerAgents.CourtSpan | Tools/field.py:194-198 | two cells of the court are at most 18 rows and 8 columns apart, so their squared distance is at most 388 |
| PlayerAgents.VisibleIsAll | Agents/player_agent.py:36-39 | with radius 100 a player on the court sees every cell of the court, in scan order |
| PlayerAgents.WithinKeepsAll | Tools/field.py:222-230 | filtering cells of the court by radius 100 around a cell of the court keeps all of them, in order |
| PlayerAgents.Perceptions | Agents/player_agent.py:36-39 | the perception fails exactly when the player is not found on the grid; otherwise its own cell is on the court and holds that dorsal |
| PlayerAgents.PerceivedOnCourt | Agents/player_agent.py:36-39 | the cells a player perceives are exactly the cells of the court |
| PlayerAgents.EmptyAdjacent | Agents/player_agent.py:41-47 | a visible cell is yielded exactly when it is next to the player's cell and holds no player |
| PlayerAgents.FriendlyGrids | Agents/player_agent.py:49-54 | a visible cell is yielded exactly when it is labelled with the player's team |
| PlayerAgents.MovesTo | Agents/player_agent.py:79-85 | one move per destination, in order, each from the player's cell, by that player |
| PlayerAgents.ConstructActions | Agents/player_agent.py:56-102 | the list starts with doing nothing and every action in it is by the given player of the given team |
| PlayerAgents.PlayerActions | Agents/player_agent.py:36-39 | actions are listed only for a player that is found on the grid |
| PlayerAgents.ServeOffered | Agents/player_agent.py:66-67 | a serve is offered exactly to the server of the serving team, and then the list is doing nothing and the serve |
| PlayerAgents.DigOffered | Agents/player_agent.py:68-72 | past the serve, a dig is offered exactly when the ball is on the player's side and coming to the player, and then nothing else is |
| PlayerAgents.StrikesNeedTouches | Agents/player_agent.py:73-77 | a set is offered exactly when an attack is, and exactly when the ball is on the player's side, not coming to the player, and the team has made fewer than three touches |
| PlayerAgents.DefenceOffered | Agents/player_agent.py:86-91 | a block is offered exactly when a receive is, and exactly when the ball is on the other side and the opponent is attacking |
| PlayerAgents.MovesOffered | Agents/player_agent.py:78-100 | every move goes from the player's cell to a visible, empty, adjacent cell, and where moves are offered every such cell gets one |
| PlayerAgents.AsWrittenRaisesWithoutBall | Agents/player_agent.py:86-88 | as written, a player on the side without the ball never gets a list, because the team is not passed to is_opponent_attacking; with the team passed the list always exists and holds a block and a receive against an attack |
| LineUpBuilder.WithPosition | Agents/manager_line_up_strategy.py:17 | the filter keeps each player of the role's position as often as it occurs and drops every other player |
| LineUpBuilder.Inserted | Agents/manager_line_up_strategy.py:18 | one insertion step of the sort adds the player once and loses nobody |
| LineUpBuilder.InsertedBelow | Agents/manager_line_up_strategy.py:18 | inserting a player no better than v into a list no better than v keeps the list no better than v |
| LineUpBuilder.InsertedKeepsOrder | Agents/manager_line_up_strategy.py:18 | inserting into a list ordered best overall first keeps it ordered |
| LineUpBuilder.InsertedTies | Agents/manager_line_up_strategy.py:18 | an inserted player goes after the players of its own overall, so players of equal overall keep their order |
| LineUpBuilder.SortedByOverallOrders | Agents/manager_line_up_strategy.py:18 | the sort by overall with reverse=True leaves the list best overall first |
| LineUpBuilder.SortedByOverallKeeps | Agents/manager_line_up_strategy.py:18 | the sort is a permutation of the list it is given |
| LineUpBuilder.SortedByOverallStable | Agents/manager_line_up_strategy.py:18 | the sort is stable: players of equal overall keep their order |
| LineUpBuilder.SortedByOverallSpec | Agents/manager_line_up_strategy.py:18 | the sort orders best overall first, is a permutation of its input and is stable |
| LineUpBuilder.PlayersByRoleSpec | Agents/manager_line_up_strategy.py:13-19 | players_by_role returns exactly the players of the role's position, each as often as given, best overall first, ties in the order given |
| LineUpBuilder.RolePlayers | Agents/manager_line_up_strategy.py:66 | the map of eligible players has an entry for each of the five roles |
| LineUpBuilder.RolePlayersPositions | Agents/manager_line_up_strategy.py:66 | each role's list holds only players of that role's position |
| LineUpBuilder.FirstFree | Agents/manager_line_up_strategy.py:32-36 | the player chosen for a role is in its list with a dorsal not yet assigned; none is chosen exactly when every dorsal in the list is already assigned |
| LineUpBuilder.Unassigned | Agents/manager_line_up_strategy.py:39 | the remaining players are exactly the players whose dorsal was not assigned to a role |
| LineUpBuilder.Substitutes | Agents/manager_line_up_strategy.py:44 | each remaining player is added as a substitute, in order |
| LineUpBuilder.Room | Agents/manager_line_up_strategy.py:42 | the fill loop never adds more players than remain |
| LineUpBuilder.FilledSpec | Agents/manager_line_up_strategy.py:42-45 | the fill loop adds the first remaining players, in order, as substitutes, until six are in or nobody is left |
| LineUpBuilder.RolesFromGrows | Agents/manager_line_up_strategy.py:30-36 | the role loop only appends, and at most one player per role still to do |
| LineUpBuilder.RolesFromAdded | Agents/manager_line_up_strategy.py:30-36 | each player the role loop adds comes in as one of the roles still to do and has that role's position |
| LineUpBuilder.RolesFromRoles | Agents/manager_line_up_strategy.py:30-36 | given distinct roles, the role loop fills no role twice |
| LineUpBuilder.RolesFromDorsals | Agents/manager_line_up_strategy.py:30-36 | the role loop adds only players whose dorsal was free, never the same dorsal twice, and records each as assigned |
| LineUpBuilder.RoleLineUpSpec | Agents/manager_line_up_strategy.py:26-36 | after the role loop the line-up holds at most five players, each of its role's position, no role twice, no dorsal twice, all recorded as assigned |
| LineUpBuilder.PossibleLineUpSpec | Agents/manager_line_up_strategy.py:22-47 | possible_line_up is the role players followed by the best of the unassigned players as substitutes, up to six, and never holds more than six |
| LineUpBuilder.AddFirstFree | Agents/manager_line_up_strategy.py:32-36 | the inner loop adds the first free eligible player as the role and records the dorsal, or changes nothing when nobody is free |
| LineUpBuilder.RolesFromStep | Agents/manager_line_up_strategy.py:30-36 | one round of the role loop gives the role the first free player of its list, if any, and goes on with the next role |
| LineUpBuilder.AddRolePlayers | Agents/manager_line_up_strategy.py:26-36 | the loop over the five roles ends with the line-up and assigned set the role loop specifies |
| LineUpBuilder.AddSubstitutes | Agents/manager_line_up_strategy.py:39-45 | the while loop ends with the line-up the fill loop specifies |
| LineUpBuilder.BuildLineUp | Agents/manager_line_up_strategy.py:22-47 | the step-by-step possible_line_up returns the line-up PossibleLineUpSpec describes |
| LineUpBuilder.Without | Agents/manager_line_up_strategy.py:69 | removing one element of a list removes exactly that one from its multiset |
| LineUpBuilder.Prefixed | Agents/manager_line_up_strategy.py:69 | each permutation of the rest gets the chosen element in front |
| LineUpBuilder.Permutations | Agents/manager_line_up_strategy.py:69 | every permutation listed is a rearrangement of the five roles |
| LineUpBuilder.PermutationsFrom | Agents/manager_line_up_strategy.py:69 | every permutation listed from the i-th first element on is a rearrangement of the list |
| LineUpBuilder.PermBuild | Agents/manager_line_up_strategy.py:71-85 | a permutation's build adds at most one player per role, and a build marked invalid stays invalid |
| LineUpBuilder.NothingKept | Agents/manager_line_up_strategy.py:87-88 | no build of an order of five roles reaches six players, so none is kept |
| LineUpBuilder.PossibleLineUpsIsSingle | Agents/manager_line_up_strategy.py:50-90 | possible_line_ups always returns the single line-up of possible_line_up |
| LineUpBuilder.BuildPermutation | Agents/manager_line_up_strategy.py:72-85 | the loop over one permutation ends with the build and validity flag PermBuild specifies |
| LineUpBuilder.KeepBuilds | Agents/manager_line_up_strategy.py:71-88 | the loop over the permutations keeps exactly the valid builds of six, in order |
| LineUpBuilder.BuildLineUps | Agents/manager_line_up_strategy.py:50-90 | the step-by-step possible_line_ups returns the list PossibleLineUps specifies |
| LineUpBuilder.BestFromSpec | Agents/manager_line_up_strategy.py:126-129 | the scan of max from the j-th line-up on returns a line-up of greatest total, the first of them |
| LineUpBuilder.BestSpec | Agents/manager_line_up_strategy.py:126-129 | max by total overall returns a line-up of the list with the greatest total, and no earlier line-up has as great a total |
| LineUpBuilder.FixedLineUpIsPossibleLineUp | Agents/manager_line_up_strategy.py:113-130 | the fixed strategy always picks the one line-up possible_line_up builds |
| LineUpBuilder.RoleNamesRaise | Agents/manager_line_up_strategy.py:26-31 | as written, the first players_by_role call raises on every non-empty roster because a role name string has no value; with PlayerRole it returns a sub-multiset of the roster |
| Simulation.WithInstance | Simulator/simulator.py:102 | setting the rally counter changes nothing else of the world and keeps the game playable |
| Simulation.InstanceResetAsWritten | Simulator/simulator.py:158-162 | reset_instance as written keeps the game playable, whether it returns or raises |
| Simulation.InstanceReset | Simulator/simulator.py:158-162 | reset_instance with the rally counter taken back keeps the game playable |
| Simulation.RolledBackCuts | Simulator/simulator.py:159-161 | one reset and then resets down to n return only with n within the stack, and below the stack when it was not empty; they leave the stack's first n entries |
| Simulation.InstanceResetCuts | Simulator/simulator.py:158-162 | reset_instance returns only with a marker no longer than the stack; it cuts the stack back to the marker, pops the marker and takes back one rally |
| Simulation.InstanceResetNeedsAction | Simulator/simulator.py:158-162 | with no action dispatched since the last marker, reset_instance never returns |
| Simulation.UntalliedKeepsInstance | Agents/actions.py:74-78 | taking back a statistics counter never moves the rally counter |
| Simulation.RatedUndoKeepsInstance | Agents/actions.py:70-83 | the reset of Receive, Dig and Serve never moves the rally counter |
| Simulation.AttackUndoKeepsInstance | Agents/actions.py:220-236 | the reset of an attack never moves the rally counter |
| Simulation.SubstitutionUndoKeepsInstance | Agents/actions.py:328-346 | the reset of a substitution never moves the rally counter |
| Simulation.UndoneKeepsInstance | Agents/actions.py:42-43 | the reset of any executed action never moves the rally counter |
| Simulation.RolledBackKeepsInstance | Simulator/simulator.py:159-161 | the resets of reset_instance never move the rally counter |
| Simulation.PoppedToKeepsInstance | Simulator/simulator.py:160-161 | resetting down to a stack length never moves the rally counter |
| Simulation.InstanceResetAsWrittenKeepsInstance | Simulator/simulator.py:158-162 | reset_instance as written never moves the rally counter, whether it returns or raises |
| Simulation.ResetToAsWrittenFails | Simulator/simulator.py:154-156 | as written, the loop of reset_all returns exactly when it starts at its target counter |
| Simulation.ResetTo | Simulator/simulator.py:217-219 | the rewind loop with reset_instance as meant keeps the game playable |
| Simulation.TakenBackTwice | Simulator/simulator.py:154-162 | one rally taken back followed by k - 1 more is k rallies taken back |
| Simulation.ResetToRewinds | Simulator/simulator.py:154-156 | a rewind that returns stops at the target counter having popped the last instance - target markers and cut the stack back to the oldest of them |
| Simulation.ResetToAtTarget | Simulator/simulator.py:155 | at its target the rewind returns at once and takes nothing back |
| Simulation.ResetToStep | Simulator/simulator.py:155-156 | one turn of the rewind is one reset_instance, which takes back one rally when it returns |
| Simulation.Rallied | Simulator/simulator.py:90-95 | the rally loop keeps the game playable and returns only with the rally flag set |
| Simulation.RalliedNeverEnds | Simulator/simulator.py:90-95 | as written, a rally that has begun never ends |
| Simulation.RalliedToPoint | Simulator/simulator.py:90-95 | the rally loop as meant keeps the game playable and returns only once the rally is over |
| Simulation.RalliedToPointExtends | Simulator/simulator.py:90-95 | the rally only pushes onto the dispatch stack, keeps the rally counter, and a rally that was open and ends has pushed something |
| Simulation.ManagerTurn | Simulator/simulator.py:131-141 | one manager's turn keeps the game playable |
| Simulation.ManagersSimulated | Simulator/simulator.py:129-141 | simulate_managers keeps the game playable |
| Simulation.ManagersOncePerMask | Simulator/simulator.py:129-141 | the managers act only when the rally counter is a multiple of the interval, each at most once per mask, both join the mask when they act, and their decisions only push onto the stack |
| Simulation.StartedWorld | Simulator/simulator.py:88 | starting a rally clears the rally flag and keeps the stack, the counter and the points history |
| Simulation.RallyCounted | Simulator/simulator.py:102-105 | counting the rally and letting the managers act keeps the game playable |
| Simulation.RallySimulatedAsWritten | Simulator/simulator.py:84-105 | simulate_rally as written keeps the game playable |
| Simulation.RallySimulatedAsWrittenNeverReturns | Simulator/simulator.py:84-105 | as written, simulate_rally never returns |
| Simulation.RallySimulated | Simulator/simulator.py:84-105 | simulate_rally as meant keeps the game playable |
| Simulation.RallyCountedExtends | Simulator/simulator.py:102-105 | counting the rally keeps the markers and adds one to the counter; the managers only push onto the stack |
| Simulation.RallySimulatedExtends | Simulator/simulator.py:84-105 | simulate_rally pushes its marker; a rally that returns has pushed at least one action and counted one rally |
| Simulation.RallyThenReset | Simulator/simulator.py:84-105 | reset_instance after simulate_rally gives back the stack, the markers and the rally counter the rally found |
| Simulation.Simulator.constructor | Simulator/simulator.py:66-71 | a fresh dispatcher over the game with an empty stack, and no markers |
| Simulation.Simulator.ResetInstance | Simulator/simulator.py:158-162 | the simulator ends where InstanceReset says and fails exactly when it fails; the line-ups are not replaced |
| Simulation.Simulator.RewindTo | Simulator/simulator.py:154-156 | the while loop ends where ResetTo says and fails exactly when it fails |
| Simulation.Simulator.PlayRally | Simulator/simulator.py:90-95 | the rally loop ends where RalliedToPoint says and fails exactly when it fails |
| Simulation.Simulator.ManagerStep | Simulator/simulator.py:131-135 | one manager's turn ends where ManagerTurn says, with the new mask |
| Simulation.Simulator.SimulateManagers | Simulator/simulator.py:129-141 | the managers' turns end where ManagersSimulated says, with the new mask |
| Simulation.Simulator.SimulateRally | Simulator/simulator.py:84-105 | simulate_rally ends where RallySimulated says and fails exactly when it fails |

## Left out

- Simulation: every member assumes that Simulator/simulator.py imports. As written it does not: line 11 imports `HOME` and `AWAY`, which Tools/enum.py does not define, and line 10 imports Agents/manager_action_strategy.py, which fails on `ManagerCelebrate`. The model reads `HOME` as T1 and `AWAY` as T2, as `Game(home, away, …)` makes the home team T1. So Simulation.ManagerTurn, Simulation.ManagersSimulated, Simulation.Simulator.SimulateManagers and the other Simulation members complete where Python raises ImportError on import.
- Stats.PlayerData: the model assumes the rated record that the core reads: `dorsal`, `position`, `role`, `overall`, `receiving`, `p_serve`, `digging`, `attacking` and `blocking`. It is not the class of Tools/player_data.py:4-49. That class is built from a data-frame row with other ratings and has none of these except `dorsal` and `overall`. As written, the reads at Agents/actions.py:62, 101, 139, 198 and 257, Agents/manager_action_strategy.py:45-46, Agents/manager_line_up_strategy.py:17 and Tools/data.py:91 raise AttributeError on it. The rated record is an outside collaborator here.
- LineUps.RatedPlayer.constructor: models the keyword records of the example at Tools/line_up.py:94-105. With the repository's `PlayerData`, those calls raise TypeError, and they run when Tools/line_up.py is imported. Every core module imports it, directly or through the data, field and game modules, so as written each of them fails on import. The model assumes the import succeeds.
- Rosters.TeamData.constructor: takes a time-out allowance `timeOuts`, which `TeamData.__init__` (Tools/data.py:48-63) never assigns. No line of the source assigns `time_outs`, so as written every time-out operation raises AttributeError. The model assumes the caller set the attribute.
- Games.TimeOutRegistered: assumes the team has a `time_outs` count. As written `register_time_out` (Tools/game.py:347-351) raises AttributeError, because that attribute is never assigned.
- Games.TimeOutReverted: assumes a `time_outs` count. As written `revert_timeout` (Tools/game.py:353-357) raises AttributeError.
- Games.TimeOutRoundTrip: holds for the assumed `time_outs` count. As written both halves raise AttributeError.
- Games.TimeOutAllowance: holds for the assumed `time_outs` count. As written `can_call_time_out` (Tools/game.py:344-345) raises AttributeError.
- Games.Game.RegisterTimeOut: assumes a `time_outs` count, which the source never assigns.
- Games.Game.RevertTimeout: assumes a `time_outs` count, which the source never assigns.
- Dispatching.Dispatch.RunTimeout: assumes a `time_outs` count. As written `Timeout.execute` raises AttributeError, both through `register_timeout`, which `Game` does not define, and through the missing attribute.
- ManagerActions.PossibleActionsShape: assumes that Agents/manager_action_strategy.py imports and that the team has a `time_outs` count. As written the module fails to import, since Agents/actions.py defines no `ManagerCelebrate` (line 10). `possible_actions` would also raise in `can_call_time_out`. The model treats `ManagerCelebrate` as defined, and the celebration never reaches the list.
- ManagerActions and Minimax: every member assumes that the module imports, that is, that `ManagerCelebrate` is defined. As written, none of `possible_substitutions`, `possible_actions`, `get_continues_points`, `maximize` or `minimize` can run.
- LineUpBuilder.BuildLineUp: `LineUp` (Tools/line_up.py:48-75) has no `add_player` and no `players`, so as written `possible_line_up` raises AttributeError on every roster. On an empty one it raises at `len(line_up.players)`; on any other one `players_by_role` raises first (row 6 of "## Findings"). The model takes a line-up under construction to be the list of players added to it, each with what it was added as.
- LineUpBuilder.BuildLineUps: `possible_line_ups` assumes the same list form; as written its `add_player` and `len(line_up.players)` raise AttributeError.
- LineUpBuilder.FixedLineUpIsPossibleLineUp: assumes the same list form; as written the total over `lu.players` raises AttributeError.
- Games.Game.constructor: starts `last_fault_team` at None. `Game.__init__` (Tools/game.py:15-37) does not set it; only `reset` (line 146) does. So as written `determine_point_winner` raises AttributeError until the first `reset`.
- `change_serving_team`, which the triggers call and `Game` does not define, is left out. As written each trigger that scores raises AttributeError right after `score_point`. The model goes on, since `score_point` already hands the serve to the scorer.
- Actions.Substituted: where a `remove` raises, the model reports the state from before the action. Python has already appended the history record and may have changed the line-up by then. No caller in the repository catches the exception, so nothing reads that state.
- Fields.SeatedUpTo and LineUps.FindHolder: go through slots 1 to 6 in numeric order. A Python dict goes in insertion order, which after a `rotate` is 2, 1, 6, 5, 4, 3 (Tools/line_up.py:71-73). The result differs only when two slots share a cell or a player.
- Games.Game.GetClosestPlayerToBall: takes the order as any list of dorsals, `Env.order` of the team's on-court set. Python goes through that set itself, so each dorsal comes exactly once; the model does not require this of the order. Its results hold for whatever dorsals are listed.
- LineUps.LineUp.Rotate: requires the slot keys to be exactly 1 to 6. Python raises a KeyError on a line-up without them; that error path is not modelled.
- Fields.Field.RotatePlayers: requires a complete line-up on court cells, for the same reason as `Rotate`.
- Actions.Moved: fails off the court. There the source raises for an index past the grid and wraps a negative one; the player agents only offer moves between court cells.
- Fields.Field.MoveBall: requires both cells on the court. Python indexes rows and columns outside the grid (negative indexes wrap); the callers only pass court cells.
- Fields.Field.MovePlayer: requires both cells on the court, as `MoveBall` does.
- Fields.Field.ConfLineUps: requires the line-up cells on the court, which every line-up in the source has.
- Games.Awarded: completes at a new score of 25, where the source raises AttributeError on the missing team `sets` counter; `Games.AwardedAsWritten` is the code as written (row 9 of "## Findings").
- Games.PointScored: completes at a new score of 25, where `score_point` as written raises AttributeError; it runs the corrected `Games.Awarded`.
- Games.ScorePointEffects: its failure condition is that of the corrected `Games.Awarded`; as written, `score_point` also raises at every new score of 25.
- Games.Game.AwardPoint: completes at a new score of 25, as `Games.Awarded` does, where the source raises AttributeError.
- Dispatching.Dispatch.Score: completes at a new score of 25, as `Games.PointScored` does, where the source raises AttributeError.
- Rosters.TeamData.CreditScore: bumps a team `sets` counter that `StatisticsTeam` does not declare; as written the bump raises AttributeError.
- Games.Game.ScorePoint: requires both line-ups to be complete and on the court, with counters for every dorsal; on other states Python may raise a KeyError in a rotation or a counter. `Games.PointScored` states the same behaviour on values. It also completes at a new score of 25, where the source raises AttributeError on the missing team `sets` counter (row 9 of "## Findings").
- Games.Game.ConfLineUps: requires two distinct line-up objects; aliasing of one line-up between both teams is not modelled.
- Dispatching.Dispatch.RunSubstitution: requires a Substitution action, which `Run` routes to it; the same holds for `RunMove`, `RunTimeout`, `UndoSubstitution` and the trigger methods such as `TriggerServe`.
- The statistics counters are one record with fifteen counters for both classes. The core also changes four counters that a class does not declare: `receives` and `serves` on the team (Agents/actions.py:58, 97), `sets_won` on the team (line 170), `sets` on the team and the player (lines 179-180), and `sets` on the team in `score_point` at a new score of 25 (Tools/game.py:50, 63). `StatisticsPlayer` does declare `receives` and `serves` (Tools/data.py:18-19). As written the updates of undeclared counters raise AttributeError; the model treats them as counters starting at 0. The `score_point` case means that, as written, no set is ever won, so `Games.SetEnded`, `Games.SetGoesToLeader`, `Games.MatchEndsAtThreeSets`, `Games.NewSetServer` and `Games.Game.EndSet` are reachable only with the assumed counter (row 9 of "## Findings"). `to_json` emits only each class's declared attributes (`Rosters.TeamStatsJsonShape`, `Rosters.PlayerStatsJsonShape`).
- `handle_end_of_rally`, which `Game` does not define, is left out of `simulate_rally`.
- `register_timeout` in `Timeout.execute` is modelled as `Game.register_time_out`, `rollback` in the minimax as `Dispatch.reset`, and `rotate(team)` in `rotate_players` as `rotate()`; as written each of these calls raises.
- `random()` is a stream of draws in `Env`, and `coin_toss` is a boolean. The probability distributions are not modelled, only which draws make an action succeed.
- `select_setter`, `select_attacker`, `select_blocker`, `LineUp.substitute_player`, `Field.update_player_on_field`, the minimax evaluator, `get_next_action` and `decide_action` are parameters, as they are agent code or not defined.
- Floating point: `Field.distance` and `neighbor_grids` are modelled with the squared distance, which gives the same cells for integer cells. `_set_statistics` uses only integers.
- The `GridField` objects are values in the grid, and the `LineUpGrid` objects are values in the line-up's map. Identity and aliasing of these objects are not modelled.
- `Game` groups its scalar fields into a `board` record (score, sets, serve) and a `rally` record (touches, possession, rally flag); the fields and their updates are the source's.
- Simulation.Rallied: the rally loop has no bound in the source. The model gives it a fuel parameter and counts running out as a failure; the same holds for `RalliedToPoint`, `RallySimulated` and `Simulator.PlayRally`.
- Simulation.Simulator.SimulateManagers: returns the new mask instead of adding to the caller's set in place.
- `start_match`, the line-up strategy agents that call `get_line_up`, `LineUpRandomStrategy` (a random choice) and `LineUpSimulateStrategy` (whole-match simulation) are not modelled; `LineUpFixedStrategy` is.
- The simulator agents' `simulate`, `simulate_current` and the `for` loops of `SimulatorActionMiniMaxManager` are compositions of `simulate_rally` and `reset_instance`, which are modelled; `reset` of the manager agent is `Simulator.RewindTo`, and `reset_current` is `Dispatch.PopTo`.
- Console output, JSON files, the float evaluation heuristics, the fuzzy rules and the agents outside the files above are not part of this model.

## Findings

| source | as written | input that shows it | evidently intended | confidence | as-written member | corrected member |
|---|---|---|---|---|---|---|
| Agents/actions.py:67 | a failed receive scores for `T1 if team == T2 else T1` | a failed receive by T1 | the point goes to the other team | not executed | Actions.ReceiveAsWrittenRewardsFault | Actions.ReceiveRewardsOpponent |
| Agents/actions.py:170-180 | `execute` raises `sets_won`, `reset` lowers `sets` | any set executed and then reset | `reset` lowers `sets_won` | not executed | Actions.SetResetAsWrittenKeepsSetsWon | Actions.ExecuteThenReset |
| Tools/game.py:359-360 | `get_team_sets` returns `t1_sets` for either team | one set for T1, none for T2: T2 gets 1 | T2's own set count | not executed | Games.GetTeamSetsAsWrittenWrong | Games.SetGoesToLeader |
| Agents/manager_action_strategy.py:36-41 | the skip test reads `sub[1]` and `sub[0]` of dictionary entries | one substitution in the history, a player on court and one on the bench | skip a court player who came on for that bench player: a record with "in" the court player and "out" the bench player, the `(dorsal_in, dorsal_out)` layout of Tools/data.py:59 | not executed | ManagerActions.SubstitutionsAsWrittenRaise | ManagerActions.SubstitutionsOffered |
| Agents/player_agent.py:88 | `is_opponent_attacking()` is called without the team | a player who is not serving, on the side without the ball | pass the player's team | not executed | PlayerAgents.AsWrittenRaisesWithoutBall | PlayerAgents.DefenceOffered |
| Agents/manager_line_up_strategy.py:26-31 | the roles are strings and `players_by_role` reads `role.value` | any non-empty roster | the `PlayerRole` members | not executed | LineUpBuilder.RoleNamesRaise | LineUpBuilder.PlayersByRoleSpec |
| Simulator/simulator.py:154-162 | `reset_instance` never lowers `game.instance`, so `reset_all` loops until the markers run out | `reset_all` at instance 2 with one marker | each reset takes back one rally | not executed | Simulation.ResetToAsWrittenFails | Simulation.ResetToRewinds |
| Simulator/simulator.py:90-95 | the loop waits on `rally_over`, which no action sets | any rally once started | the rally ends with its point | not executed | Simulation.RallySimulatedAsWrittenNeverReturns | Simulation.RallySimulatedExtends |
| Tools/game.py:47-63 | `score_point` runs `team_statics.sets += 1` on a `StatisticsTeam`, which declares no `sets` (Tools/data.py:29-41) | any point that brings a team from 24 to 25: AttributeError, so no set is ever won | the team's set counter rises at 25 and the point completes | not executed | Games.AwardedAsWrittenNeverReaches25 | Games.AwardedCreditsSet |
