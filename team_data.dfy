/**
 * Tools/data.py: `TeamData`, the per-team record the game and the actions
 * change in place: roster, counters, who is on the court and on the bench,
 * the substitution history and the time-outs left.
 */
module Rosters {
  import opened Teams
  import opened Stats
  import opened LineUps

  /** `points_to_win_set` of a `Game`: the score that wins a set, in every set. */
  const PointsToWinSet: int := 25

  /** One entry of `substitution_history`: {"out", "in", "set"}. */
  datatype SubstitutionRecord = SubstitutionRecord(out: int, inn: int, setNumber: int)

  /** The roster map built by the constructor: a later player with the same dorsal replaces an earlier one. */
  function RosterOf(players: seq<PlayerData>): (m: map<int, PlayerData>)
    ensures m.Keys == set p | p in players :: p.dorsal
    decreases |players|
  {
    if players == [] then map[]
    else RosterOf(players[..|players| - 1])[players[|players| - 1].dorsal := players[|players| - 1]]
  }

  /** The last player of the list with dorsal d is the one the roster keeps. */
  lemma {:induction false} RosterKeepsLast(players: seq<PlayerData>, i: int)
    requires 0 <= i < |players|
    requires forall j :: i < j < |players| ==> players[j].dorsal != players[i].dorsal
    ensures players[i].dorsal in RosterOf(players) && RosterOf(players)[players[i].dorsal] == players[i]
    decreases |players|
  {
    if i < |players| - 1 {
      RosterKeepsLast(players[..|players| - 1], i);
    }
  }

  /** Fresh counters for every dorsal in `keys`, the other entries kept. */
  function FreshFor(stats: map<int, Counters>, keys: set<int>): (r: map<int, Counters>)
    ensures r.Keys == stats.Keys + keys
    ensures forall d :: d in keys ==> r[d] == FreshCounters()
    ensures forall d :: d in stats && d !in keys ==> r[d] == stats[d]
  {
    map d | d in stats.Keys + keys :: if d in keys then FreshCounters() else stats[d]
  }

  /** A map that agrees with `FreshFor` on every key is `FreshFor`. */
  lemma FreshForPointwise(r: map<int, Counters>, stats: map<int, Counters>, keys: set<int>)
    requires r.Keys == stats.Keys + keys
    requires forall d :: d in keys ==> r[d] == FreshCounters()
    requires forall d :: d in stats && d !in keys ==> r[d] == stats[d]
    ensures r == FreshFor(stats, keys)
  {
    var f := FreshFor(stats, keys);
    assert r.Keys == f.Keys;
    assert forall d :: d in r ==> r[d] == f[d];
  }

  /** The dorsals a line-up puts on the court. */
  function OnFieldOf(m: Slots): (r: set<int>)
    ensures forall d :: d in r <==> exists k :: k in m && m[k].player == d
  {
    set k | k in m :: m[k].player
  }

  /** The value a `TeamData` holds. */
  datatype TeamView = TeamView(
    name: string,
    slots: Slots,
    data: map<int, PlayerData>,
    statistics: Counters,
    playersStatistics: map<int, Counters>,
    onField: set<int>,
    onBench: set<int>,
    unavailable: set<int>,
    substitutionHistory: seq<SubstitutionRecord>,
    timeOuts: int)

  /** `reset` on the value: fresh team counters and fresh counters for every roster dorsal, all else kept. */
  function TeamReset(v: TeamView): (r: TeamView)
    ensures r.statistics == FreshCounters()
    ensures r.playersStatistics.Keys == v.playersStatistics.Keys + v.data.Keys
    ensures forall d :: d in v.data ==> r.playersStatistics[d] == FreshCounters()
    ensures r.(statistics := v.statistics, playersStatistics := v.playersStatistics) == v
  {
    v.(statistics := FreshCounters(), playersStatistics := FreshFor(v.playersStatistics, v.data.Keys))
  }

  /** A team taking a line-up: its slots, the dorsals on court, and the rest of the roster on the bench. */
  function WithLineUp(v: TeamView, m: Slots): (r: TeamView)
    ensures r.onField * r.onBench == {} && r.onField + r.onBench == OnFieldOf(m) + v.data.Keys
    ensures r.(slots := v.slots, onField := v.onField, onBench := v.onBench) == v
  {
    v.(slots := m, onField := OnFieldOf(m), onBench := v.data.Keys - OnFieldOf(m))
  }

  /**
   * The player part of `Game.score_point` (Tools/game.py:42-46, 55-59): the last
   * player who touched the ball, when on the court, gets a point, and an
   * ace when there was at most one touch.  None: the dorsal has no
   * counters and the lookup raises.
   */
  function CreditPlayer(v: TeamView, last: Option<int>, generalTouches: int): Option<TeamView>
  {
    if last.None? || last.value !in v.onField then Some(v)
    else if last.value !in v.playersStatistics then None
    else
      var c := Bump(v.playersStatistics[last.value], Points, 1);
      var c' := if generalTouches <= 1 then Bump(c, Aces, 1) else c;
      Some(v.(playersStatistics := v.playersStatistics[last.value := c']))
  }

  /** The team part of `Game.score_point`: the team's set counter grows when its score reaches exactly 25. */
  function CreditTeam(v: TeamView, newScore: int): TeamView
  {
    if newScore == PointsToWinSet then v.(statistics := Bump(v.statistics, Sets, 1)) else v
  }

  /**
   * What an action does to the counters (Agents/actions.py:55-59 and the
   * like): `k += d` on the team's counters and, when `onPlayer`, on the
   * player's.  None: the player has no counters, and the lookup raises
   * before either changes.
   */
  function TeamTallied(v: TeamView, p: int, k: Stat, d: int, onPlayer: bool): (r: Option<TeamView>)
    ensures r.Some? <==> p in v.playersStatistics
    ensures r.Some? ==> r.value.statistics == Bump(v.statistics, k, d)
    ensures r.Some? ==> r.value.playersStatistics.Keys == v.playersStatistics.Keys
    ensures r.Some? ==> r.value.playersStatistics[p] == if onPlayer then Bump(v.playersStatistics[p], k, d) else v.playersStatistics[p]
    ensures r.Some? ==> forall q :: q in v.playersStatistics && q != p ==> r.value.playersStatistics[q] == v.playersStatistics[q]
    ensures r.Some? ==> r.value.(statistics := v.statistics, playersStatistics := v.playersStatistics) == v
  {
    if p !in v.playersStatistics then None
    else
      var ps := if onPlayer then v.playersStatistics[p := Bump(v.playersStatistics[p], k, d)] else v.playersStatistics;
      Some(v.(statistics := Bump(v.statistics, k, d), playersStatistics := ps))
  }

  /** Tallying -d on the same counter after +d gives the team back. */
  lemma TalliedUndo(v: TeamView, p: int, k: Stat, d: int, onPlayer: bool)
    requires p in v.playersStatistics
    ensures TeamTallied(TeamTallied(v, p, k, d, onPlayer).value, p, k, -d, onPlayer) == Some(v)
  {
    var w := TeamTallied(v, p, k, d, onPlayer).value;
    var u := TeamTallied(w, p, k, -d, onPlayer).value;
    BumpUndo(v.statistics, k, d);
    BumpUndo(v.playersStatistics[p], k, d);
    assert u.playersStatistics == v.playersStatistics;
  }

  /**
   * The court and bench moves of a substitution (Agents/actions.py:318-321):
   * `out` leaves the court and `inn` enters it, `inn` leaves the bench and
   * `out` sits on it.  None where a `remove` raises.
   */
  function Swapped(v: TeamView, out: int, inn: int): (r: Option<TeamView>)
    ensures r.Some? <==> out in v.onField && inn in v.onBench
    ensures r.Some? ==> r.value.onField == v.onField - {out} + {inn} && r.value.onBench == v.onBench - {inn} + {out}
    ensures r.Some? ==> r.value.(onField := v.onField, onBench := v.onBench) == v
  {
    if out !in v.onField || inn !in v.onBench then None
    else Some(v.(onField := v.onField - {out} + {inn}, onBench := v.onBench - {inn} + {out}))
  }

  /**
   * Swapping back restores the court and the bench when the player going
   * out is on the court and not on the bench, and the player coming in the
   * reverse.
   */
  lemma SwappedBack(v: TeamView, out: int, inn: int)
    requires out in v.onField && out !in v.onBench && inn in v.onBench && inn !in v.onField
    ensures Swapped(Swapped(v, out, inn).value, inn, out) == Some(v)
  {
    var w := Swapped(v, out, inn).value;
    assert w.onField - {inn} + {out} == v.onField;
    assert w.onBench - {out} + {inn} == v.onBench;
  }

  /**
   * `Substitution.execute` on the team (Agents/actions.py:310-321): the
   * record {out, in, set} is appended, the line-up becomes `slots`, and the
   * players swap court and bench.
   */
  function SubstitutionMade(v: TeamView, out: int, inn: int, setNumber: int, slots: Slots): (r: Option<TeamView>)
    ensures r.Some? <==> out in v.onField && inn in v.onBench
    ensures r.Some? ==> r.value.substitutionHistory == v.substitutionHistory + [SubstitutionRecord(out, inn, setNumber)]
  {
    match Swapped(v, out, inn)
    case None => None
    case Some(w) => Some(w.(slots := slots, substitutionHistory := v.substitutionHistory + [SubstitutionRecord(out, inn, setNumber)]))
  }

  /**
   * `Substitution.reset` on the team (lines 332-341): the last record is
   * popped (raising on an empty history), the line-up becomes `slots`, and
   * the players swap back.
   */
  function SubstitutionUndone(v: TeamView, out: int, inn: int, slots: Slots): (r: Option<TeamView>)
    ensures r.Some? <==> v.substitutionHistory != [] && inn in v.onField && out in v.onBench
    ensures r.Some? ==> r.value.substitutionHistory == v.substitutionHistory[..|v.substitutionHistory| - 1]
  {
    if v.substitutionHistory == [] then None
    else
      match Swapped(v, inn, out)
      case None => None
      case Some(w) => Some(w.(slots := slots, substitutionHistory := v.substitutionHistory[..|v.substitutionHistory| - 1]))
  }

  /**
   * `Substitution.reset` after its `execute` on the team: court, bench and
   * history are back, and the line-up is whatever the reset sets.
   */
  lemma SubstitutionBack(v: TeamView, out: int, inn: int, setNumber: int, made: Slots, undone: Slots)
    requires out in v.onField && out !in v.onBench && inn in v.onBench && inn !in v.onField
    ensures SubstitutionUndone(SubstitutionMade(v, out, inn, setNumber, made).value, out, inn, undone) == Some(v.(slots := undone))
  {
    var v1 := SubstitutionMade(v, out, inn, setNumber, made).value;
    SwappedBack(v, out, inn);
    assert v1.substitutionHistory[..|v1.substitutionHistory| - 1] == v.substitutionHistory;
  }

  /** A `to_json` value. */
  datatype Json =
    | JInt(i: int)
    | JStr(s: string)
    | JList(items: seq<Json>)
    | JObject(fields: map<string, Json>)
    | JTable(rows: map<int, Json>)

  const JsonKeys: set<string> :=
    {"statistics", "on_field", "on_bench", "substitution_history", "players_statistics"}

  /** The attribute name of each counter. */
  function StatName(k: Stat): string
  {
    match k
    case Points => "points" case Attacks => "attacks" case Kills => "kills"
    case Errors => "errors" case Blocks => "blocks" case Aces => "aces"
    case Digs => "digs" case Receives => "receives" case Serves => "serves"
    case Assists => "assists" case Rotations => "rotations"
    case MinutesPlayed => "minutes_played" case Substitutions => "substitutions"
    case Sets => "sets" case SetsWon => "sets_won"
  }

  /** The counters `StatisticsTeam.__init__` declares (Tools/data.py:29-41). */
  const TeamStats: set<Stat> :=
    {Points, Aces, Errors, Blocks, Digs, Assists, Attacks, Kills, Rotations, Substitutions}

  /** The counters `StatisticsPlayer.__init__` declares (Tools/data.py:10-21). */
  const PlayerStats: set<Stat> :=
    {Points, Attacks, Kills, Errors, Blocks, Aces, Digs, Receives, Serves, Assists, Rotations, MinutesPlayed}

  /** The declared counters of a statistics object, by attribute name. */
  function DeclaredJson(c: Counters, declared: set<Stat>): map<string, Json>
  {
    map k | k in declared :: StatName(k) := JInt(Get(c, k))
  }

  /** A `StatisticsTeam`'s `__dict__`: the team name, its counters and the `lineup` list, which nothing fills. */
  function TeamStatsJson(name: string, c: Counters): Json
  {
    JObject(DeclaredJson(c, TeamStats)["team_name" := JStr(name)]["lineup" := JList([])])
  }

  /** A `StatisticsPlayer`'s `__dict__`: its counters. */
  function PlayerStatsJson(c: Counters): Json
  {
    JObject(DeclaredJson(c, PlayerStats))
  }

  /** The counter an attribute name stands for. */
  function StatNamed(n: string): Option<Stat>
  {
    if n == "points" then Some(Points) else if n == "attacks" then Some(Attacks)
    else if n == "kills" then Some(Kills) else if n == "errors" then Some(Errors)
    else if n == "blocks" then Some(Blocks) else if n == "aces" then Some(Aces)
    else if n == "digs" then Some(Digs) else if n == "receives" then Some(Receives)
    else if n == "serves" then Some(Serves) else if n == "assists" then Some(Assists)
    else if n == "rotations" then Some(Rotations) else if n == "minutes_played" then Some(MinutesPlayed)
    else if n == "substitutions" then Some(Substitutions) else if n == "sets" then Some(Sets)
    else if n == "sets_won" then Some(SetsWon) else None
  }

  /** Each counter has its own attribute name, which is neither `team_name` nor `lineup`. */
  lemma StatNameDistinct(k: Stat)
    ensures StatNamed(StatName(k)) == Some(k)
    ensures StatNamed("team_name") == None && StatNamed("lineup") == None
  {
    match k
    case Points => case Attacks => case Kills => case Errors => case Blocks =>
    case Aces => case Digs => case Receives => case Serves => case Assists =>
    case Rotations => case MinutesPlayed => case Substitutions => case Sets => case SetsWon =>
  }

  /** A counter's name is a key of the declared counters' dictionary exactly when the counter is declared. */
  lemma DeclaredJsonKeys(c: Counters, declared: set<Stat>)
    ensures forall k :: StatName(k) in DeclaredJson(c, declared) <==> k in declared
    ensures forall k :: k in declared ==> DeclaredJson(c, declared)[StatName(k)] == JInt(Get(c, k))
  {
    hide StatNamed, StatName;
    forall j, k | StatName(j) == StatName(k)
      ensures j == k
    {
      StatNameDistinct(j);
      StatNameDistinct(k);
    }
  }

  /**
   * A team's statistics dictionary holds `team_name`, `lineup` and the
   * counters `StatisticsTeam` declares, each with its value, and nothing
   * else: `receives`, `serves`, `minutes_played`, `sets` and `sets_won`
   * are not among them.
   */
  lemma TeamStatsJsonShape(name: string, c: Counters)
    ensures var t := TeamStatsJson(name, c).fields;
      && t["team_name"] == JStr(name) && t["lineup"] == JList([])
      && (forall k :: StatName(k) in t <==> k in TeamStats)
      && (forall k :: k in TeamStats ==> t[StatName(k)] == JInt(Get(c, k)))
      && (forall key :: key in t ==> key == "team_name" || key == "lineup" || exists k :: k in TeamStats && StatName(k) == key)
  {
    DeclaredJsonKeys(c, TeamStats);
    forall k
      ensures StatName(k) != "team_name" && StatName(k) != "lineup"
    {
      StatNameDistinct(k);
    }
  }

  /**
   * A player's statistics dictionary holds the counters `StatisticsPlayer`
   * declares, each with its value, and nothing else: `substitutions`,
   * `sets` and `sets_won` are not among them.
   */
  lemma PlayerStatsJsonShape(c: Counters)
    ensures var p := PlayerStatsJson(c).fields;
      && (forall k :: StatName(k) in p <==> k in PlayerStats)
      && (forall k :: k in PlayerStats ==> p[StatName(k)] == JInt(Get(c, k)))
      && (forall key :: key in p ==> exists k :: k in PlayerStats && StatName(k) == key)
  {
    DeclaredJsonKeys(c, PlayerStats);
  }

  function RecordJson(r: SubstitutionRecord): Json
  {
    JObject(map["out" := JInt(r.out), "in" := JInt(r.inn), "set" := JInt(r.setNumber)])
  }

  function HistoryJson(h: seq<SubstitutionRecord>): (j: seq<Json>)
    ensures |j| == |h| && forall i :: 0 <= i < |h| ==> j[i] == RecordJson(h[i])
  {
    if h == [] then [] else [RecordJson(h[0])] + HistoryJson(h[1..])
  }

  function Ints(xs: seq<int>): (j: seq<Json>)
    ensures |j| == |xs| && forall i :: 0 <= i < |xs| ==> j[i] == JInt(xs[i])
  {
    if xs == [] then [] else [JInt(xs[0])] + Ints(xs[1..])
  }

  /** The list of a set in some order: every element exactly once. */
  ghost predicate Lists(xs: seq<int>, s: set<int>)
  {
    (forall x :: x in xs <==> x in s) && |xs| == |s|
  }

  class TeamData {
    var name: string
    var lineUp: LineUp
    var data: map<int, PlayerData>
    var statistics: Counters
    var playersStatistics: map<int, Counters>
    var onField: set<int>
    var onBench: set<int>
    var unavailable: set<int>
    var substitutionHistory: seq<SubstitutionRecord>
    var timeOuts: int

    function View(): TeamView
      reads this, lineUp
    {
      TeamView(name, lineUp.slots, data, statistics, playersStatistics, onField, onBench,
               unavailable, substitutionHistory, timeOuts)
    }

    /**
     * `TeamData(name, players)`: one roster entry and fresh counters per
     * dorsal, empty court and bench sets, empty history.  The line-up is an
     * empty one rather than None; the time-outs allowance is a parameter.
     */
    constructor (name: string, players: seq<PlayerData>, timeOuts: int)
      ensures this.name == name && this.timeOuts == timeOuts
      ensures data == RosterOf(players)
      ensures playersStatistics.Keys == data.Keys
      ensures forall d :: d in playersStatistics ==> playersStatistics[d] == FreshCounters()
      ensures statistics == FreshCounters()
      ensures onField == {} && onBench == {} && unavailable == {} && substitutionHistory == []
      ensures lineUp.slots == map[] && fresh(lineUp)
    {
      this.name := name;
      lineUp := new LineUp();
      statistics := FreshCounters();
      onField, onBench, unavailable := {}, {}, {};
      substitutionHistory := [];
      this.timeOuts := timeOuts;
      var d: map<int, PlayerData> := map[];
      var ps: map<int, Counters> := map[];
      for i := 0 to |players|
        invariant d == RosterOf(players[..i])
        invariant ps.Keys == d.Keys
        invariant forall k :: k in ps ==> ps[k] == FreshCounters()
      {
        assert players[..i + 1][..i] == players[..i];
        ps := ps[players[i].dorsal := FreshCounters()];
        d := d[players[i].dorsal := players[i]];
      }
      assert players[..|players|] == players;
      data := d;
      playersStatistics := ps;
    }

    /** `reset`: fresh team counters and fresh counters for every roster dorsal; nothing else changes. */
    method Reset()
      modifies this
      ensures View() == TeamReset(old(View()))
      ensures statistics == FreshCounters()
      ensures playersStatistics == FreshFor(old(playersStatistics), data.Keys)
      ensures name == old(name) && lineUp == old(lineUp) && data == old(data)
      ensures onField == old(onField) && onBench == old(onBench) && unavailable == old(unavailable)
      ensures substitutionHistory == old(substitutionHistory) && timeOuts == old(timeOuts)
    {
      var renewed := playersStatistics;
      var todo := data.Keys;
      while todo != {}
        invariant todo <= data.Keys
        invariant unchanged(this)
        invariant renewed.Keys == playersStatistics.Keys + (data.Keys - todo)
        invariant forall d :: d in data.Keys - todo ==> renewed[d] == FreshCounters()
        invariant forall d :: d in playersStatistics && d !in data.Keys - todo ==> renewed[d] == playersStatistics[d]
        decreases todo
      {
        var d := Pick(todo);
        renewed := renewed[d := FreshCounters()];
        todo := todo - {d};
      }
      FreshForPointwise(renewed, playersStatistics, data.Keys);
      statistics := FreshCounters();
      playersStatistics := renewed;
    }

    /**
     * The team part of `Game.conf_line_ups` (Tools/game.py:148-162): the
     * line-up is taken, its dorsals go on court, the rest of the roster on
     * the bench.
     */
    method TakeLineUp(m: LineUp)
      modifies this
      ensures lineUp == m && View() == WithLineUp(old(View()), m.slots)
    {
      lineUp := m;
      onField := OnFieldOf(m.slots);
      onBench := data.Keys - onField;
    }

    /** Applies `CreditPlayer`; ok is false where the source raises. */
    method CreditLastPlayer(last: Option<int>, generalTouches: int) returns (ok: bool)
      modifies this
      ensures ok == CreditPlayer(old(View()), last, generalTouches).Some?
      ensures View() == if ok then CreditPlayer(old(View()), last, generalTouches).value else old(View())
      ensures lineUp == old(lineUp)
    {
      if last.Some? && last.value in onField {
        if last.value !in playersStatistics {
          return false;
        }
        var c := Bump(playersStatistics[last.value], Points, 1);
        if generalTouches <= 1 {
          c := Bump(c, Aces, 1);
        }
        playersStatistics := playersStatistics[last.value := c];
      }
      ok := true;
    }

    /** Applies `CreditTeam` for the scorer's new score. */
    method CreditScore(newScore: int)
      modifies this
      ensures View() == CreditTeam(old(View()), newScore)
      ensures lineUp == old(lineUp)
    {
      if newScore == PointsToWinSet {
        statistics := Bump(statistics, Sets, 1);
      }
    }

    /** Applies `TeamTallied`; ok is false where the lookup raises. */
    method Tally(p: int, k: Stat, d: int, onPlayer: bool) returns (ok: bool)
      modifies this
      ensures ok == TeamTallied(old(View()), p, k, d, onPlayer).Some?
      ensures View() == if ok then TeamTallied(old(View()), p, k, d, onPlayer).value else old(View())
      ensures lineUp == old(lineUp)
    {
      if p !in playersStatistics {
        return false;
      }
      statistics := Bump(statistics, k, d);
      if onPlayer {
        playersStatistics := playersStatistics[p := Bump(playersStatistics[p], k, d)];
      }
      ok := true;
    }

    /**
     * The team part of `Substitution.execute`: append the record, take the
     * line-up the substitution produced, swap court and bench; ok is false
     * where a `remove` raises.
     */
    method Substitute(out: int, inn: int, setNumber: int, slots: Slots) returns (ok: bool)
      modifies this, lineUp
      ensures lineUp == old(lineUp)
      ensures ok == SubstitutionMade(old(View()), out, inn, setNumber, slots).Some?
      ensures ok ==> View() == SubstitutionMade(old(View()), out, inn, setNumber, slots).value
    {
      substitutionHistory := substitutionHistory + [SubstitutionRecord(out, inn, setNumber)];
      lineUp.slots := slots;
      if out !in onField {
        return false;
      }
      onField := onField - {out} + {inn};
      if inn !in onBench {
        return false;
      }
      onBench := onBench - {inn} + {out};
      ok := true;
    }

    /** The team part of `Substitution.reset`; ok is false where `pop` or a `remove` raises. */
    method Unsubstitute(out: int, inn: int, slots: Slots) returns (ok: bool)
      modifies this, lineUp
      ensures lineUp == old(lineUp)
      ensures ok == SubstitutionUndone(old(View()), out, inn, slots).Some?
      ensures ok ==> View() == SubstitutionUndone(old(View()), out, inn, slots).value
    {
      if substitutionHistory == [] {
        return false;
      }
      substitutionHistory := substitutionHistory[..|substitutionHistory| - 1];
      lineUp.slots := slots;
      if inn !in onField {
        return false;
      }
      onField := onField - {inn} + {out};
      if out !in onBench {
        return false;
      }
      onBench := onBench - {out} + {inn};
      ok := true;
    }

    /** `get_player_role`: the role of a known dorsal; None where the source raises. */
    function GetPlayerRole(dorsal: int): (r: Option<string>)
      reads this
      ensures r.Some? <==> dorsal in data
      ensures r.Some? ==> r.value == data[dorsal].role
    {
      if dorsal in data then Some(data[dorsal].role) else None
    }

    /**
     * `to_json`: an object with exactly five keys; the statistics objects
     * become their dictionaries, each with the attributes its class
     * declares; the court and bench sets become lists holding each member
     * once, in no particular order.
     */
    method ToJson() returns (j: map<string, Json>)
      ensures j.Keys == JsonKeys
      ensures j["statistics"] == TeamStatsJson(name, statistics)
      ensures j["on_field"].JList? && exists xs :: Lists(xs, onField) && j["on_field"] == JList(Ints(xs))
      ensures j["on_bench"].JList? && exists xs :: Lists(xs, onBench) && j["on_bench"] == JList(Ints(xs))
      ensures j["substitution_history"] == JList(HistoryJson(substitutionHistory))
      ensures j["players_statistics"] == JTable(map d | d in playersStatistics :: PlayerStatsJson(playersStatistics[d]))
    {
      var fieldList := ListOf(onField);
      var benchList := ListOf(onBench);
      j := map[
        "statistics" := TeamStatsJson(name, statistics),
        "on_field" := JList(Ints(fieldList)),
        "on_bench" := JList(Ints(benchList)),
        "substitution_history" := JList(HistoryJson(substitutionHistory)),
        "players_statistics" := JTable(map d | d in playersStatistics :: PlayerStatsJson(playersStatistics[d]))];
    }
  }

  /** `list(s)`: the members of a set, each once, in iteration order. */
  method ListOf(s: set<int>) returns (xs: seq<int>)
    ensures Lists(xs, s)
  {
    xs := [];
    var rest := s;
    while rest != {}
      invariant rest <= s
      invariant forall x :: x in xs <==> x in s - rest
      invariant |xs| == |s - rest|
      decreases rest
    {
      var x := Pick(rest);
      assert s - (rest - {x}) == (s - rest) + {x};
      xs := xs + [x];
      rest := rest - {x};
    }
    assert s - rest == s;
  }
}
