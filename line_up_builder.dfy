/**
 * Agents/manager_line_up_strategy.py: the greedy builders of a starting
 * line-up.  `possible_line_up` gives each role, in a fixed order, the best
 * free player for it and fills the line-up up to six with the best of the
 * rest; `possible_line_ups` tries every order of the roles and keeps the
 * builds that reach six players, falling back on `possible_line_up`;
 * `LineUpFixedStrategy` keeps the build with the greatest total overall.
 *
 * `LineUp` (Tools/line_up.py) has neither the `add_player` nor the
 * `players` the builders use; a line-up under construction is modelled as
 * the list of the players added to it and what each was added as.
 */
module LineUpBuilder {
  import opened Teams
  import opened Stats

  /** `PlayerRole`: the five roles. */
  datatype Role = Setter | MiddleBlocker | OutsideHitter | OppositeHitter | Libero

  /** The position code each `PlayerRole` stands for (`role.value`). */
  function Code(r: Role): string
  {
    match r
    case Setter => "S"
    case MiddleBlocker => "MB"
    case OutsideHitter => "OH"
    case OppositeHitter => "O"
    case Libero => "L"
  }

  /** The roles in the order both builders list them. */
  const Roles: seq<Role> := [Setter, OutsideHitter, OppositeHitter, MiddleBlocker, Libero]

  /** How many players a complete line-up holds. */
  const LineUpSize: int := 6

  /** What a player was added to the line-up as: a role, or a substitute filling it up. */
  datatype Slot = AsRole(role: Role) | AsSubstitute

  datatype Assignment = Assignment(player: PlayerData, slot: Slot)

  // ---------------------------------------------------------------------
  // `players_by_role`: a filter, then a stable sort by overall, best first.

  /** The players of s with the given position code, in their order. */
  function WithPosition(s: seq<PlayerData>, code: string): (r: seq<PlayerData>)
    ensures forall p :: multiset(r)[p] == if p.position == code then multiset(s)[p] else 0
  {
    if s == [] then []
    else
      assert s == [s[0]] + s[1..];
      (if s[0].position == code then [s[0]] else []) + WithPosition(s[1..], code)
  }

  /** Overall ratings never increase along s. */
  predicate NonIncreasing(s: seq<PlayerData>)
  {
    forall i, j :: 0 <= i < j < |s| ==> s[i].overall >= s[j].overall
  }

  /** The players of s with overall v, in their order. */
  function Ties(s: seq<PlayerData>, v: int): seq<PlayerData>
  {
    if s == [] then [] else (if s[0].overall == v then [s[0]] else []) + Ties(s[1..], v)
  }

  /** x put in front of the first player of s it is not worse than. */
  function Inserted(x: PlayerData, s: seq<PlayerData>): (r: seq<PlayerData>)
    ensures multiset(r) == multiset(s) + multiset{x}
  {
    if s == [] || x.overall >= s[0].overall then [x] + s
    else
      assert s == [s[0]] + s[1..];
      [s[0]] + Inserted(x, s[1..])
  }

  /** `list.sort(key=lambda x: x.overall, reverse=True)`: an insertion sort, stable. */
  function SortedByOverall(s: seq<PlayerData>): (r: seq<PlayerData>)
  {
    if s == [] then [] else Inserted(s[0], SortedByOverall(s[1..]))
  }

  /** Inserting a player no better than v into a list no better than v keeps it no better than v. */
  lemma {:induction false} InsertedBelow(x: PlayerData, s: seq<PlayerData>, v: int)
    requires x.overall <= v && forall j :: 0 <= j < |s| ==> s[j].overall <= v
    ensures forall j :: 0 <= j < |Inserted(x, s)| ==> Inserted(x, s)[j].overall <= v
  {
    if s != [] && x.overall < s[0].overall {
      InsertedBelow(x, s[1..], v);
    }
  }

  lemma {:induction false} InsertedKeepsOrder(x: PlayerData, s: seq<PlayerData>)
    requires NonIncreasing(s)
    ensures NonIncreasing(Inserted(x, s))
  {
    if s == [] || x.overall >= s[0].overall {
      var r := [x] + s;
      forall i, j | 0 <= i < j < |r|
        ensures r[i].overall >= r[j].overall
      {
        if i == 0 {
          assert s[0].overall >= s[j - 1].overall;
        }
      }
    } else {
      InsertedKeepsOrder(x, s[1..]);
      var t := Inserted(x, s[1..]);
      InsertedBelow(x, s[1..], s[0].overall);
      var r := [s[0]] + t;
      forall i, j | 0 <= i < j < |r|
        ensures r[i].overall >= r[j].overall
      {
        assert r[j] == t[j - 1];
        if i > 0 {
          assert r[i] == t[i - 1];
        }
      }
    }
  }

  /** Inserting x puts it after the players of its own overall: those before it are strictly better. */
  lemma {:induction false} InsertedTies(x: PlayerData, s: seq<PlayerData>, v: int)
    ensures Ties(Inserted(x, s), v) == (if x.overall == v then [x] else []) + Ties(s, v)
  {
    if s == [] || x.overall >= s[0].overall {
      assert ([x] + s)[1..] == s;
    } else {
      InsertedTies(x, s[1..], v);
      assert ([s[0]] + Inserted(x, s[1..]))[1..] == Inserted(x, s[1..]);
    }
  }

  /** The sort orders by non-increasing overall. */
  lemma {:induction false} SortedByOverallOrders(s: seq<PlayerData>)
    ensures NonIncreasing(SortedByOverall(s))
  {
    if s != [] {
      SortedByOverallOrders(s[1..]);
      InsertedKeepsOrder(s[0], SortedByOverall(s[1..]));
    }
  }

  /** The sort keeps exactly the players it was given. */
  lemma {:induction false} SortedByOverallKeeps(s: seq<PlayerData>)
    ensures multiset(SortedByOverall(s)) == multiset(s)
  {
    if s != [] {
      SortedByOverallKeeps(s[1..]);
      assert s == [s[0]] + s[1..];
    }
  }

  /** The sort keeps the players of overall v in their order. */
  lemma {:induction false} SortedByOverallStable(s: seq<PlayerData>, v: int)
    ensures Ties(SortedByOverall(s), v) == Ties(s, v)
  {
    if s != [] {
      SortedByOverallStable(s[1..], v);
      InsertedTies(s[0], SortedByOverall(s[1..]), v);
    }
  }

  /**
   * The sort orders by non-increasing overall, keeps exactly the players
   * it was given, and keeps the players of equal overall in their order.
   */
  lemma SortedByOverallSpec(s: seq<PlayerData>)
    ensures NonIncreasing(SortedByOverall(s))
    ensures multiset(SortedByOverall(s)) == multiset(s)
    ensures forall v :: Ties(SortedByOverall(s), v) == Ties(s, v)
  {
    SortedByOverallOrders(s);
    SortedByOverallKeeps(s);
    forall v
      ensures Ties(SortedByOverall(s), v) == Ties(s, v)
    {
      SortedByOverallStable(s, v);
    }
  }

  /** `players_by_role(players, role)`. */
  function PlayersByRole(players: seq<PlayerData>, role: Role): seq<PlayerData>
  {
    SortedByOverall(WithPosition(players, Code(role)))
  }

  /**
   * `players_by_role` yields exactly the players whose position is the
   * role's code, best overall first, players of equal overall in the
   * order they were given.
   */
  lemma PlayersByRoleSpec(players: seq<PlayerData>, role: Role)
    ensures var r := PlayersByRole(players, role);
      && (forall p :: multiset(r)[p] == if p.position == Code(role) then multiset(players)[p] else 0)
      && NonIncreasing(r)
      && (forall v :: Ties(r, v) == Ties(WithPosition(players, Code(role)), v))
  {
    SortedByOverallSpec(WithPosition(players, Code(role)));
  }

  // ---------------------------------------------------------------------
  // `possible_line_up`.

  /**
   * `players_by_role` for each role, as `possible_line_ups` gathers it in
   * `{role: players_by_role(players, role) for role in roles}`;
   * `possible_line_up` makes the same calls one role at a time.
   */
  function RolePlayers(players: seq<PlayerData>): (m: map<Role, seq<PlayerData>>)
    ensures forall q :: q in Roles ==> q in m
  {
    map q | q in Roles :: PlayersByRole(players, q)
  }

  /** Each role's list holds only players of that role's position. */
  lemma RolePlayersPositions(players: seq<PlayerData>)
    ensures forall q, p :: q in Roles && p in RolePlayers(players)[q] ==> p.position == Code(q)
  {
    forall q, p | q in Roles && p in RolePlayers(players)[q]
      ensures p.position == Code(q)
    {
      PlayersByRoleSpec(players, q);
      assert p in multiset(PlayersByRole(players, q));
    }
  }

  /** The first player of s whose dorsal is not taken yet. */
  function FirstFree(s: seq<PlayerData>, taken: set<int>): (r: Option<PlayerData>)
    ensures r.Some? ==> r.value in s && r.value.dorsal !in taken
    ensures r.None? ==> forall p :: p in s ==> p.dorsal in taken
  {
    if s == [] then None
    else if s[0].dorsal !in taken then Some(s[0])
    else FirstFree(s[1..], taken)
  }

  /**
   * The role loop of `possible_line_up` from roles[i] on: each role takes
   * the best player for it not taken yet, if any.
   */
  function RolesFrom(rp: map<Role, seq<PlayerData>>, roles: seq<Role>, i: nat, lineUp: seq<Assignment>, taken: set<int>)
    : (seq<Assignment>, set<int>)
    requires i <= |roles| && forall q :: q in roles ==> q in rp
    decreases |roles| - i
  {
    if i == |roles| then (lineUp, taken)
    else match FirstFree(rp[roles[i]], taken)
      case None => RolesFrom(rp, roles, i + 1, lineUp, taken)
      case Some(p) => RolesFrom(rp, roles, i + 1, lineUp + [Assignment(p, AsRole(roles[i]))], taken + {p.dorsal})
  }

  /** The players whose dorsal is not taken, in their order. */
  function Unassigned(players: seq<PlayerData>, taken: set<int>): (r: seq<PlayerData>)
    ensures forall p :: p in r <==> p in players && p.dorsal !in taken
  {
    if players == [] then []
    else (if players[0].dorsal !in taken then [players[0]] else []) + Unassigned(players[1..], taken)
  }

  /** The `while len(line_up.players) < 6 and remaining_players` loop. */
  function Filled(lineUp: seq<Assignment>, remaining: seq<PlayerData>): seq<Assignment>
    decreases |remaining|
  {
    if |lineUp| < LineUpSize && remaining != [] then Filled(lineUp + [Assignment(remaining[0], AsSubstitute)], remaining[1..])
    else lineUp
  }

  /** The players of s, each added as a substitute. */
  function Substitutes(s: seq<PlayerData>): (r: seq<Assignment>)
    ensures |r| == |s| && forall j :: 0 <= j < |s| ==> r[j] == Assignment(s[j], AsSubstitute)
  {
    if s == [] then [] else [Assignment(s[0], AsSubstitute)] + Substitutes(s[1..])
  }

  /** How many of m remaining players the fill loop adds to a line-up of n. */
  function Room(n: int, m: int): (k: nat)
    ensures k <= m || m < 0
  {
    if n >= LineUpSize || m <= 0 then 0
    else if m < LineUpSize - n then m
    else LineUpSize - n
  }

  /** The fill loop adds the first remaining players, in order, until six are in or none is left. */
  lemma {:induction false} FilledSpec(lineUp: seq<Assignment>, remaining: seq<PlayerData>)
    ensures Filled(lineUp, remaining) == lineUp + Substitutes(remaining[..Room(|lineUp|, |remaining|)])
    decreases |remaining|
  {
    var k := Room(|lineUp|, |remaining|);
    if |lineUp| < LineUpSize && remaining != [] {
      var next := lineUp + [Assignment(remaining[0], AsSubstitute)];
      FilledSpec(next, remaining[1..]);
      assert Room(|next|, |remaining[1..]|) == k - 1;
      var taken := remaining[..k];
      assert taken[0] == remaining[0] && taken[1..] == remaining[1..][..k - 1];
      assert Substitutes(taken) == [Assignment(remaining[0], AsSubstitute)] + Substitutes(taken[1..]);
    } else {
      assert remaining[..k] == [];
    }
  }

  /** `possible_line_up(players)`: the roles first, then the best of the rest. */
  function PossibleLineUp(players: seq<PlayerData>): seq<Assignment>
  {
    var (lineUp, taken) := RolesFrom(RolePlayers(players), Roles, 0, [], {});
    Filled(lineUp, SortedByOverall(Unassigned(players, taken)))
  }

  /** The role loop only adds: it ends on the line-up it was given followed by at most one player per remaining role. */
  lemma {:induction false} RolesFromGrows(rp: map<Role, seq<PlayerData>>, roles: seq<Role>, i: nat, lineUp: seq<Assignment>, taken: set<int>)
    requires i <= |roles| && forall q :: q in roles ==> q in rp
    ensures var r := RolesFrom(rp, roles, i, lineUp, taken).0;
      |lineUp| <= |r| <= |lineUp| + |roles| - i && r[..|lineUp|] == lineUp
    decreases |roles| - i
  {
    if i < |roles| {
      match FirstFree(rp[roles[i]], taken)
      case None =>
        assert RolesFrom(rp, roles, i, lineUp, taken) == RolesFrom(rp, roles, i + 1, lineUp, taken);
        RolesFromGrows(rp, roles, i + 1, lineUp, taken);
      case Some(p) =>
        var next := lineUp + [Assignment(p, AsRole(roles[i]))];
        assert RolesFrom(rp, roles, i, lineUp, taken) == RolesFrom(rp, roles, i + 1, next, taken + {p.dorsal});
        RolesFromGrows(rp, roles, i + 1, next, taken + {p.dorsal});
        var r := RolesFrom(rp, roles, i + 1, next, taken + {p.dorsal}).0;
        assert r[..|lineUp|] == r[..|next|][..|lineUp|];
    }
  }

  /** The players of r from index n on came in as roles of roles[i..], each of its role's position. */
  predicate AddedAsRoles(r: seq<Assignment>, n: nat, roles: seq<Role>, i: nat)
    requires i <= |roles|
  {
    forall j :: n <= j < |r| ==>
      r[j].slot.AsRole? && r[j].slot.role in roles[i..] && r[j].player.position == Code(r[j].slot.role)
  }

  /** No two players of r from index n on came in as the same slot. */
  predicate DistinctSlots(r: seq<Assignment>, n: nat)
  {
    forall j, k :: n <= j < k < |r| ==> r[j].slot != r[k].slot
  }

  /** Each player the role loop adds comes as one of the roles still to do and has that role's position. */
  lemma {:induction false} RolesFromAdded(rp: map<Role, seq<PlayerData>>, roles: seq<Role>, i: nat, lineUp: seq<Assignment>, taken: set<int>)
    requires i <= |roles| && forall q :: q in roles ==> q in rp
    requires forall q, p :: q in roles && p in rp[q] ==> p.position == Code(q)
    ensures AddedAsRoles(RolesFrom(rp, roles, i, lineUp, taken).0, |lineUp|, roles, i)
    decreases |roles| - i
  {
    if i < |roles| {
      assert roles[i..] == [roles[i]] + roles[i + 1..];
      RolesFromStep(rp, roles, i, lineUp, taken);
      match FirstFree(rp[roles[i]], taken)
      case None =>
        RolesFromAdded(rp, roles, i + 1, lineUp, taken);
        var r := RolesFrom(rp, roles, i + 1, lineUp, taken).0;
        forall j | |lineUp| <= j < |r|
          ensures r[j].slot.AsRole? && r[j].slot.role in roles[i..] && r[j].player.position == Code(r[j].slot.role)
        {
          assert r[j].slot.role in roles[i + 1..];
        }
      case Some(p) =>
        var next := lineUp + [Assignment(p, AsRole(roles[i]))];
        RolesFromAdded(rp, roles, i + 1, next, taken + {p.dorsal});
        RolesFromGrows(rp, roles, i + 1, next, taken + {p.dorsal});
        var r := RolesFrom(rp, roles, i + 1, next, taken + {p.dorsal}).0;
        assert r[|lineUp|] == next[|lineUp|];
        forall j | |lineUp| <= j < |r|
          ensures r[j].slot.AsRole? && r[j].slot.role in roles[i..] && r[j].player.position == Code(r[j].slot.role)
        {
          if j > |lineUp| {
            assert r[j].slot.role in roles[i + 1..];
          }
        }
    }
  }

  /** Given roles that differ, the role loop adds no role twice. */
  lemma {:induction false} RolesFromRoles(rp: map<Role, seq<PlayerData>>, roles: seq<Role>, i: nat, lineUp: seq<Assignment>, taken: set<int>)
    requires i <= |roles| && forall q :: q in roles ==> q in rp
    requires forall q, p :: q in roles && p in rp[q] ==> p.position == Code(q)
    requires forall j, k :: 0 <= j < k < |roles| ==> roles[j] != roles[k]
    ensures DistinctSlots(RolesFrom(rp, roles, i, lineUp, taken).0, |lineUp|)
    decreases |roles| - i
  {
    if i < |roles| {
      RolesFromStep(rp, roles, i, lineUp, taken);
      match FirstFree(rp[roles[i]], taken)
      case None =>
        RolesFromRoles(rp, roles, i + 1, lineUp, taken);
      case Some(p) =>
        var next := lineUp + [Assignment(p, AsRole(roles[i]))];
        RolesFromRoles(rp, roles, i + 1, next, taken + {p.dorsal});
        RolesFromAdded(rp, roles, i + 1, next, taken + {p.dorsal});
        RolesFromGrows(rp, roles, i + 1, next, taken + {p.dorsal});
        var r := RolesFrom(rp, roles, i + 1, next, taken + {p.dorsal}).0;
        assert r[|lineUp|] == next[|lineUp|];
        forall j, k | |lineUp| <= j < k < |r|
          ensures r[j].slot != r[k].slot
        {
          if j == |lineUp| {
            assert r[k].slot.role in roles[i + 1..];
            var m :| 0 <= m < |roles[i + 1..]| && roles[i + 1..][m] == r[k].slot.role;
            assert roles[i + 1 + m] == r[k].slot.role;
          }
        }
    }
  }

  /** The role loop adds players whose dorsals were free and differ, and records each of them as taken. */
  lemma {:induction false} RolesFromDorsals(rp: map<Role, seq<PlayerData>>, roles: seq<Role>, i: nat, lineUp: seq<Assignment>, taken: set<int>)
    requires i <= |roles| && forall q :: q in roles ==> q in rp
    ensures var (r, a) := RolesFrom(rp, roles, i, lineUp, taken);
      && taken <= a
      && (forall j :: |lineUp| <= j < |r| ==> r[j].player.dorsal in a && r[j].player.dorsal !in taken)
      && (forall j, k :: |lineUp| <= j < k < |r| ==> r[j].player.dorsal != r[k].player.dorsal)
    decreases |roles| - i
  {
    if i < |roles| {
      match FirstFree(rp[roles[i]], taken)
      case None =>
        assert RolesFrom(rp, roles, i, lineUp, taken) == RolesFrom(rp, roles, i + 1, lineUp, taken);
        RolesFromDorsals(rp, roles, i + 1, lineUp, taken);
      case Some(p) =>
        var next := lineUp + [Assignment(p, AsRole(roles[i]))];
        assert RolesFrom(rp, roles, i, lineUp, taken) == RolesFrom(rp, roles, i + 1, next, taken + {p.dorsal});
        RolesFromDorsals(rp, roles, i + 1, next, taken + {p.dorsal});
        RolesFromGrows(rp, roles, i + 1, next, taken + {p.dorsal});
        var r := RolesFrom(rp, roles, i + 1, next, taken + {p.dorsal}).0;
        assert r[|lineUp|] == next[|lineUp|];
    }
  }

  /**
   * The role loop of `possible_line_up` adds at most one player per role,
   * each of that role's position, no role twice and no player twice, and
   * records every player it adds as taken.
   */
  lemma RoleLineUpSpec(players: seq<PlayerData>)
    ensures var (lineUp, taken) := RolesFrom(RolePlayers(players), Roles, 0, [], {});
      && |lineUp| <= |Roles|
      && (forall j :: 0 <= j < |lineUp| ==> lineUp[j].slot.AsRole? && lineUp[j].player.position == Code(lineUp[j].slot.role))
      && (forall j, k :: 0 <= j < k < |lineUp| ==> lineUp[j].slot != lineUp[k].slot)
      && (forall j, k :: 0 <= j < k < |lineUp| ==> lineUp[j].player.dorsal != lineUp[k].player.dorsal)
      && (forall j :: 0 <= j < |lineUp| ==> lineUp[j].player.dorsal in taken)
  {
    var rp := RolePlayers(players);
    RolePlayersPositions(players);
    assert forall j, k :: 0 <= j < k < |Roles| ==> Roles[j] != Roles[k];
    hide *;
    RolesFromGrows(rp, Roles, 0, [], {});
    RolesFromAdded(rp, Roles, 0, [], {});
    RolesFromRoles(rp, Roles, 0, [], {});
    RolesFromDorsals(rp, Roles, 0, [], {});
  }

  /**
   * After the roles, `possible_line_up` fills up with the players not
   * taken, best overall first, until the line-up holds six or nobody is
   * left; it never holds more than six.
   */
  lemma PossibleLineUpSpec(players: seq<PlayerData>)
    ensures var (lineUp, taken) := RolesFrom(RolePlayers(players), Roles, 0, [], {});
      var rest := SortedByOverall(Unassigned(players, taken));
      && PossibleLineUp(players) == lineUp + Substitutes(rest[..Room(|lineUp|, |rest|)])
      && NonIncreasing(rest)
      && (forall p :: p in rest <==> p in players && p.dorsal !in taken)
    ensures |PossibleLineUp(players)| <= LineUpSize
  {
    var (lineUp, taken) := RolesFrom(RolePlayers(players), Roles, 0, [], {});
    RolesFromGrows(RolePlayers(players), Roles, 0, [], {});
    var rest := SortedByOverall(Unassigned(players, taken));
    FilledSpec(lineUp, rest);
    SortedByOverallSpec(Unassigned(players, taken));
    forall p
      ensures p in rest <==> p in Unassigned(players, taken)
    {
      assert p in rest <==> p in multiset(rest);
    }
  }

  /** The inner loop of the role loop: add the first free player of eligible, if any, as role. */
  method AddFirstFree(eligible: seq<PlayerData>, role: Role, lineUp: seq<Assignment>, taken: set<int>)
    returns (lineUp': seq<Assignment>, taken': set<int>)
    ensures match FirstFree(eligible, taken)
      case None => lineUp' == lineUp && taken' == taken
      case Some(p) => lineUp' == lineUp + [Assignment(p, AsRole(role))] && taken' == taken + {p.dorsal}
  {
    lineUp', taken' := lineUp, taken;
    var j := 0;
    while j < |eligible|
      invariant j <= |eligible| && FirstFree(eligible[j..], taken) == FirstFree(eligible, taken)
      invariant lineUp' == lineUp && taken' == taken
    {
      if eligible[j].dorsal !in taken' {
        lineUp' := lineUp' + [Assignment(eligible[j], AsRole(role))];
        taken' := taken' + {eligible[j].dorsal};
        break;
      }
      assert eligible[j..] == [eligible[j]] + eligible[j + 1..];
      j := j + 1;
    }
  }

  /** One round of the role loop: the role takes the first free player of its list, if any. */
  lemma RolesFromStep(rp: map<Role, seq<PlayerData>>, roles: seq<Role>, i: nat, lineUp: seq<Assignment>, taken: set<int>)
    requires i < |roles| && forall q :: q in roles ==> q in rp
    ensures match FirstFree(rp[roles[i]], taken)
      case None => RolesFrom(rp, roles, i, lineUp, taken) == RolesFrom(rp, roles, i + 1, lineUp, taken)
      case Some(p) => RolesFrom(rp, roles, i, lineUp, taken) == RolesFrom(rp, roles, i + 1, lineUp + [Assignment(p, AsRole(roles[i]))], taken + {p.dorsal})
  {
  }

  /** The role loop of `possible_line_up`. */
  method AddRolePlayers(rolePlayers: map<Role, seq<PlayerData>>) returns (lineUp: seq<Assignment>, taken: set<int>)
    requires forall q :: q in Roles ==> q in rolePlayers
    ensures (lineUp, taken) == RolesFrom(rolePlayers, Roles, 0, [], {})
  {
    lineUp := [];
    taken := {};
    for i := 0 to |Roles|
      invariant RolesFrom(rolePlayers, Roles, i, lineUp, taken) == RolesFrom(rolePlayers, Roles, 0, [], {})
    {
      RolesFromStep(rolePlayers, Roles, i, lineUp, taken);
      hide *;
      var eligible := rolePlayers[Roles[i]];
      lineUp, taken := AddFirstFree(eligible, Roles[i], lineUp, taken);
    }
  }

  /** The fill loop of `possible_line_up`. */
  method AddSubstitutes(lineUp: seq<Assignment>, remaining: seq<PlayerData>) returns (full: seq<Assignment>)
    ensures full == Filled(lineUp, remaining)
  {
    full := lineUp;
    var rest := remaining;
    while |full| < LineUpSize && rest != []
      invariant Filled(full, rest) == Filled(lineUp, remaining)
      decreases |rest|
    {
      var player := rest[0];
      rest := rest[1..];
      full := full + [Assignment(player, AsSubstitute)];
    }
  }

  /** `possible_line_up(players)`, step by step. */
  method BuildLineUp(players: seq<PlayerData>) returns (lineUp: seq<Assignment>)
    ensures lineUp == PossibleLineUp(players)
  {
    var rolePlayers := RolePlayers(players);
    var taken;
    lineUp, taken := AddRolePlayers(rolePlayers);
    var remaining := Unassigned(players, taken);
    remaining := SortedByOverall(remaining);
    lineUp := AddSubstitutes(lineUp, remaining);
  }

  // ---------------------------------------------------------------------
  // `possible_line_ups`.

  /** s without its i-th element. */
  function Without<T>(s: seq<T>, i: nat): (r: seq<T>)
    requires i < |s|
    ensures |r| == |s| - 1 && multiset(r) + multiset{s[i]} == multiset(s)
  {
    assert s == s[..i] + [s[i]] + s[i + 1..];
    s[..i] + s[i + 1..]
  }

  /** Each list of ps with x put in front. */
  function Prefixed<T>(x: T, ps: seq<seq<T>>): (r: seq<seq<T>>)
    ensures |r| == |ps| && forall j :: 0 <= j < |ps| ==> r[j] == [x] + ps[j]
  {
    if ps == [] then [] else [[x] + ps[0]] + Prefixed(x, ps[1..])
  }

  /** `itertools.permutations(s)`, in its order: by the index of the first element, then recursively. */
  function Permutations<T>(s: seq<T>): (r: seq<seq<T>>)
    ensures forall p :: p in r ==> multiset(p) == multiset(s)
    decreases |s|, 1, 0
  {
    if s == [] then [[]] else PermutationsFrom(s, 0)
  }

  function PermutationsFrom<T>(s: seq<T>, i: nat): (r: seq<seq<T>>)
    requires i <= |s|
    ensures forall p :: p in r ==> multiset(p) == multiset(s)
    decreases |s|, 0, |s| - i
  {
    if i == |s| then []
    else
      var rest := Permutations(Without(s, i));
      var here := Prefixed(s[i], rest);
      assert forall p :: p in here ==> multiset(p) == multiset(s) by {
        forall p | p in here
          ensures multiset(p) == multiset(s)
        {
          var j :| 0 <= j < |here| && here[j] == p;
          assert rest[j] in rest;
        }
      }
      here + PermutationsFrom(s, i + 1)
  }

  /**
   * One permutation of `possible_line_ups` from perm[i] on: a role looks
   * only at its best player, who is added if free and otherwise marks the
   * line-up invalid (the `else` belongs to the `if`, and both branches
   * leave the inner loop); a role without players adds nobody.
   */
  function PermBuild(rolePlayers: map<Role, seq<PlayerData>>, perm: seq<Role>, i: nat,
                     lineUp: seq<Assignment>, taken: set<int>, valid: bool): (r: (seq<Assignment>, bool))
    requires i <= |perm| && forall q :: q in perm ==> q in rolePlayers
    ensures |r.0| <= |lineUp| + |perm| - i
    ensures r.1 ==> valid
    decreases |perm| - i
  {
    if i == |perm| then (lineUp, valid)
    else
      var eligible := rolePlayers[perm[i]];
      if eligible == [] then PermBuild(rolePlayers, perm, i + 1, lineUp, taken, valid)
      else if eligible[0].dorsal !in taken then
        PermBuild(rolePlayers, perm, i + 1, lineUp + [Assignment(eligible[0], AsRole(perm[i]))], taken + {eligible[0].dorsal}, valid)
      else PermBuild(rolePlayers, perm, i + 1, lineUp, taken, false)
  }

  /** The builds of perms[..n] that are valid and hold six players, in order. */
  function Kept(rolePlayers: map<Role, seq<PlayerData>>, perms: seq<seq<Role>>, n: nat): seq<seq<Assignment>>
    requires n <= |perms| && forall p, q :: p in perms && q in p ==> q in rolePlayers
  {
    if n == 0 then []
    else
      assert perms[n - 1] in perms;
      var (lineUp, valid) := PermBuild(rolePlayers, perms[n - 1], 0, [], {}, true);
      Kept(rolePlayers, perms, n - 1) + (if valid && |lineUp| == LineUpSize then [lineUp] else [])
  }

  /** `possible_line_ups(players)`. */
  function PossibleLineUps(players: seq<PlayerData>): seq<seq<Assignment>>
  {
    var rp := RolePlayers(players);
    var perms := Permutations(Roles);
    assert forall p, q :: p in perms && q in p ==> q in rp by {
      forall p, q | p in perms && q in p
        ensures q in rp
      {
        assert q in multiset(p);
      }
    }
    var kept := Kept(rp, perms, |perms|);
    if kept == [] then [PossibleLineUp(players)] else kept
  }

  /** No permutation reaches six players, since each of the five roles adds at most one. */
  lemma {:induction false} NothingKept(rolePlayers: map<Role, seq<PlayerData>>, perms: seq<seq<Role>>, n: nat)
    requires n <= |perms| && forall p, q :: p in perms && q in p ==> q in rolePlayers
    requires forall p :: p in perms ==> |p| == |Roles|
    ensures Kept(rolePlayers, perms, n) == []
  {
    if n > 0 {
      assert perms[n - 1] in perms;
      NothingKept(rolePlayers, perms, n - 1);
    }
  }

  /**
   * `possible_line_ups` never keeps a permutation's build, as the
   * `== 6` test cannot pass: it always returns the one line-up of
   * `possible_line_up`.
   */
  lemma PossibleLineUpsIsSingle(players: seq<PlayerData>)
    ensures PossibleLineUps(players) == [PossibleLineUp(players)]
  {
    var rp := RolePlayers(players);
    var perms := Permutations(Roles);
    forall p | p in perms
      ensures |p| == |Roles|
    {
      assert |multiset(p)| == |multiset(Roles)|;
    }
    assert forall p, q :: p in perms && q in p ==> q in rp by {
      forall p, q | p in perms && q in p
        ensures q in rp
      {
        assert q in multiset(p);
      }
    }
    NothingKept(rp, perms, |perms|);
  }

  /**
   * One permutation's build.  The inner `for player in eligible_players`
   * loop leaves in its first round whichever branch it takes, so it is
   * the test of the first eligible player.
   */
  method BuildPermutation(rolePlayers: map<Role, seq<PlayerData>>, perm: seq<Role>) returns (lineUp: seq<Assignment>, valid: bool)
    requires forall q :: q in perm ==> q in rolePlayers
    ensures (lineUp, valid) == PermBuild(rolePlayers, perm, 0, [], {}, true)
  {
    lineUp, valid := [], true;
    var taken: set<int> := {};
    for i := 0 to |perm|
      invariant PermBuild(rolePlayers, perm, i, lineUp, taken, valid) == PermBuild(rolePlayers, perm, 0, [], {}, true)
    {
      var eligible := rolePlayers[perm[i]];
      if eligible != [] {
        if eligible[0].dorsal !in taken {
          lineUp := lineUp + [Assignment(eligible[0], AsRole(perm[i]))];
          taken := taken + {eligible[0].dorsal};
        } else {
          valid := false;
        }
      }
    }
  }

  /** The loop over the permutations: keep each valid build of six. */
  method KeepBuilds(rolePlayers: map<Role, seq<PlayerData>>, perms: seq<seq<Role>>) returns (lineUps: seq<seq<Assignment>>)
    requires forall p, q :: p in perms && q in p ==> q in rolePlayers
    ensures lineUps == Kept(rolePlayers, perms, |perms|)
  {
    lineUps := [];
    for j := 0 to |perms|
      invariant lineUps == Kept(rolePlayers, perms, j)
    {
      assert perms[j] in perms;
      var lineUp, valid := BuildPermutation(rolePlayers, perms[j]);
      if valid && |lineUp| == LineUpSize {
        lineUps := lineUps + [lineUp];
      }
    }
  }

  /** `possible_line_ups(players)`, step by step. */
  method BuildLineUps(players: seq<PlayerData>) returns (lineUps: seq<seq<Assignment>>)
    ensures lineUps == PossibleLineUps(players)
  {
    var rolePlayers := RolePlayers(players);
    var perms := Permutations(Roles);
    assert forall p, q :: p in perms && q in p ==> q in rolePlayers by {
      forall p, q | p in perms && q in p
        ensures q in rolePlayers
      {
        assert q in multiset(p);
      }
    }
    lineUps := KeepBuilds(rolePlayers, perms);
    if lineUps == [] {
      var single := BuildLineUp(players);
      lineUps := [single];
    }
  }

  // ---------------------------------------------------------------------
  // `LineUpFixedStrategy.get_line_up`.

  /** `sum(player.overall for player in lu.players.values())`. */
  function Total(lu: seq<Assignment>): int
  {
    if lu == [] then 0 else lu[0].player.overall + Total(lu[1..])
  }

  /** `max(line_ups, key=total)` over lus[j..], with the best so far: a later line-up wins only when strictly greater. */
  function BestFrom(lus: seq<seq<Assignment>>, j: nat, best: seq<Assignment>): seq<Assignment>
    requires j <= |lus|
    decreases |lus| - j
  {
    if j == |lus| then best
    else if Total(lus[j]) > Total(best) then BestFrom(lus, j + 1, lus[j])
    else BestFrom(lus, j + 1, best)
  }

  /** `max(line_ups, key=total)`; line_ups is never empty here. */
  function Best(lus: seq<seq<Assignment>>): seq<Assignment>
    requires lus != []
  {
    BestFrom(lus, 1, lus[0])
  }

  lemma {:induction false} BestFromSpec(lus: seq<seq<Assignment>>, j: nat, b: nat)
    requires 0 < j <= |lus| && b < j
    requires forall i :: 0 <= i < j ==> Total(lus[i]) <= Total(lus[b])
    requires forall i :: 0 <= i < b ==> Total(lus[i]) < Total(lus[b])
    ensures exists k :: (0 <= k < |lus| && BestFrom(lus, j, lus[b]) == lus[k]
      && (forall i :: 0 <= i < |lus| ==> Total(lus[i]) <= Total(lus[k]))
      && (forall i :: 0 <= i < k ==> Total(lus[i]) < Total(lus[k])))
    decreases |lus| - j
  {
    if j == |lus| {
    } else if Total(lus[j]) > Total(lus[b]) {
      BestFromSpec(lus, j + 1, j);
    } else {
      BestFromSpec(lus, j + 1, b);
    }
  }

  /** Python's `max` returns a line-up of greatest total, the first of them. */
  lemma BestSpec(lus: seq<seq<Assignment>>)
    requires lus != []
    ensures exists k :: (0 <= k < |lus| && Best(lus) == lus[k]
      && (forall i :: 0 <= i < |lus| ==> Total(lus[i]) <= Total(lus[k]))
      && (forall i :: 0 <= i < k ==> Total(lus[i]) < Total(lus[k])))
  {
    BestFromSpec(lus, 1, 0);
  }

  /**
   * `LineUpFixedStrategy.get_line_up(team, simulator)`, given the
   * players of the team's roster in the roster's order.
   */
  function FixedLineUp(players: seq<PlayerData>): seq<Assignment>
  {
    PossibleLineUpsIsSingle(players);
    Best(PossibleLineUps(players))
  }

  /** The fixed strategy ends up with the one line-up `possible_line_up` builds. */
  lemma FixedLineUpIsPossibleLineUp(players: seq<PlayerData>)
    ensures FixedLineUp(players) == PossibleLineUp(players)
  {
    PossibleLineUpsIsSingle(players);
  }

  // ---------------------------------------------------------------------
  // As written, `possible_line_up` lists its roles as the strings
  // "Setter", "Outside Hitter", ... and hands them to `players_by_role`,
  // which reads `role.value`: a string has no `value`, so the call raises
  // as soon as there is a player to test.

  /** `players_by_role(players, name)` as called by `possible_line_up`, with a role name string. */
  function PlayersByRoleNameAsWritten(players: seq<PlayerData>, name: string): Option<seq<PlayerData>>
  {
    if players == [] then Some([]) else None
  }

  /** The first call of `possible_line_up` raises on every non-empty roster; with `PlayerRole` it succeeds. */
  lemma RoleNamesRaise(players: seq<PlayerData>)
    requires players != []
    ensures PlayersByRoleNameAsWritten(players, "Setter").None?
    ensures multiset(PlayersByRole(players, Setter)) <= multiset(players)
  {
    PlayersByRoleSpec(players, Setter);
  }
}
