/**
 * Tools/line_up.py: the six rotation slots of a team.  A slot
 * (`LineUpGrid`) names a court cell, the player standing there, its
 * rotation number, its tactical setting and the role it asks for.
 * `LineUp` maps rotation numbers to slots and rotates them.
 */
module LineUps {
  import opened Teams

  /** The tactical settings OFFENSIVE, DEFENSIVE and NORMAL. */
  datatype Strategy = Offensive | Defensive | Normal

  /** One rotation slot.  `player` is a dorsal, -1 while unassigned. */
  datatype LineUpGrid = LineUpGrid(
    row: int,
    col: int,
    player: int,
    positionNumber: int,
    conf: Strategy,
    playerRole: string)

  /** `LineUpGrid(row, col, position_number, player_role)`. */
  function NewLineUpGrid(row: int, col: int, positionNumber: int, playerRole: string): (g: LineUpGrid)
    ensures g.player == -1 && g.conf == Normal
    ensures g.row == row && g.col == col
    ensures g.positionNumber == positionNumber && g.playerRole == playerRole
  {
    LineUpGrid(row, col, -1, positionNumber, Normal, playerRole)
  }

  /** The ratings record that `conf_player` penalises (line_up.py's player type). */
  class RatedPlayer {
    var number: int
    var preferredRole: string
    var spike: int
    var block: int
    var serve: int
    var receive: int
    var setting: int
    var dig: int
    var overall: int

    constructor (number: int, preferredRole: string, spike: int, block: int, serve: int,
                 receive: int, setting: int, dig: int, overall: int)
      ensures this.number == number && this.preferredRole == preferredRole
      ensures this.spike == spike && this.block == block && this.serve == serve
      ensures this.receive == receive && this.setting == setting && this.dig == dig
      ensures this.overall == overall
    {
      this.number := number;
      this.preferredRole := preferredRole;
      this.spike := spike;
      this.block := block;
      this.serve := serve;
      this.receive := receive;
      this.setting := setting;
      this.dig := dig;
      this.overall := overall;
    }
  }

  /**
   * `_set_statistics`: a player out of the slot's role loses 5 on each of
   * the seven ratings; a player in role keeps them all.
   */
  method ApplyRolePenalty(p: RatedPlayer, inRole: bool)
    modifies p
    ensures var d := if inRole then 0 else 5;
      && p.spike == old(p.spike) - d && p.block == old(p.block) - d
      && p.serve == old(p.serve) - d && p.receive == old(p.receive) - d
      && p.setting == old(p.setting) - d && p.dig == old(p.dig) - d
      && p.overall == old(p.overall) - d
    ensures p.number == old(p.number) && p.preferredRole == old(p.preferredRole)
  {
    if !inRole {
      p.spike := p.spike - 5;
      p.block := p.block - 5;
      p.serve := p.serve - 5;
      p.receive := p.receive - 5;
      p.setting := p.setting - 5;
      p.dig := p.dig - 5;
      p.overall := p.overall - 5;
    }
  }

  /**
   * `LineUpGrid.conf_player`: penalise the player unless its preferred
   * role is the slot's role, then seat it in the slot.
   */
  method ConfPlayer(g: LineUpGrid, p: RatedPlayer) returns (r: LineUpGrid)
    modifies p
    ensures r == g.(player := old(p.number))
    ensures var d := if old(p.preferredRole) == g.playerRole then 0 else 5;
      && p.spike == old(p.spike) - d && p.block == old(p.block) - d
      && p.serve == old(p.serve) - d && p.receive == old(p.receive) - d
      && p.setting == old(p.setting) - d && p.dig == old(p.dig) - d
      && p.overall == old(p.overall) - d
    ensures p.number == old(p.number) && p.preferredRole == old(p.preferredRole)
  {
    ApplyRolePenalty(p, p.preferredRole == g.playerRole);
    r := g.(player := p.number);
  }

  /** The slot map of a line-up, keyed by rotation number. */
  type Slots = map<int, LineUpGrid>

  const SlotNumbers: set<int> := {1, 2, 3, 4, 5, 6}

  /** A line-up that holds all six rotation numbers and nothing else. */
  predicate Complete(m: Slots)
  {
    m.Keys == SlotNumbers
  }

  /** Every slot is numbered with its own key. */
  predicate Numbered(m: Slots)
  {
    forall k :: k in m ==> m[k].positionNumber == k
  }

  /** The slot whose content moves into slot k on a `rotate`: 6 into 1, k-1 into k otherwise. */
  function RotationSource(k: int): int
  {
    if k == 1 then 6 else k - 1
  }

  /**
   * The slot map after `LineUp.rotate`: old 1 becomes 2, 6 becomes 1,
   * 5 becomes 6, 4 becomes 5, 3 becomes 4 and 2 becomes 3; each moved
   * slot is renumbered with its new key.
   */
  function Rotated(m: Slots): (r: Slots)
    requires Complete(m)
    ensures Complete(r) && Numbered(r)
  {
    map[1 := m[6].(positionNumber := 1), 2 := m[1].(positionNumber := 2),
        3 := m[2].(positionNumber := 3), 4 := m[3].(positionNumber := 4),
        5 := m[4].(positionNumber := 5), 6 := m[5].(positionNumber := 6)]
  }

  /** The court cell, occupant, setting and role of a slot: what a rotation moves around. */
  function Content(g: LineUpGrid): (int, int, int, Strategy, string)
  {
    (g.row, g.col, g.player, g.conf, g.playerRole)
  }

  /** Each new slot k carries the content of old slot `RotationSource(k)`, renumbered k. */
  lemma RotatedMovesContent(m: Slots)
    requires Complete(m)
    ensures forall k :: k in SlotNumbers ==>
      Rotated(m)[k] == m[RotationSource(k)].(positionNumber := k)
  {
  }

  /** 1 when slot k seats player p, 0 otherwise. */
  function SeatIf(m: Slots, k: int, p: int): nat
    requires k in m
  {
    if m[k].player == p then 1 else 0
  }

  /** How many of the six slots seat player p. */
  function Seats(m: Slots, p: int): nat
    requires Complete(m)
  {
    SeatIf(m, 1, p) + SeatIf(m, 2, p) + SeatIf(m, 3, p) + SeatIf(m, 4, p) + SeatIf(m, 5, p) + SeatIf(m, 6, p)
  }

  /** Rotation only renumbers slots: every player keeps the same number of seats. */
  lemma RotatedKeepsOccupants(m: Slots)
    requires Complete(m)
    ensures forall p :: Seats(Rotated(m), p) == Seats(m, p)
  {
    var r := Rotated(m);
    assert r[1].player == m[6].player && r[2].player == m[1].player && r[3].player == m[2].player;
    assert r[4].player == m[3].player && r[5].player == m[4].player && r[6].player == m[5].player;
  }

  /** The new server (slot 1) is the slot that was numbered 6. */
  lemma RotatedServerWasSix(m: Slots)
    requires Complete(m)
    ensures Content(Rotated(m)[1]) == Content(m[6])
  {
  }

  /** `k` rotations in a row. */
  function RotatedTimes(m: Slots, k: nat): (r: Slots)
    requires Complete(m)
    ensures Complete(r)
  {
    if k == 0 then m else Rotated(RotatedTimes(m, k - 1))
  }

  /** The slot whose content reaches slot k after n rotations. */
  function SourceAfter(k: int, n: nat): int
  {
    (k - 1 - n) % 6 + 1
  }

  /** After n rotations slot k holds the content of old slot `SourceAfter(k, n)`. */
  lemma {:induction false} RotatedTimesAt(m: Slots, n: nat, k: int)
    requires Complete(m) && k in SlotNumbers
    ensures SourceAfter(k, n) in SlotNumbers
    ensures RotatedTimes(m, n)[k] == m[SourceAfter(k, n)].(positionNumber := if n == 0 then m[k].positionNumber else k)
  {
    if n > 0 {
      RotatedTimesAt(m, n - 1, RotationSource(k));
      SourceAfterStep(k, n);
    }
  }

  /** One rotation more moves the source one slot back. */
  lemma SourceAfterStep(k: int, n: nat)
    requires k in SlotNumbers && n > 0
    ensures SourceAfter(RotationSource(k), n - 1) == SourceAfter(k, n)
  {
    if k == 1 {
      assert 6 - 1 - (n - 1) == (1 - 1 - n) + 6;
    }
  }

  /** Six rotations give back a consistently numbered line-up unchanged. */
  lemma SixRotationsIdentity(m: Slots)
    requires Complete(m) && Numbered(m)
    ensures RotatedTimes(m, 6) == m
  {
    var r := RotatedTimes(m, 6);
    forall k | k in SlotNumbers
      ensures r[k] == m[k]
    {
      RotatedTimesAt(m, 6, k);
    }
  }

  /**
   * The rotation of rule 7.6 of the FIVB Official Volleyball Rules: the
   * players turn clockwise, so the content of slot 2 serves next (k+1
   * into k, 1 into 6).
   */
  function FivbRotated(m: Slots): (r: Slots)
    requires Complete(m)
    ensures Complete(r) && Numbered(r)
  {
    map[1 := m[2].(positionNumber := 1), 2 := m[3].(positionNumber := 2),
        3 := m[4].(positionNumber := 3), 4 := m[5].(positionNumber := 4),
        5 := m[6].(positionNumber := 5), 6 := m[1].(positionNumber := 6)]
  }

  /**
   * `rotate` turns the slots the opposite way to rule 7.6: a turn by
   * the rule undoes it, and the two pick different servers whenever
   * slots 2 and 6 hold different content.
   */
  lemma RotatedIsReverseOfFivb(m: Slots)
    requires Complete(m) && Numbered(m)
    ensures FivbRotated(Rotated(m)) == m
    ensures Content(m[2]) != Content(m[6]) ==> Content(Rotated(m)[1]) != Content(FivbRotated(m)[1])
  {
    var r := FivbRotated(Rotated(m));
    assert r[1] == m[1] && r[2] == m[2] && r[3] == m[3];
    assert r[4] == m[4] && r[5] == m[5] && r[6] == m[6];
  }

  /** The rotation numbers in the order `rotate` walks them, and their targets. */
  const PositionNumbers: seq<int> := [1, 6, 5, 4, 3, 2]
  const RotatedPositions: seq<int> := [2, 1, 6, 5, 4, 3]

  /** The temporary map of `rotate` after its first i steps. */
  function PartialRotation(m: Slots, i: nat): Slots
    requires Complete(m) && i <= 6
  {
    if i == 0 then map[]
    else PartialRotation(m, i - 1)[RotatedPositions[i - 1] :=
      m[PositionNumbers[i - 1]].(positionNumber := RotatedPositions[i - 1])]
  }

  /** The six steps of `rotate` build exactly `Rotated`. */
  lemma PartialRotationDone(m: Slots)
    requires Complete(m)
    ensures PartialRotation(m, 6) == Rotated(m)
  {
    assert PartialRotation(m, 0) == map[];
    assert RotatedPositions[0] == 2 && PositionNumbers[0] == 1;
    var p1 := PartialRotation(m, 1);
    assert p1 == map[2 := m[1].(positionNumber := 2)];
    var p2 := PartialRotation(m, 2);
    assert p2 == p1[1 := m[6].(positionNumber := 1)];
    var p3 := PartialRotation(m, 3);
    assert p3 == p2[6 := m[5].(positionNumber := 6)];
    var p4 := PartialRotation(m, 4);
    assert p4 == p3[5 := m[4].(positionNumber := 5)];
    var p5 := PartialRotation(m, 5);
    assert p5 == p4[4 := m[3].(positionNumber := 4)];
    var p6 := PartialRotation(m, 6);
    assert p6 == p5[3 := m[2].(positionNumber := 3)];
  }

  /** The first slot, in rotation-number order, that seats player n. */
  function FindHolder(m: Slots, n: int, from: nat): (r: Option<LineUpGrid>)
    requires from <= 7
    decreases 7 - from
    ensures r.Some? ==> r.value.player == n && exists k :: from <= k <= 6 && k in m && m[k] == r.value
    ensures r.None? <==> forall k :: from <= k <= 6 && k in m ==> m[k].player != n
  {
    if from == 7 then None
    else if from in m && m[from].player == n then Some(m[from])
    else FindHolder(m, n, from + 1)
  }

  /** The line-up kept by each team. */
  class LineUp {
    var slots: Slots

    /** `LineUp()`: no slots yet. */
    constructor ()
      ensures slots == map[]
    {
      slots := map[];
    }

    /** `StandardVolleyballLineUp()`: the six standard slots, all unassigned. */
    constructor Standard()
      ensures slots == StandardSlots()
      ensures Complete(slots) && Numbered(slots)
    {
      slots := StandardSlots();
    }

    /**
     * `rotate`: every slot moves to its new rotation number and is
     * renumbered.  A line-up missing one of the six keys raises KeyError;
     * the requires states that.
     */
    method Rotate()
      requires Complete(slots)
      modifies this
      ensures slots == Rotated(old(slots))
    {
      var positionNumbers := [1, 6, 5, 4, 3, 2];
      var rotatedPositions := positionNumbers[5..] + positionNumbers[..5];
      assert rotatedPositions == RotatedPositions;
      var temp: Slots := map[];
      for i := 0 to 6
        invariant temp == PartialRotation(slots, i)
      {
        temp := temp[rotatedPositions[i] := slots[positionNumbers[i]].(positionNumber := rotatedPositions[i])];
      }
      PartialRotationDone(slots);
      slots := temp;
    }

    /** `get_player_position`: the first slot holding player n, or None. */
    function GetPlayerPosition(n: int): (r: Option<LineUpGrid>)
      reads this
      ensures r.Some? ==> r.value.player == n && r.value in slots.Values
      ensures r.None? <==> forall k :: 1 <= k <= 6 && k in slots ==> slots[k].player != n
    {
      FindHolder(slots, n, 1)
    }

    /** `get_player_role`: the role of the slot holding player n, or None. */
    function GetPlayerRole(n: int): (r: Option<string>)
      reads this
      ensures r.Some? <==> GetPlayerPosition(n).Some?
      ensures r.Some? ==> r.value == GetPlayerPosition(n).value.playerRole
    {
      match GetPlayerPosition(n)
      case Some(g) => Some(g.playerRole)
      case None => None
    }
  }

  /** The slots of StandardVolleyballLineUp (line_up.py lines 81-88). */
  function StandardSlots(): (m: Slots)
    ensures Complete(m) && Numbered(m)
  {
    map[1 := NewLineUpGrid(16, 4, 1, "OPPOSITE_HITTER"),
        2 := NewLineUpGrid(12, 6, 2, "OUTSIDE_HITTER"),
        3 := NewLineUpGrid(12, 4, 3, "MIDDLE_BLOCKER"),
        4 := NewLineUpGrid(12, 2, 4, "OUTSIDE_HITTER"),
        5 := NewLineUpGrid(16, 2, 5, "LIBERO"),
        6 := NewLineUpGrid(16, 6, 6, "SETTER")]
  }
}
