/**
 * Counters kept per team and per player (StatisticsTeam and
 * StatisticsPlayer of Tools/data.py), and the player record that the
 * actions and the strategies read.
 */
module Stats {

  /** Every counter some part of the core reads or writes. */
  datatype Stat =
    | Points | Attacks | Kills | Errors | Blocks | Aces | Digs | Receives
    | Serves | Assists | Rotations | MinutesPlayed | Substitutions | Sets | SetsWon

  /**
   * A statistics object: one integer attribute per counter.  The source's
   * two classes each lack some of these (see the README); here both carry
   * all of them.
   */
  datatype Counters = Counters(
    points: int, attacks: int, kills: int, errors: int, blocks: int,
    aces: int, digs: int, receives: int, serves: int, assists: int,
    rotations: int, minutesPlayed: int, substitutions: int, sets: int, setsWon: int)

  /** The value of one counter. */
  function Get(c: Counters, k: Stat): int
  {
    match k
    case Points => c.points case Attacks => c.attacks case Kills => c.kills
    case Errors => c.errors case Blocks => c.blocks case Aces => c.aces
    case Digs => c.digs case Receives => c.receives case Serves => c.serves
    case Assists => c.assists case Rotations => c.rotations
    case MinutesPlayed => c.minutesPlayed case Substitutions => c.substitutions
    case Sets => c.sets case SetsWon => c.setsWon
  }

  /** A freshly constructed statistics object: every counter is 0. */
  function FreshCounters(): (c: Counters)
    ensures forall k :: Get(c, k) == 0
  {
    Counters(0, 0, 0, 0, 0, 0, 0, 0, 0, 0, 0, 0, 0, 0, 0)
  }

  /** `stats.<k> += d` on one counter, the others untouched. */
  function Bump(c: Counters, k: Stat, d: int): (r: Counters)
    ensures Get(r, k) == Get(c, k) + d
    ensures forall j :: j != k ==> Get(r, j) == Get(c, j)
  {
    match k
    case Points => c.(points := c.points + d)
    case Attacks => c.(attacks := c.attacks + d)
    case Kills => c.(kills := c.kills + d)
    case Errors => c.(errors := c.errors + d)
    case Blocks => c.(blocks := c.blocks + d)
    case Aces => c.(aces := c.aces + d)
    case Digs => c.(digs := c.digs + d)
    case Receives => c.(receives := c.receives + d)
    case Serves => c.(serves := c.serves + d)
    case Assists => c.(assists := c.assists + d)
    case Rotations => c.(rotations := c.rotations + d)
    case MinutesPlayed => c.(minutesPlayed := c.minutesPlayed + d)
    case Substitutions => c.(substitutions := c.substitutions + d)
    case Sets => c.(sets := c.sets + d)
    case SetsWon => c.(setsWon := c.setsWon + d)
  }

  /** Two statistics objects with the same counters are equal. */
  lemma CountersExt(a: Counters, b: Counters)
    requires forall k :: Get(a, k) == Get(b, k)
    ensures a == b
  {
    assert Get(a, Points) == Get(b, Points) && Get(a, Attacks) == Get(b, Attacks);
    assert Get(a, Kills) == Get(b, Kills) && Get(a, Errors) == Get(b, Errors);
    assert Get(a, Blocks) == Get(b, Blocks) && Get(a, Aces) == Get(b, Aces);
    assert Get(a, Digs) == Get(b, Digs) && Get(a, Receives) == Get(b, Receives);
    assert Get(a, Serves) == Get(b, Serves) && Get(a, Assists) == Get(b, Assists);
    assert Get(a, Rotations) == Get(b, Rotations) && Get(a, MinutesPlayed) == Get(b, MinutesPlayed);
    assert Get(a, Substitutions) == Get(b, Substitutions) && Get(a, Sets) == Get(b, Sets);
    assert Get(a, SetsWon) == Get(b, SetsWon);
  }

  /** Adding d and then -d to the same counter gives the counters back. */
  lemma BumpUndo(c: Counters, k: Stat, d: int)
    ensures Bump(Bump(c, k, d), k, -d) == c
  {
    CountersExt(Bump(Bump(c, k, d), k, -d), c);
  }

  /** Bumping one counter and then a different one lands in the state that bumping in the other order gives. */
  lemma BumpCommutes(c: Counters, k: Stat, d: int, j: Stat, e: int)
    ensures Bump(Bump(c, k, d), j, e) == Bump(Bump(c, j, e), k, d)
  {
    CountersExt(Bump(Bump(c, k, d), j, e), Bump(Bump(c, j, e), k, d));
  }

  /**
   * A player's record as the core reads it: the dorsal and the role
   * strings, the overall rating and the success ratings (percentages)
   * consulted by the actions.
   */
  datatype PlayerData = PlayerData(
    dorsal: int,
    position: string,
    role: string,
    overall: int,
    receiving: int,
    pServe: int,
    digging: int,
    attacking: int,
    blocking: int)
}
