/**
 * The match simulation: two players on the x axis, each with a queue of
 * bullets in flight, advanced by Update and fed by Fire.
 */
module Game {
  import opened Bullets
  import opened Pool

  datatype Option<T> = None | Some(value: T)

  /** The tunables of the configuration module, fixed for a match. */
  datatype Consts = Consts(bulletRadius: real, playerRadius: real, bulletSpeed: real)

  /** One player's record. `lastFire == -1` means "never fired". */
  datatype PlayerState = PlayerState(
    id: nat,
    lastFire: int,
    bulletsFired: nat,
    won: bool,
    x: real,
    ticks: int,
    direction: Direction)

  /** What one Update decides once the bullets have moved. */
  datatype Outcome = HeadOn | PlayerOneWins | PlayerTwoWins | NoOutcome

  /** A freshly created player record at position x facing direction. */
  function CreateState(x: real, direction: Direction, id: nat): (s: PlayerState)
    ensures s.id == id && s.x == x && s.direction == direction
    ensures s.lastFire == -1 && s.bulletsFired == 0 && !s.won && s.ticks == 0
  {
    PlayerState(id, -1, 0, false, x, 0, direction)
  }

  function Abs(r: real): real
  {
    if r < 0.0 then -r else r
  }

  /** Two bullets at x1 and x2 collide when closer than two bullet radii. */
  function Collide(x1: real, x2: real, bulletRadius: real): (c: bool)
    ensures c <==> x1 - x2 < 2.0 * bulletRadius && x2 - x1 < 2.0 * bulletRadius
  {
    Abs(x1 - x2) < bulletRadius * 2.0
  }

  /** Which bullet is named first does not matter. */
  lemma CollideSymmetric(x1: real, x2: real, bulletRadius: real)
    ensures Collide(x1, x2, bulletRadius) == Collide(x2, x1, bulletRadius)
  {
  }

  /** How far a bullet moving in direction travels in delta milliseconds. */
  function Displacement(bulletSpeed: real, direction: Direction, delta: int): real
  {
    bulletSpeed / 1000.0 * (direction as real) * (delta as real)
  }

  /**
   * The single outcome of an update, given the positions of the two lead
   * bullets (if any) and of the two players, checked in the order head-on
   * collision, player one wins, player two wins.
   */
  function Judge(h1: Option<real>, h2: Option<real>, x1: real, x2: real, c: Consts): (o: Outcome)
    ensures o == HeadOn <==> h1.Some? && h2.Some? && Collide(h1.value, h2.value, c.bulletRadius)
    ensures o == PlayerOneWins <==> h1.Some? && h2.None? && h1.value > x2 - c.playerRadius
    ensures o == PlayerTwoWins <==> h1.None? && h2.Some? && h2.value < x1 + c.playerRadius
    ensures h1.Some? && h2.Some? ==> o == HeadOn || o == NoOutcome
  {
    if h1.Some? && h2.Some? then
      if Collide(h1.value, h2.value, c.bulletRadius) then HeadOn else NoOutcome
    else if h1.Some? then
      if h1.value > x2 - c.playerRadius then PlayerOneWins else NoOutcome
    else if h2.Some? then
      if h2.value < x1 + c.playerRadius then PlayerTwoWins else NoOutcome
    else
      NoOutcome
  }

  function Negate(h: Option<real>): Option<real>
  {
    if h.Some? then Some(-h.value) else None
  }

  function SwapWinner(o: Outcome): Outcome
  {
    match o
    case PlayerOneWins => PlayerTwoWins
    case PlayerTwoWins => PlayerOneWins
    case _ => o
  }

  /**
   * The rules favour neither side: reflecting the axis and swapping the two
   * players swaps the winner and keeps collisions as they are.
   */
  lemma JudgeMirror(h1: Option<real>, h2: Option<real>, x1: real, x2: real, c: Consts)
    ensures Judge(Negate(h2), Negate(h1), -x2, -x1, c) == SwapWinner(Judge(h1, h2, x1, x2, c))
  {
  }

  /** A fire at time now is refused while the cooldown of an earlier fire runs. */
  predicate RateLimited(lastFire: int, fireRateMS: int, now: int)
  {
    lastFire + fireRateMS > now && lastFire != -1
  }

  /** The first fire of a player is never refused, whatever the clock says. */
  lemma FirstFireNeverLimited(fireRateMS: int, now: int)
    ensures !RateLimited(-1, fireRateMS, now)
  {
  }

  /** No bullet occurs twice in s. */
  ghost predicate Distinct(s: seq<Bullet>)
  {
    forall i, j :: 0 <= i < j < |s| ==> s[i] != s[j]
  }

  /** No bullet occurs in both s and t. */
  ghost predicate Disjoint(s: seq<Bullet>, t: seq<Bullet>)
  {
    forall i, j :: 0 <= i < |s| && 0 <= j < |t| ==> s[i] != t[j]
  }

  /** The position of the lead bullet of a queue, if there is one. */
  function HeadX(q: seq<Bullet>): Option<real>
    reads q
  {
    if q == [] then None else Some(q[0].x)
  }

  /** Moves one bullet by the distance it flies in delta milliseconds. */
  method UpdateBullet(b: Bullet, delta: int, bulletSpeed: real)
    modifies b
    ensures b.x == old(b.x) + Displacement(bulletSpeed, b.direction, delta)
    ensures b.direction == old(b.direction)
  {
    var xPerMS := bulletSpeed / 1000.0;
    var diff := xPerMS * (b.direction as real) * (delta as real);
    b.x := b.x + diff;
  }

  /**
   * Two updates of a and c milliseconds leave a bullet where one update of
   * a + c milliseconds would, whatever the step sizes.
   */
  method SplitUpdateMatchesOne(b: Bullet, a: int, c: int, bulletSpeed: real)
    modifies b
    ensures b.direction == old(b.direction)
    ensures b.x == old(b.x) + Displacement(bulletSpeed, old(b.direction), a + c)
  {
    UpdateBullet(b, a, bulletSpeed);
    UpdateBullet(b, c, bulletSpeed);
  }

  /**
   * Moves every bullet of q in place; the bullets of other, held elsewhere,
   * stay where they are.
   */
  method MoveQueue(q: seq<Bullet>, other: seq<Bullet>, delta: int, bulletSpeed: real)
    requires Distinct(q) && Disjoint(q, other)
    modifies q
    ensures forall j :: 0 <= j < |q| ==>
      q[j].direction == old(q[j].direction) &&
      q[j].x == old(q[j].x) + Displacement(bulletSpeed, q[j].direction, delta)
    ensures forall k :: 0 <= k < |other| ==> unchanged(other[k])
  {
    for i := 0 to |q|
      invariant forall j :: 0 <= j < |q| ==> q[j].direction == old(q[j].direction)
      invariant forall j :: 0 <= j < i ==>
        q[j].x == old(q[j].x) + Displacement(bulletSpeed, q[j].direction, delta)
      invariant forall j :: i <= j < |q| ==> q[j].x == old(q[j].x)
      invariant forall k :: 0 <= k < |other| ==> unchanged(other[k])
    {
      UpdateBullet(q[i], delta, bulletSpeed);
    }
  }

  class Game {
    var ended: bool
    var s1: PlayerState
    var s2: PlayerState
    var b1: seq<Bullet>
    var b2: seq<Bullet>
    var loopCount: int
    var currentTime: int
    const fireRateMS: int
    const consts: Consts
    /** The shared bullet pool (a module-level value in the program). */
    const pool: BulletPool

    /**
     * Ownership of bullets: each in-flight or idle bullet is held by exactly
     * one place, once.
     */
    ghost predicate Valid()
      reads this, pool
    {
      && Distinct(b1) && Distinct(b2) && Distinct(pool.free)
      && Disjoint(b1, b2) && Disjoint(b1, pool.free) && Disjoint(b2, pool.free)
    }

    /**
     * The part of Valid() an update relies on: no bullet is held twice by the
     * queues. It survives Reclaim, which only adds to the pool.
     */
    ghost predicate QueuesOwned()
      reads this
    {
      Distinct(b1) && Distinct(b2) && Disjoint(b1, b2)
    }

    /**
     * Player one at -distance facing +1, player two at +distance facing -1,
     * both with fresh records and empty queues; ids come from the shared counter.
     * The pool is taken as it is: the new game owns its bullets properly
     * exactly when the pool holds no bullet twice.
     */
    constructor (consts: Consts, pool: BulletPool, fireRateMS: int, distance: real := 1000.0)
      modifies pool.ids
      ensures this.consts == consts && this.pool == pool && this.fireRateMS == fireRateMS
      ensures s1 == PlayerState(old(pool.ids.last) + 1, -1, 0, false, -distance, 0, 1)
      ensures s2 == PlayerState(old(pool.ids.last) + 2, -1, 0, false, distance, 0, -1)
      ensures b1 == [] && b2 == []
      ensures !ended && loopCount == 0 && currentTime == 0
      ensures pool.free == old(pool.free) && pool.ids.last == old(pool.ids.last) + 2
      ensures Valid() <==> Distinct(pool.free)
    {
      var id1 := pool.ids.Next();
      var id2 := pool.ids.Next();
      this.consts := consts;
      this.pool := pool;
      this.fireRateMS := fireRateMS;
      s1 := CreateState(-distance, 1, id1);
      s2 := CreateState(distance, -1, id2);
      b1 := [];
      b2 := [];
      ended := false;
      loopCount := 0;
      currentTime := 0;
    }

    /**
     * Releases every in-flight bullet, player one's first, to the pool. The
     * queues are left as they are, so the bullets are then held twice.
     */
    method Reclaim()
      modifies pool
      ensures pool.free == old(pool.free) + b1 + b2
    {
      for i := 0 to |b1|
        invariant pool.free == old(pool.free) + b1[..i]
      {
        pool.Set(b1[i]);
      }
      assert b1[..|b1|] == b1;
      for i := 0 to |b2|
        invariant pool.free == old(pool.free) + b1 + b2[..i]
      {
        pool.Set(b2[i]);
      }
      assert b2[..|b2|] == b2;
    }

    /**
     * Advances the match by delta milliseconds: the clocks, every bullet, and
     * then exactly one outcome check on the lead bullets.
     */
    method Update(delta: int)
      requires QueuesOwned()
      modifies this, pool, b1, b2
      ensures QueuesOwned()
      ensures old(Valid()) ==> Valid()
      ensures s1 == old(s1).(ticks := old(s1.ticks) + delta, won := s1.won)
      ensures s2 == old(s2).(ticks := old(s2.ticks) + delta, won := s2.won)
      ensures loopCount == old(loopCount) + 1 && currentTime == old(currentTime) + delta
      ensures forall i :: 0 <= i < |old(b1)| ==>
        old(b1)[i].direction == old(b1[i].direction) &&
        old(b1)[i].x == old(b1[i].x) + Displacement(consts.bulletSpeed, old(b1[i].direction), delta)
      ensures forall i :: 0 <= i < |old(b2)| ==>
        old(b2)[i].direction == old(b2[i].direction) &&
        old(b2)[i].x == old(b2[i].x) + Displacement(consts.bulletSpeed, old(b2[i].direction), delta)
      ensures Resolved(Judge(HeadX(old(b1)), HeadX(old(b2)), s1.x, s2.x, consts),
                       old(b1), old(b2), old(pool.free), old(s1.won), old(s2.won), old(ended))
    {
      s1 := s1.(ticks := s1.ticks + delta);
      s2 := s2.(ticks := s2.ticks + delta);
      loopCount := loopCount + 1;
      currentTime := currentTime + delta;
      MoveQueue(b1, b2, delta, consts.bulletSpeed);
      MoveQueue(b2, b1, delta, consts.bulletSpeed);
      Resolve();
    }

    /**
     * The effect of outcome o on queues, pool and flags, given their values
     * before the check.
     */
    ghost predicate Resolved(o: Outcome, q1: seq<Bullet>, q2: seq<Bullet>, free: seq<Bullet>,
                             won1: bool, won2: bool, wasEnded: bool)
      reads this, pool
    {
      && (o == HeadOn ==>
            q1 != [] && q2 != [] && b1 == q1[1..] && b2 == q2[1..] && pool.free == free + [q1[0], q2[0]])
      && (o != HeadOn ==> b1 == q1 && b2 == q2 && pool.free == free)
      && (o == PlayerOneWins ==> s1.won && !s2.won && ended)
      && (o == PlayerTwoWins ==> !s1.won && s2.won && ended)
      && (o == HeadOn || o == NoOutcome ==> s1.won == won1 && s2.won == won2 && ended == wasEnded)
    }

    /**
     * The outcome check of Update on the bullets as they now stand: a head-on
     * collision removes both lead bullets to the pool; a lone lead bullet past
     * the opposing player's edge ends the match in its owner's favour. It
     * does not look at ended.
     */
    method Resolve()
      requires QueuesOwned()
      modifies this, pool
      ensures QueuesOwned()
      ensures old(Valid()) ==> Valid()
      ensures s1 == old(s1).(won := s1.won) && s2 == old(s2).(won := s2.won)
      ensures loopCount == old(loopCount) && currentTime == old(currentTime)
      ensures Resolved(Judge(HeadX(old(b1)), HeadX(old(b2)), s1.x, s2.x, consts),
                       old(b1), old(b2), old(pool.free), old(s1.won), old(s2.won), old(ended))
    {
      if |b1| > 0 && |b2| > 0 {
        if Collide(b1[0].x, b2[0].x, consts.bulletRadius) {
          var h1 := b1[0];
          b1 := b1[1..];
          pool.Set(h1);
          var h2 := b2[0];
          b2 := b2[1..];
          pool.Set(h2);
        }
      } else if |b1| > 0 {
        if b1[0].x > s2.x - consts.playerRadius {
          s2 := s2.(won := false);
          s1 := s1.(won := true);
          ended := true;
        }
      } else if |b2| > 0 {
        if b2[0].x < s1.x + consts.playerRadius {
          s2 := s2.(won := true);
          s1 := s1.(won := false);
          ended := true;
        }
      }
    }

    /** Player 1's record for player == 1, player 2's for any other number. */
    function GetState(player: int): (st: PlayerState)
      reads this
      ensures player == 1 ==> st == s1
      ensures player != 1 ==> st == s2
    {
      if player == 1 then s1 else s2
    }

    /** Player 1's queue for player == 1, player 2's for any other number. */
    function GetBullets(player: int): (q: seq<Bullet>)
      reads this
      ensures player == 1 ==> q == b1
      ensures player != 1 ==> q == b2
    {
      if player == 1 then b1 else b2
    }

    /** Both player records, player one first. */
    function GameStats(): (r: (PlayerState, PlayerState))
      reads this
      ensures r.0 == s1 && r.1 == s2
    {
      (s1, s2)
    }

    /**
     * Takes a bullet from the pool, places it just outside the player facing
     * the player's way, appends it to the queue and counts the shot.
     */
    method CreateBullet(state: PlayerState, bullets: seq<Bullet>) returns (state': PlayerState, bullets': seq<Bullet>)
      modifies pool, pool.ids, pool.Top()
      ensures state' == state.(bulletsFired := state.bulletsFired + 1)
      ensures |bullets'| == |bullets| + 1 && bullets'[..|bullets|] == bullets
      ensures bullets'[|bullets|].x == state.x + (consts.playerRadius + consts.bulletRadius) * (state.direction as real)
      ensures bullets'[|bullets|].direction == state.direction
      ensures old(pool.free) != [] ==>
        && bullets'[|bullets|] == old(pool.free)[|old(pool.free)| - 1]
        && pool.free == old(pool.free)[..|old(pool.free)| - 1]
        && pool.ids.last == old(pool.ids.last)
      ensures old(pool.free) == [] ==>
        && fresh(bullets'[|bullets|])
        && bullets'[|bullets|].id == pool.ids.last == old(pool.ids.last) + 1
        && pool.free == []
    {
      var b := pool.Get();
      b := b.Reset(state.x + (consts.playerRadius + consts.bulletRadius) * (state.direction as real), state.direction);
      bullets' := bullets + [b];
      state' := state.(bulletsFired := state.bulletsFired + 1);
    }

    /**
     * Fires for player 1 when player == 1 and for player 2 otherwise, unless
     * the player's cooldown is still running.
     */
    method Fire(player: int)
      requires Valid()
      modifies this, pool, pool.ids, pool.Top()
      ensures Valid()
      ensures currentTime == old(currentTime) && loopCount == old(loopCount) && ended == old(ended)
      ensures forall i :: 0 <= i < |old(b1)| ==> unchanged(old(b1)[i])
      ensures forall i :: 0 <= i < |old(b2)| ==> unchanged(old(b2)[i])
      ensures RateLimited(old(GetState(player).lastFire), fireRateMS, old(currentTime)) ==>
        && s1 == old(s1) && s2 == old(s2) && b1 == old(b1) && b2 == old(b2)
        && pool.free == old(pool.free) && pool.ids.last == old(pool.ids.last)
        && unchanged(old(pool.Top()))
      ensures !RateLimited(old(GetState(player).lastFire), fireRateMS, old(currentTime)) ==>
        var st := GetState(player);
        var q := GetBullets(player);
        var n := |old(GetBullets(player))|;
        && st == old(GetState(player)).(lastFire := old(currentTime), bulletsFired := old(GetState(player).bulletsFired) + 1)
        && |q| == n + 1 && q[..n] == old(GetBullets(player))
        && q[n].x == st.x + (consts.playerRadius + consts.bulletRadius) * (st.direction as real)
        && q[n].direction == st.direction
        && (player == 1 ==> s2 == old(s2) && b2 == old(b2))
        && (player != 1 ==> s1 == old(s1) && b1 == old(b1))
        && (old(pool.free) != [] ==>
              && q[n] == old(pool.free)[|old(pool.free)| - 1] && pool.free == old(pool.free)[..|old(pool.free)| - 1]
              && pool.ids.last == old(pool.ids.last))
        && (old(pool.free) == [] ==>
              && fresh(q[n]) && pool.free == []
              && q[n].id == pool.ids.last == old(pool.ids.last) + 1)
    {
      var state := GetState(player);
      var bullets := GetBullets(player);
      var now := currentTime;
      if state.lastFire + fireRateMS > now && state.lastFire != -1 {
        return;
      }
      state := state.(lastFire := now);
      state, bullets := CreateBullet(state, bullets);
      if player == 1 {
        s1, b1 := state, bullets;
      } else {
        s2, b2 := state, bullets;
      }
    }
  }

  /**
   * One update of a match in which only player one has a bullet in flight:
   * the bullet moves, and the match ends in player one's favour exactly when
   * it has passed player two's edge.
   */
  method UpdateLoneShot(g: Game, b: Bullet, delta: int)
    requires g.Valid() && g.b1 == [b] && g.b2 == []
    modifies g, g.pool, b
    ensures g.Valid() && g.b1 == [b] && g.b2 == []
    ensures b.direction == old(b.direction)
    ensures b.x == old(b.x) + Displacement(g.consts.bulletSpeed, b.direction, delta)
    ensures g.s1.x == old(g.s1.x) && g.s2.x == old(g.s2.x) && g.loopCount == old(g.loopCount) + 1
    ensures g.ended == (old(g.ended) || b.x > g.s2.x - g.consts.playerRadius)
    ensures b.x > g.s2.x - g.consts.playerRadius ==> g.s1.won && !g.s2.won
  {
    g.Update(delta);
  }

  /**
   * An update right after Reclaim: every in-flight bullet is then also in the
   * pool, yet each one still moves exactly once, and the outcome check sees
   * the pool as Reclaim left it.
   */
  method UpdateAfterReclaim(g: Game, delta: int)
    requires g.QueuesOwned()
    modifies g, g.pool, g.b1, g.b2
    ensures g.QueuesOwned()
    ensures forall i :: 0 <= i < |old(g.b1)| ==>
      old(g.b1)[i].x == old(g.b1[i].x) + Displacement(g.consts.bulletSpeed, old(g.b1[i].direction), delta)
    ensures forall i :: 0 <= i < |old(g.b2)| ==>
      old(g.b2)[i].x == old(g.b2[i].x) + Displacement(g.consts.bulletSpeed, old(g.b2[i].direction), delta)
    ensures Judge(HeadX(old(g.b1)), HeadX(old(g.b2)), g.s1.x, g.s2.x, g.consts) != HeadOn ==>
      g.pool.free == old(g.pool.free) + old(g.b1) + old(g.b2)
  {
    g.Reclaim();
    g.Update(delta);
  }

  /**
   * A match with cooldown 100 ms, speed 1 unit per ms, zero radii and
   * distance 10: player one fires at time 0 and, in 5 ms steps, wins on the
   * fifth update and not before.
   */
  method LoneShotWinsOnFifthUpdate() returns (g: Game, endedAfterFour: bool)
    ensures !endedAfterFour
    ensures g.ended && g.s1.won && !g.s2.won && g.loopCount == 5
  {
    var ids := new IdCounter();
    var pool := new BulletPool(ids);
    g := new Game(Consts(0.0, 0.0, 1000.0), pool, 100, 10.0);
    assert g.Valid();
    g.Fire(1);
    var b := g.b1[0];
    assert g.b1 == [b] && b.x == -10.0 && b.direction == 1;
    assert Displacement(1000.0, 1, 5) == 5.0;
    UpdateLoneShot(g, b, 5);
    UpdateLoneShot(g, b, 5);
    UpdateLoneShot(g, b, 5);
    UpdateLoneShot(g, b, 5);
    assert b.x == 10.0;
    endedAfterFour := g.ended;
    UpdateLoneShot(g, b, 5);
  }
}
