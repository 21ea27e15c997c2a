/**
 * A LIFO free list of idle bullets with a factory fallback. Nothing checks
 * that an instance is released only once.
 */
module Pool {
  import opened Bullets

  class BulletPool {
    /** The idle instances; the last one is handed out first. */
    var free: seq<Bullet>
    /** The counter the factory draws new ids from. */
    const ids: IdCounter

    constructor (ids: IdCounter)
      ensures free == [] && this.ids == ids
    {
      free := [];
      this.ids := ids;
    }

    /** The instance the next Get hands out, if the pool holds one. */
    function Top(): set<Bullet>
      reads this
    {
      if free == [] then {} else {free[|free| - 1]}
    }

    /**
     * Pops the most recently released instance; on an empty pool builds a new
     * one with the factory and the pool stays empty.
     */
    method Get() returns (b: Bullet)
      modifies this, ids
      ensures old(free) != [] ==>
        b == old(free)[|old(free)| - 1] && free == old(free)[..|old(free)| - 1] && ids.last == old(ids.last)
      ensures old(free) == [] ==>
        fresh(b) && free == [] && b.id == ids.last == old(ids.last) + 1 && b.x == 0.0 && b.direction == -1
    {
      if |free| > 0 {
        b := free[|free| - 1];
        free := free[..|free| - 1];
        return;
      }
      b := CreateBullet(ids);
    }

    /** Pushes an instance back, without any check. */
    method Set(b: Bullet)
      modifies this
      ensures free == old(free) + [b]
    {
      free := free + [b];
    }
  }

  /** Releasing an instance and acquiring right away gives back that instance and the prior pool. */
  method SetThenGet(p: BulletPool, x: Bullet) returns (y: Bullet)
    modifies p, p.ids
    ensures y == x
    ensures p.free == old(p.free) && p.ids.last == old(p.ids.last)
  {
    p.Set(x);
    y := p.Get();
  }

  /** Two releases are handed out again in reverse order. */
  method LastInFirstOut(p: BulletPool, a: Bullet, b: Bullet) returns (first: Bullet, second: Bullet)
    modifies p, p.ids
    ensures first == b && second == a
    ensures p.free == old(p.free) && p.ids.last == old(p.ids.last)
  {
    p.Set(a);
    p.Set(b);
    first := p.Get();
    second := p.Get();
  }

  /** Releasing the same instance twice makes the pool hand it out twice. */
  method DoubleRelease(p: BulletPool, x: Bullet) returns (first: Bullet, second: Bullet)
    modifies p, p.ids
    ensures first == x && second == x
    ensures p.free == old(p.free)
  {
    p.Set(x);
    p.Set(x);
    first := p.Get();
    second := p.Get();
  }

  /** On an empty pool, each Get builds a distinct new instance with a new id. */
  method EmptyPoolBuildsEachTime(p: BulletPool) returns (first: Bullet, second: Bullet)
    requires p.free == []
    modifies p, p.ids
    ensures fresh(first) && fresh(second) && first != second && first.id != second.id
    ensures p.free == []
  {
    first := p.Get();
    second := p.Get();
  }
}
