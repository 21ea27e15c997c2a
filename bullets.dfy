/**
 * Projectiles of the duel and the identity counter they draw their ids from.
 * A bullet is an object: the pool hands the same instance out again, and the
 * simulation moves it in place.
 */
module Bullets {

  /** A facing direction: +1 (towards positive x) or -1. */
  type Direction = d: int | d == 1 || d == -1 witness 1

  /** The module-level `id` counter: every `++id` yields the next id. */
  class IdCounter {
    var last: nat

    constructor ()
      ensures last == 0
    {
      last := 0;
    }

    method Next() returns (id: nat)
      modifies this
      ensures id == last == old(last) + 1
    {
      last := last + 1;
      id := last;
    }
  }

  class Bullet {
    var x: real
    var direction: Direction
    const id: nat

    /** A new bullet sits at the origin facing -1 and carries the given id. */
    constructor (id: nat)
      ensures this.id == id && x == 0.0 && direction == -1
    {
      this.id := id;
      x := 0.0;
      direction := -1;
    }

    /** Repositions a (possibly reused) bullet and returns the same object. */
    method Reset(x: real, direction: Direction) returns (self: Bullet)
      modifies this
      ensures self == this
      ensures this.x == x && this.direction == direction
    {
      this.x := x;
      this.direction := direction;
      self := this;
    }
  }

  /** The pool's factory: a brand-new bullet with the next id. */
  method CreateBullet(ids: IdCounter) returns (b: Bullet)
    modifies ids
    ensures fresh(b)
    ensures b.id == ids.last == old(ids.last) + 1
    ensures b.x == 0.0 && b.direction == -1
  {
    var id := ids.Next();
    b := new Bullet(id);
  }
}
