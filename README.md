# Duel simulation and tick scheduling, modelled in Dafny

This project models the simulation core of a two-player, one-dimensional
shooter. Each player stands at a fixed position on the x axis and fires
bullets at the other. A fixed-rate scheduler drives the match. The model has
four modules:

- `Bullets` (bullets.dfy): the `Bullet` object, the shared id counter and the
  pool's factory.
- `Pool` (pool.dfy): the LIFO free list of idle bullets. The pool builds a new
  bullet with the factory when it is empty.
- `Game` (game.dfy): the match state machine, a class.
  - It holds two player records, two bullet queues and the clock.
  - `Update` advances the clocks and moves every bullet. It then makes exactly
    one outcome check on the lead bullets: a head-on collision, player one
    wins, or player two wins.
  - `Fire` spawns a bullet from the pool unless the player's cooldown is
    still running. A `lastFire` of -1 means "never fired".
  - `Reclaim` returns all in-flight bullets to the pool.
- `Ticker` (ticker.dfy): scheduling, in three parts.
  - The cadence generator (`TickRunner`, the closure that `ticker` returns)
    computes absolute target timestamps.
  - Each call after the first writes interval telemetry to a sink (`Writer`,
    kept as a trace of events).
  - The `Timer` keeps per-millisecond buckets of callbacks and drains them in
    timestamp order.

Wall-clock readings are parameters. The timer's 2 ms slice is a `budget`
counting loop iterations. Callbacks are opaque ids, and `Run` returns the ids
it invoked, in order.

Modelling choices:

- Positions are `real`. Time values are `int` milliseconds. The cadence rate
  and the target `next` are `real`, so that `Math.floor` is `.Floor`.
- The configuration constants (bullet radius, player radius, bullet speed)
  form a `Consts` value. It is fixed when a `Game` is constructed.
- The module-level bullet pool is passed to each `Game` explicitly. The
  module-level `id` counter is an `IdCounter` object that the pool holds. The
  game draws player ids from the same counter.
- `Game.Valid()` is the ownership rule the game relies on: no bullet is held
  twice across the two queues and the pool. `Fire` assumes it and keeps it.
  `Update` needs only its weaker part, `QueuesOwned()`: no bullet is held twice
  by the queues. It keeps that part, and it keeps `Valid()` whenever that held
  before.
- The timer stops draining strictly below `start` (`lastUpdateTime < start`),
  so a callback scheduled exactly at `start` waits for the next invocation.

## Model

| member | source | states |
|---|---|---|
| `Bullets.IdCounter.Next` | shooter/src/game/game.ts:7-15 | each `++id` yields a new id one above the last, so ids never repeat |
| `Bullets.Bullet.constructor` | shooter/src/game/game.ts:8-15 | a new bullet is at x = 0, faces -1 and carries the id it was given |
| `Bullets.Bullet.Reset` | shooter/src/game/game.ts:17-21 | repositions the bullet and sets its direction, and returns the same object |
| `Bullets.CreateBullet` | shooter/src/game/game.ts:25-27 | the factory returns a fresh object whose id is the counter's next value |
| `Pool.BulletPool.constructor` | shooter/src/game/pool.ts:1-5 | a new pool is empty |
| `Pool.BulletPool.Get` | shooter/src/game/pool.ts:6-11 | on a non-empty pool, returns the most recently released instance and removes exactly that one; on an empty pool, returns a fresh instance from the factory and the pool stays empty |
| `Pool.BulletPool.Set` | shooter/src/game/pool.ts:13-15 | appends the instance without any check; the other elements are unchanged |
| `Pool.SetThenGet` | shooter/src/game/pool.ts:6-15 | a release followed at once by an acquire returns the identical instance and restores the pool and the id counter |
| `Pool.LastInFirstOut` | shooter/src/game/pool.ts:6-15 | after releasing a then b, the next two acquires return b then a |
| `Pool.DoubleRelease` | shooter/src/game/pool.ts:13-15 | releasing x twice makes the next two acquires both return x |
| `Pool.EmptyPoolBuildsEachTime` | shooter/src/game/pool.ts:10 | on an empty pool, two acquires return two distinct fresh instances with different ids |
| `Game.CreateState` | shooter/src/game/game.ts:42-52 | a new player record carries the given id, position and direction, with lastFire -1 (never fired), no shots fired, not won and no ticks |
| `Game.Collide` | shooter/src/game/game.ts:54-56 | bullets collide exactly when each position is less than two bullet radii beyond the other |
| `Game.CollideSymmetric` | shooter/src/game/game.ts:54-56 | collision does not depend on which bullet is named first |
| `Game.UpdateBullet` | shooter/src/game/game.ts:58-62 | the bullet moves by exactly speed / 1000 * direction * delta; its direction is unchanged |
| `Game.SplitUpdateMatchesOne` | shooter/src/game/game.ts:58-62 | two in-place updates of a and c milliseconds leave the bullet where one update of a + c would, facing the same way |
| `Game.MoveQueue` | shooter/src/game/game.ts:108-113 | every bullet of a queue moves by exactly its displacement; bullets held elsewhere do not move |
| `Game.Judge` | shooter/src/game/game.ts:115-141 | each outcome holds iff its condition holds: head-on iff both lead bullets exist and collide; player one wins iff only player one has a lead bullet and it is past the right edge (x2 - playerRadius); player two wins in the mirror case; with both queues non-empty, no win is possible |
| `Game.JudgeMirror` | shooter/src/game/game.ts:115-141 | reflecting the axis and swapping the players swaps the winner and keeps collisions, so the rules favour neither side |
| `Game.FirstFireNeverLimited` | shooter/src/game/game.ts:148 | the "never fired" sentinel -1 exempts a player's first fire from the cooldown, whatever the time |
| `Game.Game.constructor` | shooter/src/game/game.ts:77-83 | player one is at -distance facing +1, player two at +distance facing -1; both have lastFire -1, bulletsFired 0, won false, ticks 0 and the next two ids from the counter; both queues are empty; the pool is not changed, and the ownership invariant holds exactly when the pool holds no bullet twice |
| `Game.Game.Reclaim` | shooter/src/game/game.ts:92-99 | the pool becomes its old content followed by player one's queue and then player two's; queues and players are untouched |
| `Game.Game.Update` | shooter/src/game/game.ts:101-113 | both players' ticks and currentTime grow by delta, and loopCount by exactly 1; every bullet of both queues moves by exactly its displacement; then the effect of `Judge` on the moved lead bullets applies; the queues stay free of duplicates, full ownership is preserved when it held before, and `ended` is never consulted |
| `Game.Game.Resolve` | shooter/src/game/game.ts:115-141 | on head-on, both lead bullets leave their queues for the pool (player one's first) and won and ended stay as they were; on a win, the winner's flag is true, the loser's false and ended is set, and queues and pool are unchanged; otherwise nothing changes; trailing bullets are never looked at |
| `Game.Game.GetState` | shooter/src/game/game.ts:168-170 | player number 1 selects player one's record; any other number, including invalid ones, selects player two's |
| `Game.Game.GetBullets` | shooter/src/game/game.ts:172-174 | player number 1 selects player one's queue; any other number selects player two's |
| `Game.Game.GameStats` | shooter/src/game/game.ts:157-159 | returns both player records, player one first |
| `Game.Game.CreateBullet` | shooter/src/game/game.ts:161-166 | appends exactly one bullet, at x + (playerRadius + bulletRadius) * direction and with the player's direction; it is the pool's last instance, or a fresh one when the pool is empty; bulletsFired grows by 1 |
| `Game.Game.Fire` | shooter/src/game/game.ts:144-155 | if lastFire is not -1 and lastFire + fireRateMS > currentTime, nothing changes; otherwise lastFire becomes currentTime and one bullet is appended, as by CreateBullet, for player one iff player == 1: the pool's last bullet with the counter unchanged, or on an empty pool a fresh bullet with the counter's next id; the other player's record and queue are untouched, no in-flight bullet changes, and ownership is preserved |
| `Game.UpdateAfterReclaim` | shooter/src/game/game.ts:92-113 | an update right after Reclaim, with the bullets both queued and pooled, still moves each in-flight bullet exactly once; unless the lead bullets collide, the pool is then the old pool followed by both queues |
| `Game.UpdateLoneShot` | shooter/src/game/game.ts:101-141 | when only player one has a bullet in flight, an update moves it, and the match ends for player one exactly when the bullet passes player two's edge |
| `Game.LoneShotWinsOnFifthUpdate` | shooter/src/game/game.ts:101-155 | with cooldown 100, speed 1 unit/ms, zero radii and distance 10, a shot at time 0 has not ended the match after four 5 ms updates and wins it for player one on the fifth |
| `Ticker.Classify` | shooter/src/game/ticker.ts:13-19 | overrun iff interval > rate + 1; on time iff floor(rate - 1) <= interval <= rate + 1; an underrun interval is below rate - 1 |
| `Ticker.TelemetryCountsOnce` | shooter/src/game/ticker.ts:11-20 | every call made while previousNow != 0 (every call after the first, since the wall clock never reads 0) writes `tickInterval` = now - previousNow and then exactly one counter, named after the classification |
| `Ticker.Step` | shooter/src/game/ticker.ts:22-31 | the returned target is never before now; a late call (now > floor(next)) returns now + 1 and sets next to now + 1 + rate; otherwise it returns floor(next) and advances next by rate |
| `Ticker.Cadences` | shooter/src/game/ticker.ts:7-32 | over any sequence of calls, each returned target is at or after the time of its call |
| `Ticker.OnTimeCallsKeepCadence` | shooter/src/game/ticker.ts:22-28 | while no call is late, the k-th target is floor(next + k * rate), so the absolute schedule does not drift |
| `Ticker.TickRunner.constructor` | shooter/src/game/ticker.ts:3-5 | the first target is start + rate, and previousNow starts at 0 |
| `Ticker.TickRunner.Tick` | shooter/src/game/ticker.ts:7-32 | returns the target and updates next as `Step` says; sets previousNow to now; appends nothing to the sink on the first call (previousNow == 0), else the interval sample and one counter |
| `Ticker.Timer.constructor` | shooter/src/game/ticker.ts:47-51 | a new timer has no buckets, and lastUpdateTime is the creation time |
| `Ticker.Timer.Create` | shooter/src/game/ticker.ts:41-45 | the initial drain of a new timer invokes nothing and leaves no buckets |
| `Ticker.Timer.Add` | shooter/src/game/ticker.ts:53-60 | appends the callback to its key's bucket, creating the bucket if absent; callbacks under one key keep insertion order; other keys are untouched |
| `Ticker.DrainEnd` | shooter/src/game/ticker.ts:64-65 | a drain never goes backwards and never beyond start, advances at most budget keys, and reaches start whenever the budget covers the backlog |
| `Ticker.Timer.Run` | shooter/src/game/ticker.ts:62-78 | visits the keys from lastUpdateTime upward, strictly below start, one per iteration; invokes each bucket in order and deletes that key; stops where `DrainEnd` says; keys at or above start and keys below the initial lastUpdateTime are untouched and never invoked |
| `Ticker.DrainSplit` | shooter/src/game/ticker.ts:64-76 | draining a range in two consecutive pieces invokes the same callbacks in the same order as draining it at once |
| `Ticker.DrainReadsOnlyRange` | shooter/src/game/ticker.ts:67-74 | a drain depends only on the buckets of the keys it visits |
| `Ticker.ResumedDrainMatchesOneDrain` | shooter/src/game/ticker.ts:62-78 | a drain cut short by the budget and resumed on the remaining buckets invokes exactly what one uninterrupted drain would |
| `Ticker.RunResumes` | shooter/src/game/ticker.ts:62-78 | two successive driver invocations, the second at the same or a later start, invoke in timestamp order what one drain up to where the second stopped would; the second resumes where the first stopped, and at the same start they end where one drain with the combined budget would |

## Left out

- The network server, CLI and environment configuration, logger setup and
  socket plumbing (shooter/src/server.ts) are I/O.
- `Date.now()` is left out. Every wall-clock reading (the ticker's start and
  `now`, the timer's creation time and `start`) is a parameter.
- The zero-delay self-rescheduling of `Timer.run` (`setTimeout`), the bound
  `boundRun` and the module-level timer with `getTimer` are left out. They
  belong to the host event loop.
- The 2 ms wall-clock break is an abstract `budget`: the number of loop
  iterations before the clock check breaks.
- The telemetry sink (`Writer`, whose module is not part of this model) is a
  trace of `Sampled`/`Counted` events.
- The configuration module is not part of this model. Its radii and speed are
  the `Consts` parameter.
- IEEE-754 behaviour of JavaScript numbers is not modelled. Positions and the
  `/ 1000` scaling are exact `real` arithmetic, and times are unbounded `int`.
- Pool.BulletPool: the source's pool is generic over any element type with a
  constructor function. The model has it for bullets only, its one use,
  because a Dafny function cannot allocate the fresh instance the factory
  returns.
- Game.Game.GameStats: returns the two player records as values. The source
  returns references that outside code could change. Each record is a
  datatype held in the game's fields, since nothing else holds it.
- Game.Game.Update: requires that the two queues hold no bullet twice. A
  bullet can reach the queues twice only through a double release or a fire
  after `Reclaim`; the source would then move that object twice, and the
  model does not describe that. An update right after `Reclaim` is described.
- Game.Game.Fire: requires `Valid()` for the same reason. If the pool handed
  out a bullet still in flight, the source would reposition that in-flight
  bullet.
- Game.Game.Reclaim: the source leaves both queues as they are, so every
  reclaimed bullet is then held twice. The model reproduces this, and
  `Valid()` no longer holds once a queue held a bullet.
- The global ordering of ids across games and pools is not modelled. Only
  their uniqueness and stability are.
- The commented-out logging in the game is not modelled.
- Callbacks that call `Timer.add` while `run` is draining are not modelled.
  Such re-entrant calls are a host-level effect.
- Ticker.Timer.Run: callbacks are assumed to return normally. The source has
  no handler around them. When a callback at key k throws, the rest of that
  bucket is not invoked, and the bucket at k is neither deleted nor passed.
  `lastUpdateTime` stays at k, and the driver is not rescheduled, so no later
  invocation happens. The model's drain always completes each bucket it visits.
