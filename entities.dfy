/** The falling enemies, the player's lasers, the power-ups and the boss's fire
    projectiles: their hit boxes, movement and removal tests. Positions are kept as
    integers here. In the game only a Rect truncates to integers: a fire's position and
    the slowed or power-up falls accumulate fractions, which this model does not carry
    (the fire's velocity comes from the `Aim` parameter of `NewFire`, the slowed falls
    from the integer speeds of `Survival.Speeds`). */
module Entities {
  import opened Geometry

  // ---------------------------------------------------------------- Enemy

  const EnemySpawnY: int := -50
  const EnemyMinSize: int := 25
  const EnemyMaxSize: int := 60

  /** A falling character, centred on (x, y), `size` pixels square. */
  datatype Enemy = Enemy(x: int, y: int, size: int)

  /** A new enemy appears above the top edge; its size is drawn from [25, 60]. */
  function SpawnEnemy(x: int, size: int): (e: Enemy)
    requires EnemyMinSize <= size <= EnemyMaxSize
    ensures e.x == x && e.size == size && e.y == EnemySpawnY
    ensures EnemyRect(e).top < 0 && !EnemyOffScreen(e)
  {
    Enemy(x, EnemySpawnY, size)
  }

  /** `Enemy.get_rect`: a size-by-size square around the centre. */
  function EnemyRect(e: Enemy): (r: Rect)
    ensures r.width == e.size && r.height == e.size
    ensures e.size > 0 ==> Contains(r, e.x, e.y)
  {
    var half := e.size / 2;
    Rect(e.x - half, e.y - half, e.size, e.size)
  }

  /** `Enemy.is_off_screen`: the centre has passed below the bottom edge by more than a size. */
  predicate EnemyOffScreen(e: Enemy)
  {
    e.y > ScreenHeight + e.size
  }

  /** `Enemy.update`: fall by `speed` pixels (the spin angle is cosmetic). */
  function MoveEnemy(e: Enemy, speed: int): Enemy
  {
    e.(y := e.y + speed)
  }

  /** An enemy counted as off screen can no longer be seen: its box lies below the screen. */
  lemma OffScreenEnemyIsBelowScreen(e: Enemy)
    requires e.size >= 0
    requires EnemyOffScreen(e)
    ensures EnemyRect(e).top > ScreenHeight
    ensures !Overlaps(EnemyRect(e), Screen)
  {
    OutsideScreen(EnemyRect(e));
  }

  // ---------------------------------------------------------------- Laser

  const LaserSpeed: int := 15
  const LaserWidth: int := 4
  const LaserHeight: int := 20

  /** A player's laser: (x, y) is the middle of its top edge. */
  datatype Laser = Laser(x: int, y: int)

  /** `Laser.get_rect`. */
  function LaserRect(l: Laser): (r: Rect)
    ensures r.width == LaserWidth && r.height == LaserHeight && r.top == l.y
    ensures Contains(r, l.x, l.y)
  {
    Rect(l.x - LaserWidth / 2, l.y, LaserWidth, LaserHeight)
  }

  /** `Laser.is_off_screen`: the whole beam has left through the top edge. */
  predicate LaserOffScreen(l: Laser)
  {
    l.y < -LaserHeight
  }

  /** `Laser.update`: rise 15 pixels. */
  function MoveLaser(l: Laser): Laser
  {
    l.(y := l.y - LaserSpeed)
  }

  lemma OffScreenLaserIsAboveScreen(l: Laser)
    requires LaserOffScreen(l)
    ensures !Overlaps(LaserRect(l), Screen)
  {
    OutsideScreen(LaserRect(l));
  }

  // ---------------------------------------------------------------- PowerUp

  datatype PowerUpKind = Coin | Shield | Speed | Slowmo | Magnet | Bomb | Rapid | Double | Ammo

  const PowerUpSize: int := 25
  const PowerUpSpawnY: int := -30

  /** The `duration` column of `PowerUp.TYPES`, in frames. */
  function Duration(k: PowerUpKind): nat
  {
    match k
    case Coin => 0
    case Shield => 300
    case Speed => 300
    case Slowmo => 200
    case Magnet => 250
    case Bomb => 0
    case Rapid => 300
    case Double => 400
    case Ammo => 0
  }

  /** The kinds whose effect is a countdown timer (the shield's listed duration is
      unused: shields are a counter, not a timer). */
  predicate Timed(k: PowerUpKind)
  {
    k in {Speed, Slowmo, Magnet, Rapid, Double}
  }

  /** Instant kinds are exactly those listed with duration 0; every timed kind lasts
      between 200 and 400 frames. */
  lemma DurationTable(k: PowerUpKind)
    ensures Duration(k) == 0 <==> k in {Coin, Bomb, Ammo}
    ensures Timed(k) ==> 200 <= Duration(k) <= 400
  {
  }

  /** A power-up centred on (x, y), 25 pixels in radius. */
  datatype PowerUp = PowerUp(x: int, y: int, kind: PowerUpKind)

  function SpawnPowerUp(x: int, kind: PowerUpKind): (p: PowerUp)
    ensures p.x == x && p.kind == kind && p.y + PowerUpSize < 0
  {
    PowerUp(x, PowerUpSpawnY, kind)
  }

  /** `PowerUp.get_rect`: the 50-by-50 box around the centre. */
  function PowerUpRect(p: PowerUp): (r: Rect)
    ensures r.width == 2 * PowerUpSize && r.height == 2 * PowerUpSize
    ensures Contains(r, p.x, p.y)
  {
    Rect(p.x - PowerUpSize, p.y - PowerUpSize, 2 * PowerUpSize, 2 * PowerUpSize)
  }

  /** `PowerUp.is_off_screen`. */
  predicate PowerUpOffScreen(p: PowerUp)
  {
    p.y > ScreenHeight + PowerUpSize
  }

  /** `PowerUp.update`: fall by `step` pixels (half the current enemy speed;
      the bobbing offset is cosmetic). */
  function MovePowerUp(p: PowerUp, step: int): PowerUp
  {
    p.(y := p.y + step)
  }

  lemma OffScreenPowerUpIsBelowScreen(p: PowerUp)
    requires PowerUpOffScreen(p)
    ensures !Overlaps(PowerUpRect(p), Screen)
  {
    OutsideScreen(PowerUpRect(p));
  }

  // ---------------------------------------------------------------- Fire

  const FireSize: int := 15
  const FireLifetime: int := 300
  const FireMargin: int := 50

  /** A boss projectile centred on (x, y) with a fixed velocity and a frame countdown. */
  datatype Fire = Fire(x: int, y: int, vx: int, vy: int, lifetime: int)

  /** The velocity normalisation `(dx / dist) * speed` is floating point; it is given
      to the model as this function of (dx, dy, speed). */
  type Aim = (int, int, int) -> (int, int)

  /** `Fire.__init__`: aimed from (x, y) at (tx, ty). A target on top of the origin
      sends the shot straight down at `speed`. */
  function NewFire(x: int, y: int, tx: int, ty: int, speed: int, aim: Aim): (f: Fire)
    ensures f.x == x && f.y == y && f.lifetime == FireLifetime
    ensures tx == x && ty == y ==> f.vx == 0 && f.vy == speed
    ensures (tx != x || ty != y) ==> (f.vx, f.vy) == aim(tx - x, ty - y, speed)
  {
    var dx, dy := tx - x, ty - y;
    var v := if dx * dx + dy * dy > 0 then aim(dx, dy, speed) else (0, speed);
    Fire(x, y, v.0, v.1, FireLifetime)
  }

  /** `Fire.get_rect`: the 30-by-30 box around the centre. */
  function FireRect(f: Fire): (r: Rect)
    ensures r.width == 2 * FireSize && r.height == 2 * FireSize
    ensures Contains(r, f.x, f.y)
  {
    Rect(f.x - FireSize, f.y - FireSize, 2 * FireSize, 2 * FireSize)
  }

  /** `Fire.is_dead`: its lifetime is spent or it is more than 50 pixels outside the screen. */
  predicate FireDead(f: Fire)
  {
    || f.lifetime <= 0
    || f.x < -FireMargin || f.x > ScreenWidth + FireMargin
    || f.y < -FireMargin || f.y > ScreenHeight + FireMargin
  }

  /** `Fire.update`: one step along the velocity, one frame off the lifetime. */
  function MoveFire(f: Fire): Fire
  {
    Fire(f.x + f.vx, f.y + f.vy, f.vx, f.vy, f.lifetime - 1)
  }

  /** The fire after `n` updates. */
  function MoveFireTimes(f: Fire, n: nat): Fire
    decreases n
  {
    if n == 0 then f else MoveFireTimes(MoveFire(f), n - 1)
  }

  /** After n updates a fire has travelled n velocity steps and lost n frames of lifetime. */
  lemma {:induction false} MoveFireTimesIsLinear(f: Fire, n: nat)
    ensures MoveFireTimes(f, n) == Fire(f.x + n * f.vx, f.y + n * f.vy, f.vx, f.vy, f.lifetime - n)
    decreases n
  {
    if n > 0 {
      MoveFireTimesIsLinear(MoveFire(f), n - 1);
    }
  }

  /** No fire outlives its 300-frame lifetime, wherever it is aimed. */
  lemma FireExpires(x: int, y: int, tx: int, ty: int, speed: int, aim: Aim)
    ensures FireDead(MoveFireTimes(NewFire(x, y, tx, ty, speed, aim), FireLifetime as nat))
  {
    MoveFireTimesIsLinear(NewFire(x, y, tx, ty, speed, aim), FireLifetime as nat);
  }
}
