/** The per-frame player and resource rules that the survival loop and the boss loop
    share: countdown timers, the shield counter, ammunition, the combo, the player's
    movement band and hit boxes, and auto-fire. */
module PlayerRules {
  import opened Geometry
  import opened Entities

  const MaxShields: int := 5
  const ComboCap: int := 10
  const ComboWindow: int := 60
  const AmmoPerPickup: int := 10

  const PlayerY: int := ScreenHeight - 100
  const PlayerStartX: int := ScreenWidth / 2 - 25
  const PlayerSize: int := 50
  const BaseSpeed: int := 12
  /** `player_speed * 1.5` with the base speed 12 is exactly 18. */
  const BoostedSpeed: int := 18
  /** The player may step left while x > 0 and right while x < PlayerMaxX. */
  const PlayerMaxX: int := ScreenWidth - PlayerSize

  // ---------------------------------------------------------------- timers

  /** One frame of a countdown: `if t > 0: t -= 1`. */
  function Tick(t: int): (r: int)
    ensures t >= 0 ==> 0 <= r <= t
    ensures r != t <==> t > 0
    ensures r >= t - 1
  {
    if t > 0 then t - 1 else t
  }

  /** A countdown after n frames. */
  function TickTimes(t: int, n: nat): int
    decreases n
  {
    if n == 0 then t else TickTimes(Tick(t), n - 1)
  }

  /** A timer set to d runs down one frame at a time and then rests at 0. */
  lemma {:induction false} TickTimesRemaining(d: nat, n: nat)
    ensures TickTimes(d, n) == if n >= d then 0 else d - n
    decreases n
  {
    if n > 0 {
      TickTimesRemaining(Tick(d), n - 1);
    }
  }

  // ---------------------------------------------------------------- shields

  /** A shield pickup: one more shield, unless the counter is already at its maximum. */
  function AddShield(s: int): (r: int)
    ensures r == s || r == s + 1
    ensures r == s + 1 <==> s < MaxShields
    ensures 0 <= s <= MaxShields ==> 0 <= r <= MaxShields
  {
    if s < MaxShields then s + 1 else s
  }

  /** A hazard touching the player: a shield absorbs it (one shield is spent), or,
      with no shield left, nothing absorbs it and the run ends. */
  function AbsorbHit(s: int): (r: (bool, int))
    ensures r.0 <==> s > 0
    ensures r.0 ==> r.1 == s - 1
    ensures !r.0 ==> r.1 == s
  {
    if s > 0 then (true, s - 1) else (false, s)
  }

  // ---------------------------------------------------------------- ammunition

  /** An ammo pickup: `min(max_ammo, ammo + 10)`. */
  function AmmoPickup(ammo: int, maxAmmo: int): (r: int)
    ensures r <= ammo + AmmoPerPickup
    ensures r == maxAmmo || r == ammo + AmmoPerPickup
    ensures ammo <= maxAmmo ==> ammo <= r <= maxAmmo
  {
    if ammo + AmmoPerPickup < maxAmmo then ammo + AmmoPerPickup else maxAmmo
  }

  // ---------------------------------------------------------------- combo

  /** The combo after a dodge: one more, capped at 10. */
  function ComboUp(combo: int): (r: int)
    ensures combo < ComboCap ==> r == combo + 1
    ensures combo >= ComboCap ==> r == ComboCap
    ensures 0 <= combo ==> 0 < r <= ComboCap
  {
    if combo + 1 < ComboCap then combo + 1 else ComboCap
  }

  /** One frame of the combo clock: the timer runs down, and once it is at 0 the combo is lost. */
  function ComboTick(combo: int, timer: int): (r: (int, int))
    ensures r.1 == Tick(timer)
    ensures timer > 0 ==> r.0 == combo
    ensures timer <= 0 ==> r.0 == 0
  {
    if timer > 0 then (combo, timer - 1) else (0, timer)
  }

  /** The combo clock after n frames without a dodge. */
  function ComboTickTimes(combo: int, timer: int, n: nat): (int, int)
    decreases n
  {
    if n == 0 then (combo, timer)
    else
      var (c, t) := ComboTick(combo, timer);
      ComboTickTimes(c, t, n - 1)
  }

  /** With no dodge for more frames than the timer shows, the combo is 0; before that it is kept. */
  lemma {:induction false} ComboLapses(combo: int, timer: nat, n: nat)
    ensures n > timer ==> ComboTickTimes(combo, timer, n) == (0, 0)
    ensures n <= timer ==> ComboTickTimes(combo, timer, n) == (combo, timer - n)
    decreases n
  {
    if n > 0 {
      var (c, t) := ComboTick(combo, timer);
      ComboLapses(c, t, n - 1);
    }
  }

  /** A coin: `5 * (1 + combo // 2)` points. */
  function CoinValue(combo: int): (r: int)
    requires combo >= 0
    ensures r >= 5 && r % 5 == 0
    ensures combo <= ComboCap ==> r <= 30
  {
    5 * (1 + combo / 2)
  }

  // ---------------------------------------------------------------- player

  /** The player's sprite box, used for power-up pickups in survival mode. */
  function SpriteRect(px: int): Rect
  {
    Rect(px, PlayerY, PlayerSize, PlayerSize)
  }

  /** The slightly smaller box used against enemies and fire. */
  function Hitbox(px: int): Rect
  {
    Rect(px + 5, PlayerY + 5, PlayerSize - 10, PlayerSize - 10)
  }

  /** The hit box lies inside the sprite box: whatever hits the player also touches the sprite. */
  lemma HitboxInsideSprite(px: int, r: Rect)
    ensures Overlaps(Hitbox(px), r) ==> Overlaps(SpriteRect(px), r)
  {
  }

  /** The band the player's x stays in: a step is only taken from inside [0, PlayerMaxX]. */
  predicate InBand(px: int)
  {
    -BoostedSpeed < px < PlayerMaxX + BoostedSpeed
  }

  /** Left, then right, each taken only while the player is not at that edge. */
  function MovePlayer(px: int, left: bool, right: bool, speed: int): (r: int)
    ensures 0 < speed <= BoostedSpeed && InBand(px) ==> InBand(r)
    ensures !left && !right ==> r == px
    ensures left && !right ==> r == if px > 0 then px - speed else px
    ensures right && !left ==> r == if px < PlayerMaxX then px + speed else px
    ensures left && right && px > 0 ==> r == if px - speed < PlayerMaxX then px else px - speed
    ensures left && right && px <= 0 ==> r == if px < PlayerMaxX then px + speed else px
  {
    var x := if left && px > 0 then px - speed else px;
    if right && x < PlayerMaxX then x + speed else x
  }

  // ---------------------------------------------------------------- auto-fire

  /** What one frame of auto-fire does to the cooldown and the ammunition, and the
      lasers it adds. */
  datatype Shot = Shot(fired: bool, ammo: int, cooldown: int, lasers: seq<Laser>)

  /** Fire when the cooldown has run out and there is ammunition: one shot costs 1, a
      double shot costs a second round only if one is left. The cooldown restarts at a
      third of the base under rapid fire. */
  function AutoFire(cooldown: int, ammo: int, rapid: bool, double: bool, baseCooldown: int, px: int): (s: Shot)
    ensures s.fired <==> cooldown <= 0 && ammo > 0
    ensures !s.fired ==> s.ammo == ammo && s.cooldown == cooldown && s.lasers == []
    ensures s.fired ==> s.cooldown == (if rapid then baseCooldown / 3 else baseCooldown)
    ensures s.fired && double ==>
      s.lasers == [Laser(px + PlayerSize / 2 - 15, PlayerY - 10), Laser(px + PlayerSize / 2 + 15, PlayerY - 10)]
    ensures s.fired && !double ==> s.lasers == [Laser(px + PlayerSize / 2, PlayerY - 10)]
    ensures s.fired ==> s.ammo == ammo - (if double && ammo > 1 then 2 else 1)
    ensures ammo >= 0 ==> 0 <= s.ammo <= ammo
  {
    if cooldown <= 0 && ammo > 0 then
      var left := ammo - 1;
      var cd := if rapid then baseCooldown / 3 else baseCooldown;
      var lx, ly := px + PlayerSize / 2, PlayerY - 10;
      if double then
        Shot(true, if left > 0 then left - 1 else left, cd, [Laser(lx - 15, ly), Laser(lx + 15, ly)])
      else
        Shot(true, left, cd, [Laser(lx, ly)])
    else
      Shot(false, ammo, cooldown, [])
  }
}
