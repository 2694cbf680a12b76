/** The boss: health, three phases chosen by health thresholds, a fire cooldown, a hit
    flash, and horizontal wandering toward a target re-drawn every 91 frames. */
module BossFight {
  import opened Geometry

  const BossSize: int := 150
  const BossY: int := 100
  const MaxHealth: int := 100
  const BossStartX: int := ScreenWidth / 2
  const BossStep: int := 3
  /** The boss stops approaching its target once within this distance. */
  const CloseEnough: int := 5
  const RetargetAfter: int := 90
  /** `random.randint(100, SCREEN_WIDTH - 100)`: the range a new target is drawn from. */
  const WanderMin: int := 100
  const WanderMax: int := ScreenWidth - 100
  const HitFlashFrames: int := 10

  /** The fire interval of each phase: 60, 40 and 20 frames. */
  function FireRateOf(phase: int): int
  {
    if phase == 3 then 20 else if phase == 2 then 40 else 60
  }

  /** The spin speed of each phase: 1, 2 and 3. */
  function SpinOf(phase: int): int
  {
    if phase == 3 then 3 else if phase == 2 then 2 else 1
  }

  /** The phase `update` leaves: 3 below 30 health, 2 below 60, otherwise unchanged. */
  function PhaseAfter(health: int, phase: int): (p: int)
    ensures health < 30 ==> p == 3
    ensures 30 <= health < 60 ==> p == 2
    ensures health >= 60 ==> p == phase
  {
    if health < 30 then 3 else if health < 60 then 2 else phase
  }

  /** The phase is never ahead of the health: phase 3 only below 30, phase 2 only below 60. */
  predicate PhaseFits(health: int, phase: int)
  {
    1 <= phase <= 3 && (phase == 3 ==> health < 30) && (phase == 2 ==> health < 60)
  }

  /** Once health has fallen, the phase update never goes back a phase, and the new phase
      still fits the health. */
  lemma PhaseNeverDecreases(health: int, phase: int, health': int)
    requires PhaseFits(health, phase) && health' <= health
    ensures PhaseAfter(health', phase) >= phase
    ensures PhaseFits(health', PhaseAfter(health', phase))
  {
  }

  /** The phase after a run of updates at the given (non-increasing) healths. */
  function PhaseAfterAll(healths: seq<int>, phase: int): int
    decreases |healths|
  {
    if healths == [] then phase else PhaseAfterAll(healths[1..], PhaseAfter(healths[0], phase))
  }

  predicate NonIncreasing(healths: seq<int>)
  {
    forall i, j :: 0 <= i < j < |healths| ==> healths[j] <= healths[i]
  }

  /** Over a whole fight in which health only falls, the phase only rises; below 30 the
      boss ends in phase 3, below 60 in phase 2 or 3. */
  lemma {:induction false} PhaseMonotoneOverFight(h0: int, healths: seq<int>, phase: int)
    requires PhaseFits(h0, phase)
    requires NonIncreasing([h0] + healths)
    ensures PhaseAfterAll(healths, phase) >= phase
    ensures healths != [] ==> PhaseFits(healths[|healths| - 1], PhaseAfterAll(healths, phase))
    ensures healths != [] && healths[|healths| - 1] < 30 ==> PhaseAfterAll(healths, phase) == 3
    ensures healths != [] && healths[|healths| - 1] < 60 ==> PhaseAfterAll(healths, phase) >= 2
    decreases |healths|
  {
    if healths != [] {
      var s := [h0] + healths;
      assert s[1] == healths[0] && s[0] == h0;
      var p := PhaseAfter(healths[0], phase);
      PhaseNeverDecreases(h0, phase, healths[0]);
      var rest := healths[1..];
      if rest != [] {
        var s' := [healths[0]] + rest;
        forall i, j | 0 <= i < j < |s'| ensures s'[j] <= s'[i] {
          assert s'[i] == s[i + 1] && s'[j] == s[j + 1];
        }
        assert healths[|healths| - 1] == rest[|rest| - 1];
      }
      PhaseMonotoneOverFight(healths[0], rest, p);
      if rest == [] {
        assert PhaseAfterAll(healths, phase) == p;
      }
    }
  }

  /** One step of wandering: 3 pixels toward the target unless already within 5. */
  function StepToward(x: int, target: int): (r: int)
    ensures (x - target > CloseEnough || target - x > CloseEnough) ==>
      (if x < target then target - r == target - x - BossStep else r - target == x - target - BossStep)
    ensures -CloseEnough <= x - target <= CloseEnough ==> r == x
    ensures (x <= r <= target) || (target <= r <= x)
  {
    if x - target > CloseEnough || target - x > CloseEnough then
      if x < target then x + BossStep else x - BossStep
    else x
  }

  class Boss {
    var x: int
    var targetX: int
    var health: int
    var angle: int
    var spinSpeed: int
    var moveTimer: int
    var fireTimer: int
    var fireRate: int
    var phase: int
    var hitFlash: int

    ghost predicate Valid()
      reads this
    {
      && health <= MaxHealth
      && PhaseFits(health, phase)
      && fireRate == FireRateOf(phase) && spinSpeed == SpinOf(phase)
      && 0 <= moveTimer <= RetargetAfter
      && fireTimer >= 0
      && 0 <= hitFlash <= HitFlashFrames
      && WanderMin <= x <= WanderMax && WanderMin <= targetX <= WanderMax
    }

    /** `Boss.__init__`. */
    constructor ()
      ensures Valid()
      ensures x == BossStartX && targetX == BossStartX && health == MaxHealth && phase == 1
      ensures fireRate == 60 && spinSpeed == 1 && fireTimer == 0 && moveTimer == 0 && hitFlash == 0 && angle == 0
    {
      x := BossStartX;
      targetX := BossStartX;
      health := MaxHealth;
      angle := 0;
      spinSpeed := 1;
      moveTimer := 0;
      fireTimer := 0;
      fireRate := 60;
      phase := 1;
      hitFlash := 0;
    }

    /** `get_rect`: the 150-by-150 box around the boss. */
    function Box(): (r: Rect)
      reads this
      ensures r.width == BossSize && r.height == BossSize
      ensures Contains(r, x, BossY)
    {
      Rect(x - BossSize / 2, BossY - BossSize / 2, BossSize, BossSize)
    }

    /** `update`, once per frame. `wander` is the random target drawn if this frame
        re-targets. */
    method Update(wander: int)
      requires Valid()
      requires WanderMin <= wander <= WanderMax
      modifies this
      ensures Valid()
      ensures angle == old(angle) + old(spinSpeed)
      ensures x == StepToward(old(x), old(targetX))
      ensures old(moveTimer) + 1 > RetargetAfter ==> moveTimer == 0 && targetX == wander
      ensures old(moveTimer) + 1 <= RetargetAfter ==> moveTimer == old(moveTimer) + 1 && targetX == old(targetX)
      ensures phase == PhaseAfter(health, old(phase)) && phase >= old(phase)
      ensures fireRate == FireRateOf(phase) && spinSpeed == SpinOf(phase)
      ensures fireTimer == old(fireTimer) + 1
      ensures hitFlash == (if old(hitFlash) > 0 then old(hitFlash) - 1 else old(hitFlash))
      ensures health == old(health)
    {
      angle := angle + spinSpeed;

      x := StepToward(x, targetX);

      moveTimer := moveTimer + 1;
      if moveTimer > RetargetAfter {
        moveTimer := 0;
        targetX := wander;
      }
      assert WanderMin <= x <= WanderMax && WanderMin <= targetX <= WanderMax;

      if health < 30 {
        phase := 3;
        fireRate := 20;
        spinSpeed := 3;
      } else if health < 60 {
        phase := 2;
        fireRate := 40;
        spinSpeed := 2;
      }
      assert phase == PhaseAfter(health, old(phase)) && PhaseFits(health, phase);

      fireTimer := fireTimer + 1;

      if hitFlash > 0 {
        hitFlash := hitFlash - 1;
      }
    }

    /** `should_fire`: fire, and restart the cooldown, once it reaches the phase's rate. */
    method ShouldFire() returns (fire: bool)
      requires Valid()
      modifies this
      ensures Valid()
      ensures fire <==> old(fireTimer) >= fireRate
      ensures fire ==> fireTimer == 0
      ensures !fire ==> fireTimer == old(fireTimer)
      ensures x == old(x) && targetX == old(targetX) && health == old(health) && phase == old(phase)
      ensures fireRate == old(fireRate) && spinSpeed == old(spinSpeed) && angle == old(angle)
      ensures moveTimer == old(moveTimer) && hitFlash == old(hitFlash)
    {
      if fireTimer >= fireRate {
        fireTimer := 0;
        return true;
      }
      return false;
    }

    /** `take_damage`: lose exactly `amount` health, flash for 10 frames, and report
        whether the boss is defeated. */
    method TakeDamage(amount: nat) returns (defeated: bool)
      requires Valid()
      modifies this
      ensures Valid()
      ensures health == old(health) - amount
      ensures hitFlash == HitFlashFrames
      ensures defeated <==> health <= 0
      ensures x == old(x) && targetX == old(targetX) && phase == old(phase) && fireTimer == old(fireTimer)
      ensures fireRate == old(fireRate) && spinSpeed == old(spinSpeed) && angle == old(angle)
      ensures moveTimer == old(moveTimer)
    {
      health := health - amount;
      hitFlash := HitFlashFrames;
      return health <= 0;
    }
  }
}
