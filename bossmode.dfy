/** The boss fight (`boss_game_loop`): the boss wanders, spins and fires volleys whose
    size depends on its phase; enemies and power-ups fall together in one list; the
    player's lasers damage the boss or destroy enemies. The loop's local variables are
    the fields of `Arena`, the boss is a `Boss` object that the frame updates in place,
    and each pass over a list is a method with a loop proved equal to a recursive
    definition of the pass. */
module BossMode {
  import opened Wrappers
  import opened Geometry
  import opened Entities
  import opened PlayerRules
  import opened BossFight
  import Progress

  const BaseCooldown: int := 12
  const StartAmmo: int := 30
  const MaxAmmo: int := 50
  /** Enemies fall 8 pixels a frame; power-ups move at half the speed they are given. */
  const HazardFall: int := 8
  const PickupFall: int := HazardFall / 2
  /** The lists are cut back to these lengths, oldest first, at the start of every frame. */
  const FireCap: nat := 50
  const HazardCap: nat := 30
  const LaserCap: nat := 20
  const BossHitDamage: nat := 2
  const DefeatBonus: int := 100
  const ShotCredit: int := 3
  /** Volleys leave from 75 pixels below the boss's centre and aim at the player's centre. */
  const FireOriginY: int := BossY + 75
  const TargetY: int := PlayerY + 25
  const SpreadX: int := 30
  const AimSpeed: int := 8
  const FanSpeed: int := 10
  /** The fan's angles, -30, 0 and 30, each moved 5 pixels of target per degree. */
  const FanAngles: seq<int> := [-30, 0, 30]
  const FanStep: int := 5

  /** An entry of the shared enemies list: a falling enemy or a power-up. */
  datatype Hazard = Falling(enemy: Enemy) | Pickup(power: PowerUp)

  function MoveHazard(h: Hazard): Hazard
  {
    match h
    case Falling(e) => Falling(MoveEnemy(e, HazardFall))
    case Pickup(p) => Pickup(MovePowerUp(p, PickupFall))
  }

  predicate HazardOffScreen(h: Hazard)
  {
    match h
    case Falling(e) => EnemyOffScreen(e)
    case Pickup(p) => PowerUpOffScreen(p)
  }

  function HazardRect(h: Hazard): Rect
  {
    match h
    case Falling(e) => EnemyRect(e)
    case Pickup(p) => PowerUpRect(p)
  }

  /** The state `boss_game_loop` keeps from frame to frame, besides the boss. */
  datatype Arena = Arena(
    points: int,
    playerX: int,
    hazards: seq<Hazard>,
    lasers: seq<Laser>,
    fires: seq<Fire>,
    shields: int,
    speed: int,
    rapid: int,
    double: int,
    cooldown: int,
    ammo: int)

  const AutoSaveEvery: int := 1800

  const Start: Arena := Arena(0, PlayerStartX, [], [], [], 0, 0, 0, 0, 0, StartAmmo)

  /** The bounds every frame keeps, the list lengths among them: each list is cut back to
      its cap at the start of a frame and grows by at most a few entries during it. */
  predicate ArenaValid(a: Arena)
  {
    && 0 <= a.shields <= MaxShields
    && 0 <= a.ammo <= MaxAmmo
    && 0 <= a.speed <= Duration(Speed) && 0 <= a.rapid <= Duration(Rapid) && 0 <= a.double <= Duration(Double)
    && 0 <= a.cooldown <= BaseCooldown
    && a.points >= 0
    && InBand(a.playerX)
    && |a.fires| <= FireCap + 3 && |a.hazards| <= HazardCap + 2 && |a.lasers| <= LaserCap + 2
  }

  lemma StartIsValid()
    ensures ArenaValid(Start)
  {
  }

  // ---------------------------------------------------------------- caps

  /** The newest `cap` entries of a list, in order. */
  function Newest<T>(s: seq<T>, cap: nat): (t: seq<T>)
    ensures |t| == if |s| > cap then cap else |s|
    ensures t == s[|s| - |t|..]
  {
    if |s| > cap then s[|s| - cap..] else s
  }

  /** `while len(xs) > cap: xs.pop(0)`: keep the newest `cap` entries. */
  method TrimFront<T>(s: seq<T>, cap: nat) returns (t: seq<T>)
    ensures |t| == if |s| > cap then cap else |s|
    ensures t == s[|s| - |t|..]
    ensures t == Newest(s, cap)
  {
    t := s;
    while |t| > cap
      invariant |t| <= |s| && t == s[|s| - |t|..]
      invariant |s| > cap ==> |t| >= cap
      invariant |s| <= cap ==> t == s
      decreases |t|
    {
      t := t[1..];
    }
  }

  // ---------------------------------------------------------------- volleys

  /** The shots the boss adds when it fires: one aimed shot in phase 1, two from 30
      pixels either side of the boss in phase 2, and in phase 3 a fan of three shots at
      speed 10 toward the player's centre and 150 pixels to either side. */
  function Volley(phase: int, bx: int, px: int, aim: Aim): (fs: seq<Fire>)
    requires 1 <= phase <= 3
    ensures |fs| == phase
    ensures forall i :: 0 <= i < |fs| ==> fs[i].y == FireOriginY && fs[i].lifetime == FireLifetime
    ensures phase != 2 ==> forall i :: 0 <= i < |fs| ==> fs[i].x == bx
    ensures phase == 2 ==> fs[0].x == bx - SpreadX && fs[1].x == bx + SpreadX
  {
    var tx := px + PlayerSize / 2;
    if phase == 1 then [NewFire(bx, FireOriginY, tx, TargetY, AimSpeed, aim)]
    else if phase == 2 then
      [NewFire(bx - SpreadX, FireOriginY, tx, TargetY, AimSpeed, aim),
       NewFire(bx + SpreadX, FireOriginY, tx, TargetY, AimSpeed, aim)]
    else
      seq(|FanAngles|, i requires 0 <= i < |FanAngles| =>
        NewFire(bx, FireOriginY, tx + FanAngles[i] * FanStep, TargetY, FanSpeed, aim))
  }

  /** The phase-3 fan aims at the player's centre and 150 pixels to either side of it. */
  lemma FanTargets(bx: int, px: int, aim: Aim)
    ensures Volley(3, bx, px, aim) == [
      NewFire(bx, FireOriginY, px + PlayerSize / 2 - 150, TargetY, FanSpeed, aim),
      NewFire(bx, FireOriginY, px + PlayerSize / 2, TargetY, FanSpeed, aim),
      NewFire(bx, FireOriginY, px + PlayerSize / 2 + 150, TargetY, FanSpeed, aim)]
  {
  }

  /** The fan of phase 3 (`for angle in [-30, 0, 30]`): three shots at speed 10 toward
      the player's centre and 150 pixels to either side. */
  method Fan(bx: int, px: int, aim: Aim) returns (fs: seq<Fire>)
    ensures |fs| == |FanAngles|
    ensures forall i :: 0 <= i < |fs| ==>
      fs[i] == NewFire(bx, FireOriginY, px + PlayerSize / 2 + FanAngles[i] * FanStep, TargetY, FanSpeed, aim)
    ensures fs == Volley(3, bx, px, aim)
  {
    fs := [];
    for i := 0 to |FanAngles|
      invariant |fs| == i
      invariant forall j :: 0 <= j < i ==>
        fs[j] == NewFire(bx, FireOriginY, px + PlayerSize / 2 + FanAngles[j] * FanStep, TargetY, FanSpeed, aim)
    {
      var tx := px + PlayerSize / 2 + FanAngles[i] * FanStep;
      fs := fs + [NewFire(bx, FireOriginY, tx, TargetY, FanSpeed, aim)];
    }
  }

  // ---------------------------------------------------------------- fire

  /** What the fire pass leaves: the fires, the shields, and whether the run ended. */
  datatype Scorch = Scorch(fires: seq<Fire>, shields: int, caught: bool)

  /** The fire pass: each fire moves; a spent one is dropped; one touching the hit box
      costs a shield and is removed, or, with no shield left, ends the run. */
  function Burns(fs: seq<Fire>, hb: Rect, shields: int): Scorch
    decreases |fs|
  {
    if fs == [] then Scorch([], shields, false)
    else
      var f := MoveFire(fs[0]);
      if FireDead(f) then Burns(fs[1..], hb, shields)
      else if Overlaps(hb, FireRect(f)) then
        var (absorbed, left) := AbsorbHit(shields);
        if absorbed then Burns(fs[1..], hb, left)
        else Scorch([f] + fs[1..], shields, true)
      else
        var s := Burns(fs[1..], hb, shields);
        s.(fires := [f] + s.fires)
  }

  /** How many fires are still alive after moving and touch the box. */
  function Scorching(fs: seq<Fire>, hb: Rect): nat
    decreases |fs|
  {
    if fs == [] then 0
    else
      var f := MoveFire(fs[0]);
      (if !FireDead(f) && Overlaps(hb, FireRect(f)) then 1 else 0) + Scorching(fs[1..], hb)
  }

  /** The moved fires that are alive and miss the box, in order. */
  function Smoulder(fs: seq<Fire>, hb: Rect): seq<Fire>
    decreases |fs|
  {
    if fs == [] then []
    else
      var f := MoveFire(fs[0]);
      (if !FireDead(f) && !Overlaps(hb, FireRect(f)) then [f] else []) + Smoulder(fs[1..], hb)
  }

  /** The fire pass ends the run exactly when more live fires touch the player than there
      are shields, and then with no shield left; otherwise one shield goes per touching
      fire and exactly the live fires that miss remain. */
  lemma {:induction false} BurnsCharacterised(fs: seq<Fire>, hb: Rect, shields: nat)
    ensures Burns(fs, hb, shields).caught <==> Scorching(fs, hb) > shields
    ensures Burns(fs, hb, shields).caught ==> Burns(fs, hb, shields).shields == 0
    ensures !Burns(fs, hb, shields).caught ==>
      && Burns(fs, hb, shields).shields == shields - Scorching(fs, hb)
      && Burns(fs, hb, shields).fires == Smoulder(fs, hb)
    ensures |Burns(fs, hb, shields).fires| <= |fs|
    decreases |fs|
  {
    if fs != [] {
      var f := MoveFire(fs[0]);
      if FireDead(f) {
        BurnsCharacterised(fs[1..], hb, shields);
      } else if Overlaps(hb, FireRect(f)) {
        if shields > 0 {
          BurnsCharacterised(fs[1..], hb, shields - 1);
        }
      } else {
        BurnsCharacterised(fs[1..], hb, shields);
      }
    }
  }

  method FirePass(fs: seq<Fire>, hb: Rect, shields0: int) returns (s: Scorch)
    ensures s == Burns(fs, hb, shields0)
  {
    var kept: seq<Fire> := [];
    var shields := shields0;
    var i := 0;
    while i < |fs|
      invariant 0 <= i <= |fs|
      invariant Burns(fs[i..], hb, shields).caught == Burns(fs, hb, shields0).caught
      invariant Burns(fs[i..], hb, shields).shields == Burns(fs, hb, shields0).shields
      invariant kept + Burns(fs[i..], hb, shields).fires == Burns(fs, hb, shields0).fires
    {
      assert fs[i..][0] == fs[i] && fs[i..][1..] == fs[i + 1..];
      var f := MoveFire(fs[i]);
      if !FireDead(f) {
        if Overlaps(hb, FireRect(f)) {
          var hit := AbsorbHit(shields);
          if hit.0 {
            shields := hit.1;
          } else {
            assert kept + ([f] + fs[i + 1..]) == (kept + [f]) + fs[i + 1..];
            return Scorch(kept + [f] + fs[i + 1..], shields, true);
          }
        } else {
          assert kept + ([f] + Burns(fs[i + 1..], hb, shields).fires) == (kept + [f]) + Burns(fs[i + 1..], hb, shields).fires;
          kept := kept + [f];
        }
      }
      i := i + 1;
    }
    assert fs[|fs|..] == [];
    s := Scorch(kept, shields, false);
  }

  // ---------------------------------------------------------------- falling

  /** The hazard pass: every entry falls; one that has left the bottom is removed and
      scores 1 (power-ups included, since they share the list), the others stay. */
  function Descend(hs: seq<Hazard>): (seq<Hazard>, nat)
    decreases |hs|
  {
    if hs == [] then ([], 0)
    else
      var h := MoveHazard(hs[0]);
      var d := Descend(hs[1..]);
      if HazardOffScreen(h) then (d.0, d.1 + 1) else ([h] + d.0, d.1)
  }

  /** Every entry of the list, moved one frame. */
  function MovedAll(hs: seq<Hazard>): (r: seq<Hazard>)
    ensures |r| == |hs| && forall i :: 0 <= i < |hs| ==> r[i] == MoveHazard(hs[i])
  {
    seq(|hs|, i requires 0 <= i < |hs| => MoveHazard(hs[i]))
  }

  /** The entries still on screen, in order. */
  function OnScreen(hs: seq<Hazard>): seq<Hazard>
    decreases |hs|
  {
    if hs == [] then [] else (if HazardOffScreen(hs[0]) then [] else [hs[0]]) + OnScreen(hs[1..])
  }

  /** How many entries have left the screen. */
  function OffScreenCount(hs: seq<Hazard>): nat
    decreases |hs|
  {
    if hs == [] then 0 else (if HazardOffScreen(hs[0]) then 1 else 0) + OffScreenCount(hs[1..])
  }

  /** The pass keeps exactly the moved entries still on screen, in order, and scores one
      point per moved entry that has left; every entry is one or the other. */
  lemma {:induction false} DescendAccounts(hs: seq<Hazard>)
    ensures Descend(hs).0 == OnScreen(MovedAll(hs))
    ensures Descend(hs).1 == OffScreenCount(MovedAll(hs))
    ensures |Descend(hs).0| + Descend(hs).1 == |hs|
    ensures forall i :: 0 <= i < |Descend(hs).0| ==> !HazardOffScreen(Descend(hs).0[i])
    decreases |hs|
  {
    if hs != [] {
      var m := MovedAll(hs);
      assert m[0] == MoveHazard(hs[0]) && m[1..] == MovedAll(hs[1..]);
      DescendAccounts(hs[1..]);
    }
  }

  /** A power-up that falls out of the bottom scores like a dodged enemy. */
  lemma MissedPickupScores(p: PowerUp)
    requires PowerUpOffScreen(MovePowerUp(p, PickupFall))
    ensures Descend([Pickup(p)]) == ([], 1)
  {
    assert [Pickup(p)][1..] == [];
  }

  method DescendPass(hs: seq<Hazard>) returns (kept: seq<Hazard>, left: nat)
    ensures kept == Descend(hs).0 && left == Descend(hs).1
  {
    kept, left := [], 0;
    var i := 0;
    while i < |hs|
      invariant 0 <= i <= |hs|
      invariant kept + Descend(hs[i..]).0 == Descend(hs).0
      invariant left + Descend(hs[i..]).1 == Descend(hs).1
    {
      assert hs[i..][0] == hs[i] && hs[i..][1..] == hs[i + 1..];
      var h := MoveHazard(hs[i]);
      if HazardOffScreen(h) {
        left := left + 1;
      } else {
        assert kept + ([h] + Descend(hs[i + 1..]).0) == (kept + [h]) + Descend(hs[i + 1..]).0;
        kept := kept + [h];
      }
      i := i + 1;
    }
    assert hs[|hs|..] == [];
  }

  // ---------------------------------------------------------------- lasers

  /** The index of the first enemy (power-ups are passed through) the box touches, or -1. */
  function FirstEnemyHit(r: Rect, hs: seq<Hazard>): (k: int)
    ensures -1 <= k < |hs|
    ensures k >= 0 ==> hs[k].Falling? && Overlaps(r, EnemyRect(hs[k].enemy))
    ensures forall j :: 0 <= j < |hs| && (k < 0 || j < k) && hs[j].Falling? ==> !Overlaps(r, EnemyRect(hs[j].enemy))
    decreases |hs|
  {
    if hs == [] then -1
    else if hs[0].Falling? && Overlaps(r, EnemyRect(hs[0].enemy)) then 0
    else
      var k := FirstEnemyHit(r, hs[1..]);
      if k < 0 then -1 else k + 1
  }

  /** The first-enemy search has one answer. */
  lemma FirstEnemyHitIsFirst(r: Rect, hs: seq<Hazard>, k: int)
    requires -1 <= k < |hs|
    requires k >= 0 ==> hs[k].Falling? && Overlaps(r, EnemyRect(hs[k].enemy))
    requires forall j :: 0 <= j < |hs| && (k < 0 || j < k) && hs[j].Falling? ==> !Overlaps(r, EnemyRect(hs[j].enemy))
    ensures k == FirstEnemyHit(r, hs)
  {
    var f := FirstEnemyHit(r, hs);
    if f >= 0 && k >= 0 {
      assert !(f < k) && !(k < f);
    }
  }

  method FindEnemyHit(r: Rect, hs: seq<Hazard>) returns (k: int)
    ensures k == FirstEnemyHit(r, hs)
  {
    k := -1;
    var j := 0;
    while j < |hs|
      invariant 0 <= j <= |hs|
      invariant forall m :: 0 <= m < j && hs[m].Falling? ==> !Overlaps(r, EnemyRect(hs[m].enemy))
    {
      if hs[j].Pickup? {
        j := j + 1;
        continue;
      }
      if Overlaps(r, EnemyRect(hs[j].enemy)) {
        k := j;
        break;
      }
      j := j + 1;
    }
    FirstEnemyHitIsFirst(r, hs, k);
  }

  /** What the laser pass leaves: the lasers, the list, the hits on the boss, the enemies
      destroyed, and whether the boss fell. */
  datatype Barrage = Barrage(lasers: seq<Laser>, hazards: seq<Hazard>, bossHits: nat, kills: nat, defeated: bool)

  /** The laser pass: each laser rises; one that left the top is dropped; one touching the
      boss is used up and costs it 2 health (the pass stops if that defeats it); any other
      destroys the first enemy it touches and is used up; the rest stay in order. */
  function Volleys(ls: seq<Laser>, hs: seq<Hazard>, box: Rect, health: int): Barrage
    decreases |ls|
  {
    if ls == [] then Barrage([], hs, 0, 0, false)
    else
      var l := MoveLaser(ls[0]);
      if LaserOffScreen(l) then Volleys(ls[1..], hs, box, health)
      else if Overlaps(LaserRect(l), box) then
        if health - BossHitDamage <= 0 then Barrage([], hs, 1, 0, true)
        else
          var b := Volleys(ls[1..], hs, box, health - BossHitDamage);
          b.(bossHits := b.bossHits + 1)
      else
        var k := FirstEnemyHit(LaserRect(l), hs);
        if k < 0 then
          var b := Volleys(ls[1..], hs, box, health);
          b.(lasers := [l] + b.lasers)
        else
          var b := Volleys(ls[1..], hs[..k] + hs[k + 1..], box, health);
          b.(kills := b.kills + 1)
  }

  /** The power-ups in the list, in order. */
  function Pickups(hs: seq<Hazard>): seq<PowerUp>
    decreases |hs|
  {
    if hs == [] then [] else (if hs[0].Pickup? then [hs[0].power] else []) + Pickups(hs[1..])
  }

  lemma {:induction false} PickupsAppend(a: seq<Hazard>, b: seq<Hazard>)
    ensures Pickups(a + b) == Pickups(a) + Pickups(b)
    decreases |a|
  {
    if a == [] {
      assert a + b == b;
    } else {
      assert (a + b)[0] == a[0] && (a + b)[1..] == a[1..] + b;
      PickupsAppend(a[1..], b);
    }
  }

  /** Removing an enemy leaves the power-ups as they were. */
  lemma PickupsWithoutEnemy(hs: seq<Hazard>, k: int)
    requires 0 <= k < |hs| && hs[k].Falling?
    ensures Pickups(hs[..k] + hs[k + 1..]) == Pickups(hs)
  {
    var front, back := hs[..k], hs[k + 1..];
    var tail := [hs[k]] + back;
    assert tail[0] == hs[k] && tail[1..] == back;
    assert Pickups(tail) == Pickups(back);
    assert hs == front + tail;
    PickupsAppend(front, tail);
    PickupsAppend(front, back);
  }

  /** Every laser that connects is used up; each kill removes exactly one enemy and the
      power-ups are untouched (lasers pass through them); a living boss falls exactly
      when its hits bring its health to 0 or below. */
  lemma {:induction false} VolleysAccount(ls: seq<Laser>, hs: seq<Hazard>, box: Rect, health: int)
    ensures |Volleys(ls, hs, box, health).hazards| + Volleys(ls, hs, box, health).kills == |hs|
    ensures |Volleys(ls, hs, box, health).lasers| + Volleys(ls, hs, box, health).bossHits
            + Volleys(ls, hs, box, health).kills <= |ls|
    ensures Pickups(Volleys(ls, hs, box, health).hazards) == Pickups(hs)
    ensures health > 0 ==>
      (Volleys(ls, hs, box, health).defeated <==> health - BossHitDamage * Volleys(ls, hs, box, health).bossHits <= 0)
    decreases |ls|
  {
    if ls != [] {
      var l := MoveLaser(ls[0]);
      if LaserOffScreen(l) {
        VolleysAccount(ls[1..], hs, box, health);
      } else if Overlaps(LaserRect(l), box) {
        if health - BossHitDamage > 0 {
          VolleysAccount(ls[1..], hs, box, health - BossHitDamage);
        }
      } else {
        var k := FirstEnemyHit(LaserRect(l), hs);
        if k < 0 {
          VolleysAccount(ls[1..], hs, box, health);
        } else {
          VolleysAccount(ls[1..], hs[..k] + hs[k + 1..], box, health);
          PickupsWithoutEnemy(hs, k);
        }
      }
    }
  }

  /** The pass's result once the lasers kept, the boss hits and the kills so far are
      put in front of what the remaining lasers do. */
  function After(kept: seq<Laser>, hits: nat, kills: nat, b: Barrage): Barrage
  {
    b.(lasers := kept + b.lasers, bossHits := hits + b.bossHits, kills := kills + b.kills)
  }

  /** The laser loop: boss hits go through `take_damage(2)`, and each destroyed enemy
      scores 3. */
  method LaserPass(boss: Boss, ls: seq<Laser>, hs0: seq<Hazard>, points0: int)
    returns (kept: seq<Laser>, hs: seq<Hazard>, points: int, defeated: bool)
    requires boss.Valid()
    modifies boss
    ensures boss.Valid()
    ensures var b := Volleys(ls, hs0, old(boss.Box()), old(boss.health));
      && kept == b.lasers && hs == b.hazards && defeated == b.defeated
      && points == points0 + ShotCredit * b.kills
      && boss.health == old(boss.health) - BossHitDamage * b.bossHits
    ensures boss.x == old(boss.x) && boss.phase == old(boss.phase) && boss.targetX == old(boss.targetX)
  {
    ghost var box := boss.Box();
    ghost var h0 := boss.health;
    kept, hs, points, defeated := [], hs0, points0, false;
    ghost var hits: nat, kills: nat := 0, 0;
    var i := 0;
    while i < |ls|
      invariant 0 <= i <= |ls|
      invariant boss.Valid() && boss.Box() == box
      invariant boss.x == old(boss.x) && boss.phase == old(boss.phase) && boss.targetX == old(boss.targetX)
      invariant boss.health == h0 - BossHitDamage * hits
      invariant points == points0 + ShotCredit * kills
      invariant After(kept, hits, kills, Volleys(ls[i..], hs, box, boss.health)) == Volleys(ls, hs0, box, h0)
    {
      assert ls[i..][0] == ls[i] && ls[i..][1..] == ls[i + 1..];
      var l := MoveLaser(ls[i]);
      if LaserOffScreen(l) {
        i := i + 1;
        continue;
      }
      if Overlaps(LaserRect(l), boss.Box()) {
        defeated := boss.TakeDamage(BossHitDamage);
        hits := hits + 1;
        if defeated {
          assert ls[i + 1..] + [] == ls[i + 1..];
          return;
        }
        i := i + 1;
        continue;
      }
      var k := FindEnemyHit(LaserRect(l), hs);
      if k < 0 {
        assert kept + ([l] + Volleys(ls[i + 1..], hs, box, boss.health).lasers)
          == (kept + [l]) + Volleys(ls[i + 1..], hs, box, boss.health).lasers;
        kept := kept + [l];
      } else {
        hs := hs[..k] + hs[k + 1..];
        kills := kills + 1;
        points := points + ShotCredit;
      }
      i := i + 1;
    }
    assert ls[|ls|..] == [];
  }

  // ---------------------------------------------------------------- contact

  /** A power-up collected in the boss fight: a shield (up to 5), a 300-frame speed boost,
      300 frames of rapid fire, 400 frames of double shot, or ten rounds (up to 50). The
      other kinds are never dropped here and do nothing. */
  function Grant(a: Arena, k: PowerUpKind): (a': Arena)
    ensures a'.points == a.points && a'.playerX == a.playerX && a'.cooldown == a.cooldown
    ensures a'.hazards == a.hazards && a'.lasers == a.lasers && a'.fires == a.fires
  {
    match k
    case Shield => a.(shields := AddShield(a.shields))
    case Speed => a.(speed := 300)
    case Rapid => a.(rapid := 300)
    case Double => a.(double := 400)
    case Ammo => a.(ammo := AmmoPickup(a.ammo, MaxAmmo))
    case _ => a
  }

  /** The boss fight's countdowns are the same as the power-up table's durations, and
      granting keeps every bound. Each kind changes its own field only: a shield or ammo
      by the saturating pickup rule, a timer by its duration. */
  lemma GrantKeepsValid(a: Arena, k: PowerUpKind)
    requires ArenaValid(a)
    ensures ArenaValid(Grant(a, k))
    ensures k == Speed ==> Grant(a, k).speed == Duration(Speed)
    ensures k == Rapid ==> Grant(a, k).rapid == Duration(Rapid)
    ensures k == Double ==> Grant(a, k).double == Duration(Double)
    ensures Grant(a, k).shields >= a.shields
    ensures k == Shield ==> Grant(a, k).shields == AddShield(a.shields)
    ensures k == Ammo ==> Grant(a, k).ammo == AmmoPickup(a.ammo, MaxAmmo)
    ensures k != Shield ==> Grant(a, k).shields == a.shields
    ensures k != Speed ==> Grant(a, k).speed == a.speed
    ensures k != Rapid ==> Grant(a, k).rapid == a.rapid
    ensures k != Double ==> Grant(a, k).double == a.double
    ensures k != Ammo ==> Grant(a, k).ammo == a.ammo
  {
  }

  /** What the contact pass leaves. */
  datatype Touch = Touch(hazards: seq<Hazard>, arena: Arena, caught: bool)

  /** The contact pass against the hit box: a power-up is collected and removed; an enemy
      costs a shield and is removed, or, with no shield left, ends the run. */
  function Touches(hs: seq<Hazard>, hb: Rect, a: Arena): Touch
    decreases |hs|
  {
    if hs == [] then Touch([], a, false)
    else if Overlaps(hb, HazardRect(hs[0])) then
      match hs[0]
      case Pickup(p) => Touches(hs[1..], hb, Grant(a, p.kind))
      case Falling(_) =>
        var (absorbed, left) := AbsorbHit(a.shields);
        if absorbed then Touches(hs[1..], hb, a.(shields := left))
        else Touch(hs, a, true)
    else
      var t := Touches(hs[1..], hb, a);
      t.(hazards := [hs[0]] + t.hazards)
  }

  /** The contact pass keeps every bound, never changes the score, and ends the run only
      with no shield left; power-ups alone never end it. */
  lemma {:induction false} TouchesKeepValid(hs: seq<Hazard>, hb: Rect, a: Arena)
    requires ArenaValid(a)
    ensures ArenaValid(Touches(hs, hb, a).arena)
    ensures Touches(hs, hb, a).arena.points == a.points
    ensures Touches(hs, hb, a).arena.playerX == a.playerX
    ensures Touches(hs, hb, a).arena.cooldown == a.cooldown
    ensures Touches(hs, hb, a).arena.lasers == a.lasers && Touches(hs, hb, a).arena.fires == a.fires
    ensures Touches(hs, hb, a).caught ==> Touches(hs, hb, a).arena.shields == 0
    ensures |Touches(hs, hb, a).hazards| <= |hs|
    ensures (forall i :: 0 <= i < |hs| ==> hs[i].Pickup?) ==> !Touches(hs, hb, a).caught
    decreases |hs|
  {
    if hs != [] {
      assert forall i :: 0 <= i < |hs[1..]| ==> hs[1..][i] == hs[i + 1];
      if Overlaps(hb, HazardRect(hs[0])) {
        match hs[0]
        case Pickup(p) =>
          GrantKeepsValid(a, p.kind);
          TouchesKeepValid(hs[1..], hb, Grant(a, p.kind));
        case Falling(_) =>
          if a.shields > 0 {
            TouchesKeepValid(hs[1..], hb, a.(shields := a.shields - 1));
          }
      } else {
        TouchesKeepValid(hs[1..], hb, a);
      }
    }
  }

  /** The entries that do not touch the box, in order. */
  function Clear(hs: seq<Hazard>, hb: Rect): seq<Hazard>
    decreases |hs|
  {
    if hs == [] then [] else (if Overlaps(hb, HazardRect(hs[0])) then [] else [hs[0]]) + Clear(hs[1..], hb)
  }

  /** How many enemies (power-ups aside) touch the box. */
  function EnemiesTouching(hs: seq<Hazard>, hb: Rect): nat
    decreases |hs|
  {
    if hs == [] then 0
    else (if hs[0].Falling? && Overlaps(hb, HazardRect(hs[0])) then 1 else 0) + EnemiesTouching(hs[1..], hb)
  }

  /** No power-up of the list touches the box. */
  predicate NoPickupTouching(hs: seq<Hazard>, hb: Rect)
  {
    forall i :: 0 <= i < |hs| && hs[i].Pickup? ==> !Overlaps(hb, HazardRect(hs[i]))
  }

  /** A pass that does not end the run removes exactly the touching entries and keeps the
      rest in order; one that ends it does so on a touching enemy with no shield left.
      When no power-up touches, the run ends exactly when more enemies touch than there
      are shields, and otherwise one shield goes per touching enemy and nothing else
      changes. */
  lemma {:induction false} TouchesCharacterised(hs: seq<Hazard>, hb: Rect, a: Arena)
    requires a.shields >= 0
    ensures !Touches(hs, hb, a).caught ==> Touches(hs, hb, a).hazards == Clear(hs, hb)
    ensures Touches(hs, hb, a).caught ==> Touches(hs, hb, a).arena.shields == 0 && EnemiesTouching(hs, hb) > 0
    ensures NoPickupTouching(hs, hb) ==> (Touches(hs, hb, a).caught <==> EnemiesTouching(hs, hb) > a.shields)
    ensures NoPickupTouching(hs, hb) && !Touches(hs, hb, a).caught ==>
      Touches(hs, hb, a).arena == a.(shields := a.shields - EnemiesTouching(hs, hb))
    ensures NoPickupTouching(hs, hb) && Touches(hs, hb, a).caught ==> Touches(hs, hb, a).arena == a.(shields := 0)
    decreases |hs|
  {
    if hs != [] {
      var rest := hs[1..];
      assert NoPickupTouching(hs, hb) ==> NoPickupTouching(rest, hb) by {
        if NoPickupTouching(hs, hb) {
          forall i | 0 <= i < |rest| && rest[i].Pickup? ensures !Overlaps(hb, HazardRect(rest[i])) {
            assert rest[i] == hs[i + 1];
          }
        }
      }
      if Overlaps(hb, HazardRect(hs[0])) {
        match hs[0]
        case Pickup(p) =>
          TouchesCharacterised(rest, hb, Grant(a, p.kind));
        case Falling(_) =>
          if a.shields > 0 {
            TouchesCharacterised(rest, hb, a.(shields := a.shields - 1));
          }
      } else {
        TouchesCharacterised(rest, hb, a);
      }
    }
  }

  /** Scenarios: one touching enemy with two shields leaves one shield and removes the
      enemy; with no shield it ends the run. */
  lemma OneTouch(e: Enemy, hb: Rect, a: Arena)
    requires Overlaps(hb, EnemyRect(e))
    ensures Touches([Falling(e)], hb, a.(shields := 2)) == Touch([], a.(shields := 1), false)
    ensures Touches([Falling(e)], hb, a.(shields := 0)) == Touch([Falling(e)], a.(shields := 0), true)
  {
    assert [Falling(e)][1..] == [];
  }

  method TouchPass(hs: seq<Hazard>, hb: Rect, a0: Arena) returns (t: Touch)
    ensures t == Touches(hs, hb, a0)
  {
    var kept: seq<Hazard> := [];
    var a := a0;
    var i := 0;
    while i < |hs|
      invariant 0 <= i <= |hs|
      invariant Touches(hs[i..], hb, a).caught == Touches(hs, hb, a0).caught
      invariant Touches(hs[i..], hb, a).arena == Touches(hs, hb, a0).arena
      invariant kept + Touches(hs[i..], hb, a).hazards == Touches(hs, hb, a0).hazards
    {
      assert hs[i..][0] == hs[i] && hs[i..][1..] == hs[i + 1..];
      var h := hs[i];
      if Overlaps(hb, HazardRect(h)) {
        if h.Pickup? {
          a := Grant(a, h.power.kind);
        } else if AbsorbHit(a.shields).0 {
          a := a.(shields := AbsorbHit(a.shields).1);
        } else {
          return Touch(kept + hs[i..], a, true);
        }
      } else {
        assert kept + ([h] + Touches(hs[i + 1..], hb, a).hazards) == (kept + [h]) + Touches(hs[i + 1..], hb, a).hazards;
        kept := kept + [h];
      }
      i := i + 1;
    }
    assert hs[|hs|..] == [];
    t := Touch(kept, a, false);
  }

  // ---------------------------------------------------------------- one frame

  /** How the frame's events end: no pause, the pause menu resumed or quit, or the
      window closed. */
  datatype PauseChoice = NoPause | PauseThenResume | PauseThenQuit | WindowClosed

  /** The random draws and the player's input for one frame: the boss's new wander
      target (used only on a frame that re-targets), a new enemy (x, size), a new
      power-up (x, kind), the direction keys and the pause menu's result. */
  datatype FrameInput = FrameInput(
    wander: int,
    enemySpawn: Option<(int, int)>,
    powerSpawn: Option<(int, PowerUpKind)>,
    left: bool,
    right: bool,
    pause: PauseChoice)

  /** The kinds the boss fight drops. */
  predicate BossDrop(k: PowerUpKind)
  {
    k == Shield || k == Speed || k == Rapid || k == Double || k == Ammo
  }

  predicate WellFormed(input: FrameInput)
  {
    && WanderMin <= input.wander <= WanderMax
    && (input.enemySpawn.Some? ==>
          && 50 <= input.enemySpawn.value.0 <= ScreenWidth - 50
          && EnemyMinSize <= input.enemySpawn.value.1 <= EnemyMaxSize)
    && (input.powerSpawn.Some? ==>
          50 <= input.powerSpawn.value.0 <= ScreenWidth - 50 && BossDrop(input.powerSpawn.value.1))
  }

  /** Where a frame leaves the fight. */
  datatype Outcome = Playing | Caught | Victory | Quit | Closed

  /** The caps on the lists, then the countdowns. */
  method Prepare(a: Arena) returns (a': Arena)
    requires ArenaValid(a)
    ensures ArenaValid(a')
    ensures |a'.fires| <= FireCap && |a'.hazards| <= HazardCap && |a'.lasers| <= LaserCap
    ensures a' == a.(fires := Newest(a.fires, FireCap), hazards := Newest(a.hazards, HazardCap),
                     lasers := Newest(a.lasers, LaserCap), speed := Tick(a.speed), rapid := Tick(a.rapid),
                     double := Tick(a.double), cooldown := Tick(a.cooldown))
  {
    var fires := TrimFront(a.fires, FireCap);
    var hazards := TrimFront(a.hazards, HazardCap);
    var lasers := TrimFront(a.lasers, LaserCap);
    a' := a.(fires := fires, hazards := hazards, lasers := lasers,
             speed := Tick(a.speed), rapid := Tick(a.rapid), double := Tick(a.double), cooldown := Tick(a.cooldown));
  }

  /** The boss's turn: it moves and, when its fire timer has reached the phase's rate,
      fires the phase's volley at the player. */
  method BossTurn(boss: Boss, a: Arena, wander: int, aim: Aim) returns (a': Arena, fired: bool)
    requires boss.Valid() && WanderMin <= wander <= WanderMax
    requires ArenaValid(a) && |a.fires| <= FireCap
    modifies boss
    ensures boss.Valid() && boss.health == old(boss.health)
    ensures boss.angle == old(boss.angle) + old(boss.spinSpeed)
    ensures boss.x == StepToward(old(boss.x), old(boss.targetX))
    ensures old(boss.moveTimer) + 1 > RetargetAfter ==> boss.moveTimer == 0 && boss.targetX == wander
    ensures old(boss.moveTimer) + 1 <= RetargetAfter ==>
      boss.moveTimer == old(boss.moveTimer) + 1 && boss.targetX == old(boss.targetX)
    ensures boss.phase == PhaseAfter(old(boss.health), old(boss.phase))
    ensures boss.fireRate == FireRateOf(boss.phase) && boss.spinSpeed == SpinOf(boss.phase)
    ensures boss.hitFlash == (if old(boss.hitFlash) > 0 then old(boss.hitFlash) - 1 else old(boss.hitFlash))
    ensures fired <==> old(boss.fireTimer) + 1 >= boss.fireRate
    ensures boss.fireTimer == if fired then 0 else old(boss.fireTimer) + 1
    ensures a' == a.(fires := a.fires + if fired then Volley(boss.phase, boss.x, a.playerX, aim) else [])
    ensures ArenaValid(a') && |a.fires| <= |a'.fires| <= |a.fires| + 3
  {
    boss.Update(wander);
    fired := boss.ShouldFire();
    a' := a;
    if fired {
      var volley;
      if boss.phase == 1 {
        volley := [NewFire(boss.x, FireOriginY, a.playerX + PlayerSize / 2, TargetY, AimSpeed, aim)];
      } else if boss.phase == 2 {
        volley := [NewFire(boss.x - SpreadX, FireOriginY, a.playerX + PlayerSize / 2, TargetY, AimSpeed, aim),
                   NewFire(boss.x + SpreadX, FireOriginY, a.playerX + PlayerSize / 2, TargetY, AimSpeed, aim)];
      } else {
        volley := Fan(boss.x, a.playerX, aim);
      }
      a' := a.(fires := a.fires + volley);
    }
  }

  /** The list with this frame's new enemy, if one is drawn, at its end. */
  function WithSpawn(hs: seq<Hazard>, spawn: Option<(int, int)>): seq<Hazard>
    requires spawn.Some? ==> EnemyMinSize <= spawn.value.1 <= EnemyMaxSize
  {
    if spawn.Some? then hs + [Falling(SpawnEnemy(spawn.value.0, spawn.value.1))] else hs
  }

  /** The hazards' turn: a new enemy, the fall, then the lasers. The score grows by
      exactly one point per entry that left the bottom and three per enemy destroyed. */
  method Strike(boss: Boss, a: Arena, input: FrameInput)
    returns (a': Arena, defeated: bool, ghost dodged: nat, ghost destroyed: nat)
    requires boss.Valid() && boss.health > 0
    requires ArenaValid(a) && WellFormed(input) && |a.hazards| <= HazardCap && |a.lasers| <= LaserCap
    modifies boss
    ensures boss.Valid() && boss.health <= old(boss.health) && boss.x == old(boss.x)
    ensures boss.phase == old(boss.phase) && boss.fireRate == old(boss.fireRate)
    ensures defeated <==> boss.health <= 0
    ensures ArenaValid(a') && |a'.hazards| <= HazardCap + 1 && |a'.lasers| <= LaserCap
    ensures var d := Descend(WithSpawn(a.hazards, input.enemySpawn));
      var b := Volleys(a.lasers, d.0, old(boss.Box()), old(boss.health));
      && dodged == d.1 && destroyed == b.kills
      && a'.hazards == b.hazards && a'.lasers == b.lasers && defeated == b.defeated
    ensures a'.points == a.points + dodged + ShotCredit * destroyed
    ensures dodged <= HazardCap + 1 && destroyed <= LaserCap
    ensures a' == a.(hazards := a'.hazards, lasers := a'.lasers, points := a'.points)
  {
    var hazards := a.hazards;
    if input.enemySpawn.Some? {
      hazards := hazards + [Falling(SpawnEnemy(input.enemySpawn.value.0, input.enemySpawn.value.1))];
    }
    var left;
    ghost var falling := hazards;
    assert falling == WithSpawn(a.hazards, input.enemySpawn);
    hazards, left := DescendPass(hazards);
    DescendAccounts(falling);
    var points := a.points + left;
    var lasers;
    ghost var box, h0 := boss.Box(), boss.health;
    ghost var hs := hazards;
    lasers, hazards, points, defeated := LaserPass(boss, a.lasers, hazards, points);
    VolleysAccount(a.lasers, hs, box, h0);
    dodged, destroyed := left, Volleys(a.lasers, hs, box, h0).kills;
    a' := a.(hazards := hazards, lasers := lasers, points := points);
  }

  /** The start of a frame: the caps and countdowns, the boss's turn, then the fire
      pass against the player. The player is scorched exactly when more of the capped
      fires, with the boss's new volley if it fired, touch the player than there are
      shields; otherwise one shield goes per touching fire. */
  method Opening(boss: Boss, a: Arena, input: FrameInput, aim: Aim)
    returns (s: Arena, scorched: bool, ghost fired: bool)
    requires boss.Valid() && ArenaValid(a) && WellFormed(input)
    modifies boss
    ensures boss.Valid() && boss.health == old(boss.health)
    ensures ArenaValid(s) && |s.hazards| <= HazardCap && |s.lasers| <= LaserCap
    ensures s.hazards == Newest(a.hazards, HazardCap) && s.lasers == Newest(a.lasers, LaserCap)
    ensures s.points == a.points && s.playerX == a.playerX && s.speed == Tick(a.speed)
    ensures s == a.(fires := s.fires, shields := s.shields, hazards := Newest(a.hazards, HazardCap),
                    lasers := Newest(a.lasers, LaserCap), speed := Tick(a.speed), rapid := Tick(a.rapid),
                    double := Tick(a.double), cooldown := Tick(a.cooldown))
    ensures fired <==> old(boss.fireTimer) + 1 >= boss.fireRate
    ensures var fs := Newest(a.fires, FireCap) + (if fired then Volley(boss.phase, boss.x, a.playerX, aim) else []);
      && (scorched <==> Scorching(fs, Hitbox(a.playerX)) > a.shields)
      && (!scorched ==>
            s.fires == Smoulder(fs, Hitbox(a.playerX)) && s.shields == a.shields - Scorching(fs, Hitbox(a.playerX)))
    ensures scorched ==> s.shields == 0
  {
    s := Prepare(a);
    s, fired := BossTurn(boss, s, input.wander, aim);
    var scorch := FirePass(s.fires, Hitbox(s.playerX), s.shields);
    BurnsCharacterised(s.fires, Hitbox(s.playerX), s.shields);
    s := s.(fires := scorch.fires, shields := scorch.shields);
    scorched := scorch.caught;
  }

  /** The arena after a contact pass that did not end the run, with this frame's new
      power-up appended to the falling list. */
  function Landed(s: Arena, input: FrameInput): Arena
  {
    var t := Touches(s.hazards, Hitbox(s.playerX), s);
    t.arena.(hazards := t.hazards +
      if input.powerSpawn.Some? then [Pickup(SpawnPowerUp(input.powerSpawn.value.0, input.powerSpawn.value.1))] else [])
  }

  /** The move at the boosted or base speed, then auto-fire from the new x. */
  function Moved(l: Arena, input: FrameInput, boosted: bool): Arena
  {
    var px := MovePlayer(l.playerX, input.left, input.right, if boosted then BoostedSpeed else BaseSpeed);
    var shot := AutoFire(l.cooldown, l.ammo, l.rapid > 0, l.double > 0, BaseCooldown, px);
    l.(playerX := px, ammo := shot.ammo, cooldown := shot.cooldown, lasers := l.lasers + shot.lasers)
  }

  /** The end of a frame once the boss still stands: enemies and power-ups touching the
      player, a new power-up, the events and the pause menu, then the move at the speed
      fixed at the start of the frame and auto-fire. The run ends exactly when the contact
      pass catches the player. */
  method Closing(s: Arena, input: FrameInput, boosted: bool) returns (s': Arena, outcome: Outcome)
    requires ArenaValid(s) && WellFormed(input) && |s.hazards| <= HazardCap + 1 && |s.lasers| <= LaserCap
    ensures ArenaValid(s') && s'.points == s.points
    ensures outcome == Caught || outcome == Closed || outcome == Quit || outcome == Playing
    ensures outcome == Caught <==> Touches(s.hazards, Hitbox(s.playerX), s).caught
    ensures outcome == Caught ==>
      s' == Touches(s.hazards, Hitbox(s.playerX), s).arena.(hazards := Touches(s.hazards, Hitbox(s.playerX), s).hazards)
    ensures outcome == Caught ==> s'.shields == 0
    ensures outcome == Quit || outcome == Closed ==> s' == Landed(s, input)
    ensures outcome == Playing ==> s' == Moved(Landed(s, input), input, boosted)
    ensures outcome == Closed <==> outcome != Caught && input.pause == WindowClosed
    ensures outcome == Quit <==> outcome != Caught && input.pause == PauseThenQuit
    ensures outcome == Playing ==>
      s'.playerX == MovePlayer(s.playerX, input.left, input.right, if boosted then BoostedSpeed else BaseSpeed)
  {
    // enemies and power-ups touching the player
    var touch := TouchPass(s.hazards, Hitbox(s.playerX), s);
    TouchesKeepValid(s.hazards, Hitbox(s.playerX), s);
    s' := touch.arena.(hazards := touch.hazards);
    if touch.caught {
      return s', Caught;
    }
    if input.powerSpawn.Some? {
      s' := s'.(hazards := s'.hazards + [Pickup(SpawnPowerUp(input.powerSpawn.value.0, input.powerSpawn.value.1))]);
    }

    // the event queue, then the pause menu
    if input.pause == WindowClosed {
      return s', Closed;
    }
    if input.pause == PauseThenQuit {
      return s', Quit;
    }

    // movement at the speed fixed after the countdowns, then auto-fire
    var px := MovePlayer(s'.playerX, input.left, input.right, if boosted then BoostedSpeed else BaseSpeed);
    var shot := AutoFire(s'.cooldown, s'.ammo, s'.rapid > 0, s'.double > 0, BaseCooldown, px);
    s' := s'.(playerX := px, ammo := shot.ammo, cooldown := shot.cooldown, lasers := s'.lasers + shot.lasers);
    return s', Playing;
  }

  /** The rest of a frame once the fire pass has spared the player: the hazards' turn,
      then a victory with the 100-point bonus if the boss fell, or else the contacts, the
      events, the move and auto-fire. `struck` is the arena after the hazards' turn. */
  method Resolve(boss: Boss, s: Arena, input: FrameInput, boosted: bool)
    returns (a': Arena, outcome: Outcome, ghost dodged: nat, ghost destroyed: nat, ghost struck: Arena)
    requires boss.Valid() && boss.health > 0
    requires ArenaValid(s) && WellFormed(input) && |s.hazards| <= HazardCap && |s.lasers| <= LaserCap
    modifies boss
    ensures boss.Valid() && boss.health <= old(boss.health)
    ensures boss.x == old(boss.x) && boss.phase == old(boss.phase) && boss.fireRate == old(boss.fireRate)
    ensures ArenaValid(a') && ArenaValid(struck) && |struck.hazards| <= HazardCap + 1 && |struck.lasers| <= LaserCap
    ensures dodged <= HazardCap + 1 && destroyed <= LaserCap
    ensures var d := Descend(WithSpawn(s.hazards, input.enemySpawn));
      var b := Volleys(s.lasers, d.0, old(boss.Box()), old(boss.health));
      && dodged == d.1 && destroyed == b.kills
      && struck == s.(hazards := b.hazards, lasers := b.lasers, points := s.points + dodged + ShotCredit * destroyed)
    ensures outcome == Victory <==> boss.health <= 0
    ensures outcome == Victory ==> a' == struck.(points := struck.points + DefeatBonus)
    ensures outcome != Victory ==> a'.points == struck.points
    ensures outcome != Victory ==> (outcome == Caught <==> Touches(struck.hazards, Hitbox(s.playerX), struck).caught)
    ensures outcome == Caught ==> a'.shields == 0
    ensures outcome == Closed <==> outcome != Caught && outcome != Victory && input.pause == WindowClosed
    ensures outcome == Quit <==> outcome != Caught && outcome != Victory && input.pause == PauseThenQuit
    ensures outcome == Quit || outcome == Closed ==> a' == Landed(struck, input)
    ensures outcome == Playing ==> a' == Moved(Landed(struck, input), input, boosted)
    ensures outcome == Playing ==>
      a'.playerX == MovePlayer(s.playerX, input.left, input.right, if boosted then BoostedSpeed else BaseSpeed)
  {
    var t, defeated;
    t, defeated, dodged, destroyed := Strike(boss, s, input);
    struck := t;
    if defeated {
      return t.(points := t.points + DefeatBonus), Victory, dodged, destroyed, struck;
    }
    a', outcome := Closing(t, input, boosted);
  }

  /** One iteration of `boss_game_loop` after the auto-save check. `started` is the arena
      after the caps, the countdowns, the boss's turn and the fire pass; the player is
      scorched exactly when more of the capped fires, with the boss's new volley if it
      fired, touch the player than there are shields, and the frame then ends with the
      score unchanged. Otherwise `struck` is the arena after the hazards' turn: the score
      grows by its dodges and kills and, on a victory, by the 100-point bonus once, and a
      continuing frame is caught exactly when the contact pass catches the player. The
      move uses the speed fixed right after the countdowns tick, before any power-up of
      this frame is collected. */
  method Frame(boss: Boss, a: Arena, input: FrameInput, aim: Aim)
    returns (a': Arena, outcome: Outcome, ghost dodged: nat, ghost destroyed: nat,
             ghost fired: bool, ghost scorched: bool, ghost started: Arena, ghost struck: Arena)
    requires boss.Valid() && boss.health > 0
    requires ArenaValid(a) && WellFormed(input)
    modifies boss
    ensures boss.Valid() && boss.health <= old(boss.health)
    ensures ArenaValid(a')
    ensures a'.points >= a.points
    ensures dodged <= HazardCap + 1 && destroyed <= LaserCap
    ensures outcome == Victory ==> a'.points == a.points + dodged + ShotCredit * destroyed + DefeatBonus
    ensures outcome != Victory ==> a'.points == a.points + dodged + ShotCredit * destroyed
    ensures fired <==> old(boss.fireTimer) + 1 >= boss.fireRate
    ensures started == a.(fires := started.fires, shields := started.shields, hazards := Newest(a.hazards, HazardCap),
                         lasers := Newest(a.lasers, LaserCap), speed := Tick(a.speed), rapid := Tick(a.rapid),
                         double := Tick(a.double), cooldown := Tick(a.cooldown))
    ensures var fs := Newest(a.fires, FireCap) + (if fired then Volley(boss.phase, boss.x, a.playerX, aim) else []);
      && (scorched <==> Scorching(fs, Hitbox(a.playerX)) > a.shields)
      && (!scorched ==>
            started.fires == Smoulder(fs, Hitbox(a.playerX)) && started.shields == a.shields - Scorching(fs, Hitbox(a.playerX)))
    ensures scorched ==> outcome == Caught && a' == started && a'.shields == 0 && dodged == 0 && destroyed == 0
    ensures !scorched ==>
      var d := Descend(WithSpawn(started.hazards, input.enemySpawn));
      var b := Volleys(started.lasers, d.0, boss.Box(), old(boss.health));
      && dodged == d.1 && destroyed == b.kills
      && struck == started.(hazards := b.hazards, lasers := b.lasers, points := a.points + dodged + ShotCredit * destroyed)
    ensures outcome == Victory <==> boss.health <= 0
    ensures outcome == Victory ==> a' == struck.(points := struck.points + DefeatBonus)
    ensures !scorched && outcome != Victory ==>
      (outcome == Caught <==> Touches(struck.hazards, Hitbox(a.playerX), struck).caught)
    ensures outcome == Caught ==> a'.shields == 0
    ensures outcome == Closed <==> outcome != Caught && outcome != Victory && input.pause == WindowClosed
    ensures outcome == Quit <==> outcome != Caught && outcome != Victory && input.pause == PauseThenQuit
    ensures outcome == Quit || outcome == Closed ==> a' == Landed(struck, input)
    ensures outcome == Playing ==> a' == Moved(Landed(struck, input), input, Tick(a.speed) > 0)
    ensures outcome == Playing ==>
      a'.playerX == MovePlayer(a.playerX, input.left, input.right, if Tick(a.speed) > 0 then BoostedSpeed else BaseSpeed)
  {
    var s, burnt;
    s, burnt, fired := Opening(boss, a, input, aim);
    started, scorched := s, burnt;
    // `current_speed` is fixed after the countdowns, before any pickup of this frame
    var boosted := s.speed > 0;
    if burnt {
      return s, Caught, 0, 0, fired, scorched, started, s;
    }
    a', outcome, dodged, destroyed, struck := Resolve(boss, s, input, boosted);
  }

  // ---------------------------------------------------------------- the fight

  /** The end of a boss fight: a victory banks the points and may raise the high score
      but leaves every best score; a loss or a quit banks the points and raises only the
      boss level's best, to the larger of it and the score. */
  method Settle(profile: Progress.Profile, outcome: Outcome, score: int)
    requires profile.Valid() && outcome != Playing
    modifies profile
    ensures profile.Valid() && profile.points == old(profile.points) + score
    ensures profile.purchased == old(profile.purchased) && profile.equipped == old(profile.equipped)
    ensures forall l :: Progress.BestOf(old(profile.bestScores), l) <= Progress.BestOf(profile.bestScores, l)
    ensures forall l :: l != Progress.BossLevel ==>
      Progress.BestOf(profile.bestScores, l) == Progress.BestOf(old(profile.bestScores), l)
    ensures outcome == Victory ==>
      && profile.highScore == (if score > old(profile.highScore) then score else old(profile.highScore))
      && profile.bestScores == old(profile.bestScores)
    ensures outcome != Victory ==>
      && profile.highScore == old(profile.highScore)
      && Progress.BestOf(profile.bestScores, Progress.BossLevel)
         == Progress.Max(Progress.BestOf(old(profile.bestScores), Progress.BossLevel), score)
  {
    if outcome == Victory {
      profile.FinishVictory(score);
    } else {
      ghost var before := profile.bestScores;
      profile.FinishBanked(Progress.BossLevel, score);
      Progress.WithBestGrows(before, Progress.BossLevel, score);
    }
  }

  /** One pass of the `while True` loop of `boss_game_loop`: the auto-save counter (every
      1800 frames the boss level's best is raised to the score so far), then the frame. */
  method Round(profile: Progress.Profile, boss: Boss, a: Arena, input: FrameInput, aim: Aim, autoSave: int)
    returns (a': Arena, outcome: Outcome, autoSave': int)
    requires profile.Valid() && boss.Valid() && boss.health > 0
    requires ArenaValid(a) && WellFormed(input)
    modifies profile, boss
    ensures profile.Valid() && boss.Valid() && ArenaValid(a')
    ensures outcome == Victory <==> boss.health <= 0
    ensures a'.points >= a.points && (outcome == Victory ==> a'.points >= a.points + DefeatBonus)
    ensures autoSave' == if autoSave + 1 >= AutoSaveEvery then 0 else autoSave + 1
    ensures profile.bestScores == if autoSave + 1 >= AutoSaveEvery
      then Progress.WithBest(old(profile.bestScores), Progress.BossLevel, a.points)
      else old(profile.bestScores)
    ensures forall l :: Progress.BestOf(old(profile.bestScores), l) <= Progress.BestOf(profile.bestScores, l)
    ensures forall l :: l != Progress.BossLevel ==>
      Progress.BestOf(profile.bestScores, l) == Progress.BestOf(old(profile.bestScores), l)
    ensures Progress.BestOf(profile.bestScores, Progress.BossLevel)
      <= Progress.Max(Progress.BestOf(old(profile.bestScores), Progress.BossLevel), a.points)
    ensures profile.points == old(profile.points) && profile.highScore == old(profile.highScore)
    ensures profile.purchased == old(profile.purchased) && profile.equipped == old(profile.equipped)
  {
    autoSave' := autoSave + 1;
    if autoSave' >= AutoSaveEvery {
      autoSave' := 0;
      ghost var before := profile.bestScores;
      profile.RecordBest(Progress.BossLevel, a.points);
      Progress.WithBestGrows(before, Progress.BossLevel, a.points);
    }
    ghost var dodged, destroyed, fired, scorched, started, struck;
    a', outcome, dodged, destroyed, fired, scorched, started, struck := Frame(boss, a, input, aim);
  }

  /** `boss_game_loop()`: frames until the player is caught, defeats the boss, quits, or
      the given frames run out. A defeat of the boss banks the points (with the 100-point
      bonus) and may raise the high score but not the boss level's best; a loss or a quit
      banks the points and may raise that best but not the high score. */
  method Fight(profile: Progress.Profile, frames: seq<FrameInput>, aim: Aim) returns (outcome: Outcome, a: Arena)
    requires profile.Valid()
    requires forall i :: 0 <= i < |frames| ==> WellFormed(frames[i])
    modifies profile
    ensures profile.Valid() && ArenaValid(a)
    ensures profile.purchased == old(profile.purchased) && profile.equipped == old(profile.equipped)
    ensures forall l :: Progress.BestOf(old(profile.bestScores), l) <= Progress.BestOf(profile.bestScores, l)
    ensures forall l :: l != Progress.BossLevel ==>
      Progress.BestOf(profile.bestScores, l) == Progress.BestOf(old(profile.bestScores), l)
    ensures outcome == Victory ==>
      && a.points >= DefeatBonus
      && profile.points == old(profile.points) + a.points
      && profile.highScore == (if a.points > old(profile.highScore) then a.points else old(profile.highScore))
      && Progress.BestOf(profile.bestScores, Progress.BossLevel)
         <= Progress.Max(Progress.BestOf(old(profile.bestScores), Progress.BossLevel), a.points - DefeatBonus)
    ensures outcome == Caught || outcome == Quit || outcome == Closed ==>
      && profile.points == old(profile.points) + a.points
      && profile.highScore == old(profile.highScore)
      && Progress.BestOf(profile.bestScores, Progress.BossLevel)
         == Progress.Max(Progress.BestOf(old(profile.bestScores), Progress.BossLevel), a.points)
    ensures outcome == Playing ==>
      && profile.points == old(profile.points) && profile.highScore == old(profile.highScore)
      && Progress.BestOf(profile.bestScores, Progress.BossLevel)
         <= Progress.Max(Progress.BestOf(old(profile.bestScores), Progress.BossLevel), a.points)
  {
    var boss := new Boss();
    a := Start;
    outcome := Playing;
    var autoSave := 0;
    var i := 0;
    while i < |frames|
      invariant 0 <= i <= |frames|
      invariant outcome == Playing
      invariant boss.Valid() && boss.health > 0
      invariant profile.Valid() && ArenaValid(a)
      invariant profile.points == old(profile.points) && profile.highScore == old(profile.highScore)
      invariant profile.purchased == old(profile.purchased) && profile.equipped == old(profile.equipped)
      invariant forall l :: Progress.BestOf(old(profile.bestScores), l) <= Progress.BestOf(profile.bestScores, l)
      invariant forall l :: l != Progress.BossLevel ==>
        Progress.BestOf(profile.bestScores, l) == Progress.BestOf(old(profile.bestScores), l)
      invariant Progress.BestOf(profile.bestScores, Progress.BossLevel)
        <= Progress.Max(Progress.BestOf(old(profile.bestScores), Progress.BossLevel), a.points)
    {
      a, outcome, autoSave := Round(profile, boss, a, frames[i], aim, autoSave);
      if outcome != Playing {
        Settle(profile, outcome, a.points);
        return;
      }
      i := i + 1;
    }
  }
}
