/** The survival run (`game_loop`): enemies fall at the level's speed, the player dodges
    them, shoots them with auto-fire, collects power-ups, and loses a shield or the run
    on contact. The loop's local variables are the fields of `Run`; each pass over an
    entity list is a method with a loop, proved equal to a recursive definition of the
    pass, and the properties of the pass are lemmas about that definition. */
module Survival {
  import opened Wrappers
  import opened Geometry
  import opened Entities
  import opened PlayerRules
  import Progress

  const BaseCooldown: int := 15
  const StartAmmo: int := 10
  const MaxAmmo: int := 30
  const LaserKillBase: int := 3
  const BombCredit: int := 2
  const AutoSaveEvery: int := 1800

  /** The fall speeds of one level. The source moves enemies by the difficulty, by 0.4
      times it under slow motion, and power-ups at half the enemy speed; these integers
      stand for those (partly fractional) speeds. */
  datatype Speeds = Speeds(fall: int, slowFall: int, powerFall: int, slowPowerFall: int)

  /** The five power-up countdowns, in frames. */
  datatype Timers = Timers(speed: int, slowmo: int, magnet: int, rapid: int, double: int)

  function TickAll(t: Timers): Timers
  {
    Timers(Tick(t.speed), Tick(t.slowmo), Tick(t.magnet), Tick(t.rapid), Tick(t.double))
  }

  predicate TimersValid(t: Timers)
  {
    && 0 <= t.speed <= Duration(Speed) && 0 <= t.slowmo <= Duration(Slowmo)
    && 0 <= t.magnet <= Duration(Magnet) && 0 <= t.rapid <= Duration(Rapid)
    && 0 <= t.double <= Duration(Double)
  }

  /** The state `game_loop` keeps from one frame to the next. */
  datatype Run = Run(
    points: int,
    playerX: int,
    enemies: seq<Enemy>,
    powerUps: seq<PowerUp>,
    lasers: seq<Laser>,
    shields: int,
    timers: Timers,
    cooldown: int,
    ammo: int,
    destroyed: int,
    combo: int,
    comboTimer: int,
    streak: int)

  /** The state before the first frame. */
  const Start: Run := Run(0, PlayerStartX, [], [], [], 0, Timers(0, 0, 0, 0, 0), 0, StartAmmo, 0, 0, 0, 0)

  /** The bounds every frame keeps. */
  predicate Valid(r: Run)
  {
    && 0 <= r.shields <= MaxShields
    && 0 <= r.ammo <= MaxAmmo
    && TimersValid(r.timers)
    && 0 <= r.cooldown <= BaseCooldown
    && 0 <= r.combo <= ComboCap
    && 0 <= r.comboTimer <= ComboWindow
    && r.points >= 0 && r.destroyed >= 0 && r.streak >= 0
    && InBand(r.playerX)
  }

  lemma StartIsValid()
    ensures Valid(Start)
  {
  }

  // ---------------------------------------------------------------- dodges

  /** The values a dodge changes. */
  datatype Tally = Tally(points: int, combo: int, comboTimer: int, streak: int)

  /** A dodge: `1 + combo` points, the combo one higher (at most 10), its timer restarted. */
  function Credit(t: Tally): Tally
  {
    Tally(t.points + 1 + t.combo, ComboUp(t.combo), ComboWindow, t.streak + 1)
  }

  function CreditTimes(t: Tally, n: nat): Tally
    decreases n
  {
    if n == 0 then t else CreditTimes(Credit(t), n - 1)
  }

  /** The enemy pass: move every enemy; one that has left the bottom is removed and
      credited, the others stay in order. */
  function Dodges(es: seq<Enemy>, fall: int, t: Tally): (seq<Enemy>, Tally)
    decreases |es|
  {
    if es == [] then ([], t)
    else
      var e := MoveEnemy(es[0], fall);
      if EnemyOffScreen(e) then Dodges(es[1..], fall, Credit(t))
      else
        var rest := Dodges(es[1..], fall, t);
        ([e] + rest.0, rest.1)
  }

  /** How many enemies leave the bottom this frame. */
  function OffCount(es: seq<Enemy>, fall: int): nat
    decreases |es|
  {
    if es == [] then 0
    else (if EnemyOffScreen(MoveEnemy(es[0], fall)) then 1 else 0) + OffCount(es[1..], fall)
  }

  /** The moved enemies still on screen, in order. */
  function StillFalling(es: seq<Enemy>, fall: int): seq<Enemy>
    decreases |es|
  {
    if es == [] then []
    else
      var e := MoveEnemy(es[0], fall);
      (if EnemyOffScreen(e) then [] else [e]) + StillFalling(es[1..], fall)
  }

  /** The pass keeps exactly the enemies still on screen and credits one dodge per
      enemy that left, whatever their order. */
  lemma {:induction false} DodgesCharacterised(es: seq<Enemy>, fall: int, t: Tally)
    ensures Dodges(es, fall, t).0 == StillFalling(es, fall)
    ensures Dodges(es, fall, t).1 == CreditTimes(t, OffCount(es, fall))
    ensures |StillFalling(es, fall)| + OffCount(es, fall) == |es|
    decreases |es|
  {
    if es != [] {
      var e := MoveEnemy(es[0], fall);
      if EnemyOffScreen(e) {
        DodgesCharacterised(es[1..], fall, Credit(t));
      } else {
        DodgesCharacterised(es[1..], fall, t);
      }
    }
  }

  /** n dodges in one frame: n points of streak, at least n points of score (each dodge
      is worth 1 + combo), and, if there was any dodge, the combo raised by n up to 10
      with its timer at 60. No dodge leaves everything as it was. */
  lemma {:induction false} CreditTimesEffect(t: Tally, n: nat)
    requires 0 <= t.combo <= ComboCap
    ensures CreditTimes(t, n).streak == t.streak + n
    ensures t.points + n <= CreditTimes(t, n).points <= t.points + n * (1 + ComboCap)
    ensures n == 0 ==> CreditTimes(t, n) == t
    ensures n > 0 ==> CreditTimes(t, n).comboTimer == ComboWindow
    ensures n > 0 ==> CreditTimes(t, n).combo == if t.combo + n < ComboCap then t.combo + n else ComboCap
    ensures 0 <= CreditTimes(t, n).combo <= ComboCap
    decreases n
  {
    if n > 0 {
      CreditTimesEffect(Credit(t), n - 1);
    }
  }

  /** Scenario: one enemy leaves the bottom: `1 + combo` points, combo one higher
      (capped), timer 60. */
  lemma SingleDodge(e: Enemy, fall: int, t: Tally)
    requires EnemyOffScreen(MoveEnemy(e, fall))
    requires 0 <= t.combo <= ComboCap
    ensures Dodges([e], fall, t).0 == []
    ensures Dodges([e], fall, t).1 == Tally(t.points + 1 + t.combo, ComboUp(t.combo), ComboWindow, t.streak + 1)
  {
    assert [e][1..] == [];
  }

  method DodgePass(es: seq<Enemy>, fall: int, t0: Tally) returns (kept: seq<Enemy>, t: Tally)
    ensures kept == Dodges(es, fall, t0).0 && t == Dodges(es, fall, t0).1
  {
    kept, t := [], t0;
    var i := 0;
    while i < |es|
      invariant 0 <= i <= |es|
      invariant kept + Dodges(es[i..], fall, t).0 == Dodges(es, fall, t0).0
      invariant Dodges(es[i..], fall, t).1 == Dodges(es, fall, t0).1
    {
      assert es[i..][0] == es[i] && es[i..][1..] == es[i + 1..];
      var e := MoveEnemy(es[i], fall);
      if EnemyOffScreen(e) {
        t := Credit(t);
      } else {
        assert kept + ([e] + Dodges(es[i + 1..], fall, t).0) == (kept + [e]) + Dodges(es[i + 1..], fall, t).0;
        kept := kept + [e];
      }
      i := i + 1;
    }
    assert es[|es|..] == [];
  }

  // ---------------------------------------------------------------- lasers

  /** The index of the first enemy the box touches, or -1. */
  function FirstHit(r: Rect, es: seq<Enemy>): (k: int)
    ensures -1 <= k < |es|
    ensures k >= 0 ==> Overlaps(r, EnemyRect(es[k]))
    ensures forall j :: 0 <= j < |es| && (k < 0 || j < k) ==> !Overlaps(r, EnemyRect(es[j]))
    decreases |es|
  {
    if es == [] then -1
    else if Overlaps(r, EnemyRect(es[0])) then 0
    else
      var k := FirstHit(r, es[1..]);
      if k < 0 then -1 else k + 1
  }

  /** The inner enemy loop of one laser: stop at the first enemy it touches. */
  method FindHit(r: Rect, es: seq<Enemy>) returns (k: int)
    ensures k == FirstHit(r, es)
  {
    k := -1;
    var j := 0;
    while j < |es|
      invariant 0 <= j <= |es|
      invariant forall m :: 0 <= m < j ==> !Overlaps(r, EnemyRect(es[m]))
    {
      if Overlaps(r, EnemyRect(es[j])) {
        k := j;
        break;
      }
      j := j + 1;
    }
    FirstHitIsFirst(r, es, k);
  }

  /** The first-hit search has one answer: an index whose enemy is touched with none
      touched before it, or -1 when none is touched. */
  lemma FirstHitIsFirst(r: Rect, es: seq<Enemy>, k: int)
    requires -1 <= k < |es|
    requires k >= 0 ==> Overlaps(r, EnemyRect(es[k]))
    requires forall j :: 0 <= j < |es| && (k < 0 || j < k) ==> !Overlaps(r, EnemyRect(es[j]))
    ensures k == FirstHit(r, es)
  {
    var f := FirstHit(r, es);
    if f >= 0 && k >= 0 {
      assert !(f < k) && !(k < f);
    }
  }

  /** What the laser pass leaves. */
  datatype Sweep = Sweep(lasers: seq<Laser>, enemies: seq<Enemy>, hits: nat)

  /** The laser pass: each laser rises; one that left the top is dropped; one touching an
      enemy destroys the first such enemy and is used up; the others stay in order. */
  function LaserSweep(ls: seq<Laser>, es: seq<Enemy>): Sweep
    decreases |ls|
  {
    if ls == [] then Sweep([], es, 0)
    else
      var l := MoveLaser(ls[0]);
      if LaserOffScreen(l) then LaserSweep(ls[1..], es)
      else
        var k := FirstHit(LaserRect(l), es);
        if k < 0 then
          var s := LaserSweep(ls[1..], es);
          s.(lasers := [l] + s.lasers)
        else
          var s := LaserSweep(ls[1..], es[..k] + es[k + 1..]);
          s.(hits := s.hits + 1)
  }

  /** Every hit destroys exactly one enemy and uses up exactly one laser. */
  lemma {:induction false} SweepAccounts(ls: seq<Laser>, es: seq<Enemy>)
    ensures |LaserSweep(ls, es).enemies| + LaserSweep(ls, es).hits == |es|
    ensures |LaserSweep(ls, es).lasers| + LaserSweep(ls, es).hits <= |ls|
    decreases |ls|
  {
    if ls != [] {
      var l := MoveLaser(ls[0]);
      var k := FirstHit(LaserRect(l), es);
      if LaserOffScreen(l) || k < 0 {
        SweepAccounts(ls[1..], es);
      } else {
        SweepAccounts(ls[1..], es[..k] + es[k + 1..]);
      }
    }
  }

  /** Removing one entry leaves a sub-multiset. */
  lemma RemoveOne<T>(s: seq<T>, k: int)
    requires 0 <= k < |s|
    ensures multiset(s[..k] + s[k + 1..]) <= multiset(s)
  {
    assert s == s[..k] + [s[k]] + s[k + 1..];
  }

  /** The enemies a laser pass leaves are some of the enemies there were. */
  lemma {:induction false} SweepKeepsEnemies(ls: seq<Laser>, es: seq<Enemy>)
    ensures multiset(LaserSweep(ls, es).enemies) <= multiset(es)
    decreases |ls|
  {
    if ls != [] {
      var l := MoveLaser(ls[0]);
      var k := FirstHit(LaserRect(l), es);
      if LaserOffScreen(l) || k < 0 {
        SweepKeepsEnemies(ls[1..], es);
      } else {
        SweepKeepsEnemies(ls[1..], es[..k] + es[k + 1..]);
        RemoveOne(es, k);
      }
    }
  }

  /** No laser the pass keeps has left the screen. */
  lemma {:induction false} SweepKeepsLasersOnScreen(ls: seq<Laser>, es: seq<Enemy>)
    ensures forall i :: 0 <= i < |LaserSweep(ls, es).lasers| ==> !LaserOffScreen(LaserSweep(ls, es).lasers[i])
    decreases |ls|
  {
    if ls != [] {
      var l := MoveLaser(ls[0]);
      var k := FirstHit(LaserRect(l), es);
      if LaserOffScreen(l) || k < 0 {
        SweepKeepsLasersOnScreen(ls[1..], es);
      } else {
        SweepKeepsLasersOnScreen(ls[1..], es[..k] + es[k + 1..]);
      }
    }
  }

  /** With no enemy on screen, lasers only rise and leave. */
  lemma {:induction false} SweepWithoutEnemies(ls: seq<Laser>)
    ensures LaserSweep(ls, []).hits == 0 && LaserSweep(ls, []).enemies == []
    decreases |ls|
  {
    if ls != [] {
      SweepWithoutEnemies(ls[1..]);
    }
  }

  /** The laser loop with its inner enemy loop; each kill scores `3 + combo` and the combo
      itself is left alone. */
  method LaserPass(ls: seq<Laser>, es0: seq<Enemy>, points0: int, destroyed0: int, combo: int)
    returns (kept: seq<Laser>, es: seq<Enemy>, points: int, destroyed: int)
    ensures var s := LaserSweep(ls, es0);
      && kept == s.lasers && es == s.enemies
      && points == points0 + s.hits * (LaserKillBase + combo)
      && destroyed == destroyed0 + s.hits
  {
    kept, es, points, destroyed := [], es0, points0, destroyed0;
    var hits := 0;
    var i := 0;
    while i < |ls|
      invariant 0 <= i <= |ls|
      invariant kept + LaserSweep(ls[i..], es).lasers == LaserSweep(ls, es0).lasers
      invariant LaserSweep(ls[i..], es).enemies == LaserSweep(ls, es0).enemies
      invariant hits + LaserSweep(ls[i..], es).hits == LaserSweep(ls, es0).hits
      invariant points == points0 + hits * (LaserKillBase + combo)
      invariant destroyed == destroyed0 + hits
    {
      assert ls[i..][0] == ls[i] && ls[i..][1..] == ls[i + 1..];
      var l := MoveLaser(ls[i]);
      if !LaserOffScreen(l) {
        var k := FindHit(LaserRect(l), es);
        if k < 0 {
          assert kept + ([l] + LaserSweep(ls[i + 1..], es).lasers) == (kept + [l]) + LaserSweep(ls[i + 1..], es).lasers;
          kept := kept + [l];
        } else {
          assert (hits + 1) * (LaserKillBase + combo) == hits * (LaserKillBase + combo) + LaserKillBase + combo;
          es := es[..k] + es[k + 1..];
          hits := hits + 1;
          destroyed := destroyed + 1;
          points := points + LaserKillBase + combo;
        }
      }
      i := i + 1;
    }
    assert ls[|ls|..] == [];
  }

  // ---------------------------------------------------------------- power-ups

  /** Survival drops a power-up once its centre passes the bottom edge. */
  predicate Sunk(p: PowerUp)
  {
    p.y > ScreenHeight
  }

  /** The effect of collecting a power-up of kind k. */
  function Collect(r: Run, k: PowerUpKind): Run
  {
    match k
    case Coin => r.(points := r.points + CoinValue(if r.combo < 0 then 0 else r.combo))
    case Shield => r.(shields := AddShield(r.shields))
    case Speed => r.(timers := r.timers.(speed := Duration(Speed)))
    case Slowmo => r.(timers := r.timers.(slowmo := Duration(Slowmo)))
    case Magnet => r.(timers := r.timers.(magnet := Duration(Magnet)))
    case Bomb => r.(points := r.points + BombCredit * |r.enemies|, destroyed := r.destroyed + |r.enemies|, enemies := [])
    case Rapid => r.(timers := r.timers.(rapid := Duration(Rapid)))
    case Double => r.(timers := r.timers.(double := Duration(Double)))
    case Ammo => r.(ammo := AmmoPickup(r.ammo, MaxAmmo))
  }

  /** The countdown a timed kind sets. */
  function TimerOf(t: Timers, k: PowerUpKind): int
    requires Timed(k)
  {
    match k
    case Speed => t.speed
    case Slowmo => t.slowmo
    case Magnet => t.magnet
    case Rapid => t.rapid
    case Double => t.double
  }

  /** Collecting keeps every bound and never lowers the score. */
  lemma CollectKeepsValid(r: Run, k: PowerUpKind)
    requires Valid(r)
    ensures Valid(Collect(r, k))
    ensures Collect(r, k).points >= r.points
    ensures Collect(r, k).playerX == r.playerX && Collect(r, k).cooldown == r.cooldown
    ensures Collect(r, k).lasers == r.lasers && Collect(r, k).combo == r.combo
    ensures Collect(r, k).destroyed >= r.destroyed && Collect(r, k).streak == r.streak
  {
  }

  /** A timed power-up sets its countdown to the listed duration, whatever was left: a
      second collection restarts the timer rather than adding to it. */
  lemma TimedResets(r: Run, k: PowerUpKind)
    requires Timed(k)
    ensures TimerOf(Collect(r, k).timers, k) == Duration(k)
    ensures Collect(Collect(r, k), k) == Collect(r, k)
    ensures Collect(r, k).points == r.points && Collect(r, k).enemies == r.enemies
    ensures Collect(r, k).shields == r.shields && Collect(r, k).ammo == r.ammo
  {
  }

  /** A bomb removes every enemy at once, scoring 2 for each and counting each as destroyed. */
  lemma BombClears(r: Run)
    ensures Collect(r, Bomb).enemies == []
    ensures Collect(r, Bomb).points == r.points + 2 * |r.enemies|
    ensures Collect(r, Bomb).destroyed == r.destroyed + |r.enemies|
    ensures Collect(r, Bomb).shields == r.shields && Collect(r, Bomb).timers == r.timers
  {
  }

  /** The bomb's loop: 2 points for every enemy on screen. */
  method Detonate(es: seq<Enemy>, points0: int) returns (points: int)
    ensures points == points0 + BombCredit * |es|
  {
    points := points0;
    var i := 0;
    while i < |es|
      invariant 0 <= i <= |es|
      invariant points == points0 + BombCredit * i
    {
      points := points + BombCredit;
      i := i + 1;
    }
  }

  method Apply(r: Run, k: PowerUpKind) returns (r': Run)
    ensures r' == Collect(r, k)
  {
    if k == Bomb {
      var points := Detonate(r.enemies, r.points);
      r' := r.(points := points, destroyed := r.destroyed + |r.enemies|, enemies := []);
    } else {
      r' := Collect(r, k);
    }
  }

  /** The power-up pass: each power-up falls; one past the bottom is dropped; one
      touching the player's sprite is collected and removed; the others stay in order. */
  function Gather(ps: seq<PowerUp>, step: int, px: int, r: Run): (seq<PowerUp>, Run)
    decreases |ps|
  {
    if ps == [] then ([], r)
    else
      var p := MovePowerUp(ps[0], step);
      if Sunk(p) then Gather(ps[1..], step, px, r)
      else if Overlaps(SpriteRect(px), PowerUpRect(p)) then Gather(ps[1..], step, px, Collect(r, p.kind))
      else
        var g := Gather(ps[1..], step, px, r);
        ([p] + g.0, g.1)
  }

  /** The pass keeps every bound, never lowers the score, and leaves no collected or
      sunk power-up behind. */
  lemma {:induction false} GatherKeepsValid(ps: seq<PowerUp>, step: int, px: int, r: Run)
    requires Valid(r)
    ensures Valid(Gather(ps, step, px, r).1)
    ensures Gather(ps, step, px, r).1.points >= r.points
    ensures Gather(ps, step, px, r).1.playerX == r.playerX
    ensures Gather(ps, step, px, r).1.cooldown == r.cooldown
    ensures Gather(ps, step, px, r).1.lasers == r.lasers
    ensures Gather(ps, step, px, r).1.combo == r.combo
    ensures Gather(ps, step, px, r).1.destroyed >= r.destroyed
    ensures Gather(ps, step, px, r).1.streak == r.streak
    ensures |Gather(ps, step, px, r).0| <= |ps|
    ensures forall i :: 0 <= i < |Gather(ps, step, px, r).0| ==>
      var p := Gather(ps, step, px, r).0[i]; !Sunk(p) && !Overlaps(SpriteRect(px), PowerUpRect(p))
    decreases |ps|
  {
    if ps != [] {
      var p := MovePowerUp(ps[0], step);
      if Sunk(p) {
        GatherKeepsValid(ps[1..], step, px, r);
      } else if Overlaps(SpriteRect(px), PowerUpRect(p)) {
        CollectKeepsValid(r, p.kind);
        GatherKeepsValid(ps[1..], step, px, Collect(r, p.kind));
      } else {
        GatherKeepsValid(ps[1..], step, px, r);
      }
    }
  }

  method GatherPass(ps: seq<PowerUp>, step: int, px: int, r0: Run) returns (kept: seq<PowerUp>, r: Run)
    ensures kept == Gather(ps, step, px, r0).0 && r == Gather(ps, step, px, r0).1
  {
    kept, r := [], r0;
    var i := 0;
    while i < |ps|
      invariant 0 <= i <= |ps|
      invariant kept + Gather(ps[i..], step, px, r).0 == Gather(ps, step, px, r0).0
      invariant Gather(ps[i..], step, px, r).1 == Gather(ps, step, px, r0).1
    {
      assert ps[i..][0] == ps[i] && ps[i..][1..] == ps[i + 1..];
      var p := MovePowerUp(ps[i], step);
      if !Sunk(p) {
        if Overlaps(SpriteRect(px), PowerUpRect(p)) {
          r := Apply(r, p.kind);
        } else {
          assert kept + ([p] + Gather(ps[i + 1..], step, px, r).0) == (kept + [p]) + Gather(ps[i + 1..], step, px, r).0;
          kept := kept + [p];
        }
      }
      i := i + 1;
    }
    assert ps[|ps|..] == [];
  }

  // ---------------------------------------------------------------- contact

  /** What the contact pass leaves: the enemies, the shields, and whether the run ended. */
  datatype Contact = Contact(enemies: seq<Enemy>, shields: int, caught: bool)

  /** The contact pass: an enemy touching the hit box costs a shield and is removed; with
      no shield left it ends the run. */
  function Contacts(es: seq<Enemy>, hb: Rect, shields: int): Contact
    decreases |es|
  {
    if es == [] then Contact([], shields, false)
    else if Overlaps(hb, EnemyRect(es[0])) then
      var (absorbed, left) := AbsorbHit(shields);
      if absorbed then Contacts(es[1..], hb, left)
      else Contact(es, shields, true)
    else
      var c := Contacts(es[1..], hb, shields);
      c.(enemies := [es[0]] + c.enemies)
  }

  /** How many enemies touch the box. */
  function Touching(es: seq<Enemy>, hb: Rect): nat
    decreases |es|
  {
    if es == [] then 0
    else (if Overlaps(hb, EnemyRect(es[0])) then 1 else 0) + Touching(es[1..], hb)
  }

  /** The enemies that do not touch the box, in order. */
  function Untouched(es: seq<Enemy>, hb: Rect): seq<Enemy>
    decreases |es|
  {
    if es == [] then []
    else (if Overlaps(hb, EnemyRect(es[0])) then [] else [es[0]]) + Untouched(es[1..], hb)
  }

  /** The run ends exactly when more enemies touch the player than there are shields; it
      then ends with no shield left. Otherwise one shield goes per touching enemy and
      exactly the untouched enemies remain. */
  lemma {:induction false} ContactsCharacterised(es: seq<Enemy>, hb: Rect, shields: nat)
    ensures Contacts(es, hb, shields).caught <==> Touching(es, hb) > shields
    ensures Contacts(es, hb, shields).caught ==> Contacts(es, hb, shields).shields == 0
    ensures !Contacts(es, hb, shields).caught ==>
      && Contacts(es, hb, shields).shields == shields - Touching(es, hb)
      && Contacts(es, hb, shields).enemies == Untouched(es, hb)
    decreases |es|
  {
    if es != [] {
      if Overlaps(hb, EnemyRect(es[0])) {
        if shields > 0 {
          ContactsCharacterised(es[1..], hb, shields - 1);
        }
      } else {
        ContactsCharacterised(es[1..], hb, shields);
      }
    }
  }

  /** Scenarios: one touching enemy with two shields leaves one shield and removes the
      enemy; with no shield it ends the run and the shields stay at 0. */
  lemma OneContact(e: Enemy, hb: Rect)
    requires Overlaps(hb, EnemyRect(e))
    ensures Contacts([e], hb, 2) == Contact([], 1, false)
    ensures Contacts([e], hb, 0) == Contact([e], 0, true)
  {
    assert [e][1..] == [];
  }

  method ContactPass(es: seq<Enemy>, hb: Rect, shields0: int) returns (c: Contact)
    ensures c == Contacts(es, hb, shields0)
  {
    var kept: seq<Enemy> := [];
    var shields := shields0;
    var i := 0;
    while i < |es|
      invariant 0 <= i <= |es|
      invariant Contacts(es[i..], hb, shields).caught == Contacts(es, hb, shields0).caught
      invariant Contacts(es[i..], hb, shields).shields == Contacts(es, hb, shields0).shields
      invariant kept + Contacts(es[i..], hb, shields).enemies == Contacts(es, hb, shields0).enemies
    {
      assert es[i..][0] == es[i] && es[i..][1..] == es[i + 1..];
      if Overlaps(hb, EnemyRect(es[i])) {
        var hit := AbsorbHit(shields);
        if hit.0 {
          shields := hit.1;
        } else {
          return Contact(kept + es[i..], shields, true);
        }
      } else {
        assert kept + ([es[i]] + Contacts(es[i + 1..], hb, shields).enemies)
          == (kept + [es[i]]) + Contacts(es[i + 1..], hb, shields).enemies;
        kept := kept + [es[i]];
      }
      i := i + 1;
    }
    assert es[|es|..] == [];
    c := Contact(kept, shields, false);
  }

  // ---------------------------------------------------------------- one frame

  /** How the frame's events end: no pause, the pause menu resumed or quit, or the
      window closed. */
  datatype PauseChoice = NoPause | PauseThenResume | PauseThenQuit | WindowClosed

  /** The random draws and the player's input for one frame: a new enemy (x, size), a new
      power-up (x, kind), the direction keys and the pause menu's result. */
  datatype FrameInput = FrameInput(
    enemySpawn: Option<(int, int)>,
    powerSpawn: Option<(int, PowerUpKind)>,
    left: bool,
    right: bool,
    pause: PauseChoice)

  /** `randint(50, SCREEN_WIDTH - 50)` for x and `randint(25, 60)` for an enemy's size. */
  predicate WellFormed(input: FrameInput)
  {
    && (input.enemySpawn.Some? ==>
          && 50 <= input.enemySpawn.value.0 <= ScreenWidth - 50
          && EnemyMinSize <= input.enemySpawn.value.1 <= EnemyMaxSize)
    && (input.powerSpawn.Some? ==> 50 <= input.powerSpawn.value.0 <= ScreenWidth - 50)
  }

  /** Where a frame leaves the run: still going, lost to a hit, left through the pause
      menu, or ended by closing the window. */
  datatype Outcome = Playing | Caught | Quit | Closed

  /** The run after the combo clock and the enemy pass: the moved enemies still on
      screen, and one dodge credited for every enemy that left the bottom. */
  function AfterFall(r: Run, fall: int): Run
  {
    var (combo, comboTimer) := ComboTick(r.combo, r.comboTimer);
    var t := CreditTimes(Tally(r.points, combo, comboTimer, r.streak), OffCount(r.enemies, fall));
    r.(enemies := StillFalling(r.enemies, fall), points := t.points, combo := t.combo,
       comboTimer := t.comboTimer, streak := t.streak)
  }

  /** The run after the laser pass: each kill scores `3 + combo` and counts as destroyed. */
  function AfterShots(r: Run): Run
  {
    var sw := LaserSweep(r.lasers, r.enemies);
    r.(lasers := sw.lasers, enemies := sw.enemies,
       points := r.points + sw.hits * (LaserKillBase + r.combo), destroyed := r.destroyed + sw.hits)
  }

  /** The run after the power-up pass at the given fall step. */
  function AfterPick(r: Run, step: int): Run
  {
    var g := Gather(r.powerUps, step, r.playerX, r);
    g.1.(powerUps := g.0)
  }

  /** The run after a frame's countdowns and its enemy, laser and power-up passes, with
      this frame's new enemy and power-up; slow motion as it stood before the countdown
      picks the fall speeds. */
  function AfterPasses(r: Run, speeds: Speeds, input: FrameInput): Run
    requires WellFormed(input)
  {
    var slowed := r.timers.slowmo > 0;
    var ticked := r.(timers := TickAll(r.timers), cooldown := Tick(r.cooldown));
    var fallen := AfterFall(ticked, if slowed then speeds.slowFall else speeds.fall);
    var spawned :=
      if input.enemySpawn.Some?
      then fallen.(enemies := fallen.enemies + [SpawnEnemy(input.enemySpawn.value.0, input.enemySpawn.value.1)])
      else fallen;
    var shot := AfterShots(spawned);
    var dropped :=
      if input.powerSpawn.Some?
      then shot.(powerUps := shot.powerUps + [SpawnPowerUp(input.powerSpawn.value.0, input.powerSpawn.value.1)])
      else shot;
    AfterPick(dropped, if slowed then speeds.slowPowerFall else speeds.powerFall)
  }

  /** The combo clock and the enemy pass: the enemies still on screen remain, and every
      enemy that left is a dodge. */
  method Fall(r: Run, fall: int) returns (s: Run)
    requires Valid(r)
    ensures s == AfterFall(r, fall)
    ensures Valid(s)
    ensures s.points >= r.points && s.streak == r.streak + OffCount(r.enemies, fall)
  {
    var (combo, comboTimer) := ComboTick(r.combo, r.comboTimer);
    var t0 := Tally(r.points, combo, comboTimer, r.streak);
    var enemies, tally := DodgePass(r.enemies, fall, t0);
    DodgesCharacterised(r.enemies, fall, t0);
    CreditTimesEffect(t0, OffCount(r.enemies, fall));
    s := r.(enemies := enemies, points := tally.points, combo := tally.combo,
            comboTimer := tally.comboTimer, streak := tally.streak);
  }

  /** The laser pass on a run: kills score and count, nothing else but the two lists changes. */
  method Shoot(r: Run) returns (s: Run)
    requires Valid(r)
    ensures s == AfterShots(r)
    ensures Valid(s)
    ensures s.points >= r.points && s.destroyed >= r.destroyed
  {
    var lasers, enemies, points, destroyed := LaserPass(r.lasers, r.enemies, r.points, r.destroyed, r.combo);
    s := r.(lasers := lasers, enemies := enemies, points := points, destroyed := destroyed);
  }

  /** The power-up pass on a run. */
  method Pick(r: Run, step: int) returns (s: Run)
    requires Valid(r)
    ensures Valid(s)
    ensures s.points >= r.points && s.destroyed >= r.destroyed && s.streak == r.streak
    ensures s.playerX == r.playerX
    ensures s == AfterPick(r, step)
  {
    GatherKeepsValid(r.powerUps, step, r.playerX, r);
    var kept;
    kept, s := GatherPass(r.powerUps, step, r.playerX, r);
    s := s.(powerUps := kept);
  }

  /** The first part of a frame: the countdowns, the enemy pass, a new enemy, the laser
      pass, a new power-up and the power-up pass. */
  method Advance(r: Run, speeds: Speeds, input: FrameInput) returns (s: Run)
    requires Valid(r) && WellFormed(input)
    ensures Valid(s)
    ensures s == AfterPasses(r, speeds, input)
    ensures s.points >= r.points && s.destroyed >= r.destroyed && s.streak >= r.streak
    ensures s.playerX == r.playerX
  {
    // slow motion applies this frame if it was running
    var slowed := r.timers.slowmo > 0;
    s := r.(timers := TickAll(r.timers), cooldown := Tick(r.cooldown));

    // enemies fall; those leaving the bottom are dodges
    s := Fall(s, if slowed then speeds.slowFall else speeds.fall);
    if input.enemySpawn.Some? {
      s := s.(enemies := s.enemies + [SpawnEnemy(input.enemySpawn.value.0, input.enemySpawn.value.1)]);
    }

    // lasers rise and destroy the first enemy they touch
    s := Shoot(s);

    // power-ups fall and are collected
    if input.powerSpawn.Some? {
      s := s.(powerUps := s.powerUps + [SpawnPowerUp(input.powerSpawn.value.0, input.powerSpawn.value.1)]);
    }
    s := Pick(s, if slowed then speeds.slowPowerFall else speeds.powerFall);
  }

  /** One iteration of `game_loop` after the auto-save check. `mid` is the run after the
      countdowns and the enemy, laser and power-up passes (`AfterPasses`): the run ends exactly when more
      of its enemies touch the player than it has shields. The move uses the speed boost
      as it stood before this frame's countdown, and auto-fire reads the countdowns after it. */
  method Frame(r: Run, speeds: Speeds, input: FrameInput) returns (r': Run, outcome: Outcome, ghost mid: Run)
    requires Valid(r) && WellFormed(input)
    ensures Valid(r')
    ensures r'.points >= r.points
    ensures r'.destroyed >= r.destroyed && r'.streak >= r.streak
    ensures mid == AfterPasses(r, speeds, input)
    ensures Valid(mid) && mid.playerX == r.playerX && mid.points >= r.points
    ensures outcome == Caught <==> Touching(mid.enemies, Hitbox(r.playerX)) > mid.shields
    ensures outcome == Caught ==> r'.shields == 0
    ensures outcome != Caught ==>
      && r'.shields == mid.shields - Touching(mid.enemies, Hitbox(r.playerX))
      && r'.enemies == Untouched(mid.enemies, Hitbox(r.playerX))
      && r'.points == mid.points && r'.timers == mid.timers && r'.powerUps == mid.powerUps
    ensures outcome == Closed <==> outcome != Caught && input.pause == WindowClosed
    ensures outcome == Quit <==> outcome != Caught && input.pause == PauseThenQuit
    ensures outcome == Quit || outcome == Closed ==>
      r'.playerX == r.playerX && r'.lasers == mid.lasers && r'.ammo == mid.ammo && r'.cooldown == mid.cooldown
    ensures outcome == Playing ==>
      && r'.playerX == MovePlayer(r.playerX, input.left, input.right,
                                  if r.timers.speed > 0 then BoostedSpeed else BaseSpeed)
      && var shot := AutoFire(mid.cooldown, mid.ammo, mid.timers.rapid > 0, mid.timers.double > 0, BaseCooldown, r'.playerX);
         r'.ammo == shot.ammo && r'.cooldown == shot.cooldown && r'.lasers == mid.lasers + shot.lasers
  {
    // the speed boost applies this frame if it was running
    var boosted := r.timers.speed > 0;
    var s := Advance(r, speeds, input);
    mid := s;

    // enemies touching the player
    var c := ContactPass(s.enemies, Hitbox(s.playerX), s.shields);
    ContactsCharacterised(s.enemies, Hitbox(s.playerX), s.shields);
    s := s.(enemies := c.enemies, shields := c.shields);
    if c.caught {
      return s, Caught, mid;
    }

    // the event queue, then the pause menu
    if input.pause == WindowClosed {
      return s, Closed, mid;
    }
    if input.pause == PauseThenQuit {
      return s, Quit, mid;
    }

    // movement, then auto-fire
    var px := MovePlayer(s.playerX, input.left, input.right, if boosted then BoostedSpeed else BaseSpeed);
    var shot := AutoFire(s.cooldown, s.ammo, s.timers.rapid > 0, s.timers.double > 0, BaseCooldown, px);
    s := s.(playerX := px, ammo := shot.ammo, cooldown := shot.cooldown, lasers := s.lasers + shot.lasers);
    return s, Playing, mid;
  }

  // ---------------------------------------------------------------- the run

  /** One pass of the `while True` loop of `game_loop`: the auto-save counter (every 1800
      frames the level's best is raised to the score so far), then the frame. */
  method Round(profile: Progress.Profile, level: string, r: Run, speeds: Speeds, input: FrameInput, autoSave: int)
    returns (r': Run, outcome: Outcome, autoSave': int)
    requires profile.Valid() && Valid(r) && WellFormed(input)
    modifies profile
    ensures profile.Valid() && Valid(r') && r'.points >= r.points
    ensures outcome == Caught ==> r'.shields == 0
    ensures autoSave' == if autoSave + 1 >= AutoSaveEvery then 0 else autoSave + 1
    ensures profile.bestScores == if autoSave + 1 >= AutoSaveEvery
      then Progress.WithBest(old(profile.bestScores), level, r.points)
      else old(profile.bestScores)
    ensures forall l :: Progress.BestOf(old(profile.bestScores), l) <= Progress.BestOf(profile.bestScores, l)
    ensures forall l :: l != level ==>
      Progress.BestOf(profile.bestScores, l) == Progress.BestOf(old(profile.bestScores), l)
    ensures Progress.BestOf(profile.bestScores, level)
      <= Progress.Max(Progress.BestOf(old(profile.bestScores), level), r.points)
    ensures profile.points == old(profile.points) && profile.highScore == old(profile.highScore)
    ensures profile.purchased == old(profile.purchased) && profile.equipped == old(profile.equipped)
  {
    autoSave' := autoSave + 1;
    if autoSave' >= AutoSaveEvery {
      autoSave' := 0;
      ghost var before := profile.bestScores;
      profile.RecordBest(level, r.points);
      Progress.WithBestGrows(before, level, r.points);
    }
    ghost var mid;
    r', outcome, mid := Frame(r, speeds, input);
  }

  /** `game_loop(difficulty, level)`: frames until the player is caught or quits (or the
      given frames run out). Every 1800 frames, and at the end, the level's best score is
      raised; a lost run also banks its points and may raise the high score. */
  method Play(profile: Progress.Profile, level: string, speeds: Speeds, frames: seq<FrameInput>)
    returns (outcome: Outcome, r: Run)
    requires profile.Valid()
    requires forall i :: 0 <= i < |frames| ==> WellFormed(frames[i])
    modifies profile
    ensures profile.Valid() && Valid(r)
    ensures profile.purchased == old(profile.purchased) && profile.equipped == old(profile.equipped)
    ensures forall l :: Progress.BestOf(old(profile.bestScores), l) <= Progress.BestOf(profile.bestScores, l)
    ensures forall l :: l != level ==> Progress.BestOf(profile.bestScores, l) == Progress.BestOf(old(profile.bestScores), l)
    ensures outcome != Playing ==>
      Progress.BestOf(profile.bestScores, level) == Progress.Max(Progress.BestOf(old(profile.bestScores), level), r.points)
    ensures outcome == Caught ==>
      && profile.points == old(profile.points) + r.points
      && profile.highScore == (if r.points > old(profile.highScore) then r.points else old(profile.highScore))
      && r.shields == 0
    ensures outcome == Quit || outcome == Closed ==>
      && profile.points == old(profile.points) + r.points
      && profile.highScore == old(profile.highScore)
    ensures outcome == Playing ==>
      && profile.points == old(profile.points) && profile.highScore == old(profile.highScore)
      && Progress.BestOf(profile.bestScores, level) <= Progress.Max(Progress.BestOf(old(profile.bestScores), level), r.points)
  {
    r := Start;
    outcome := Playing;
    var autoSave := 0;
    var i := 0;
    while i < |frames|
      invariant 0 <= i <= |frames|
      invariant outcome == Playing
      invariant profile.Valid() && Valid(r)
      invariant profile.points == old(profile.points) && profile.highScore == old(profile.highScore)
      invariant profile.purchased == old(profile.purchased) && profile.equipped == old(profile.equipped)
      invariant forall l :: Progress.BestOf(old(profile.bestScores), l) <= Progress.BestOf(profile.bestScores, l)
      invariant forall l :: l != level ==> Progress.BestOf(profile.bestScores, l) == Progress.BestOf(old(profile.bestScores), l)
      invariant Progress.BestOf(profile.bestScores, level) <= Progress.Max(Progress.BestOf(old(profile.bestScores), level), r.points)
    {
      r, outcome, autoSave := Round(profile, level, r, speeds, frames[i], autoSave);
      if outcome == Caught {
        ghost var before := profile.bestScores;
        profile.FinishCaught(level, r.points);
        Progress.WithBestGrows(before, level, r.points);
        return;
      } else if outcome == Quit || outcome == Closed {
        ghost var before := profile.bestScores;
        profile.FinishBanked(level, r.points);
        Progress.WithBestGrows(before, level, r.points);
        return;
      }
      i := i + 1;
    }
  }
}
