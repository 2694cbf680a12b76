/** Persistent progress: the level ladder and its unlock rule, the saved-file loader's
    defaulting, and the player profile (total points, high score, per-level best
    scores, shop purchases and the equipped character) with the shop's buy/equip rule
    and the end-of-run bookkeeping. */
module Progress {
  import opened Wrappers

  /** `level_order`. */
  const Levels: seq<string> := ["Easy", "Medium", "Hard", "Impossible", "God Mode", "Creator Mode", "BOSS MODE"]
  const BossLevel: string := "BOSS MODE"

  /** `level_unlock_requirements`: the best score needed in the previous level. */
  const UnlockRequirement: map<string, int> := map[
    "Easy" := 0, "Medium" := 20, "Hard" := 25, "Impossible" := 30,
    "God Mode" := 35, "Creator Mode" := 40, "BOSS MODE" := 45]

  /** The shop's items in the order the menu lists them, and their costs. */
  const ShopItems: seq<string> := ["EMDR Tejeck", "BabyTejeck", "Amelia", "Evan", "Mei", "Alv"]
  const Cost: map<string, int> := map[
    "EMDR Tejeck" := 0, "BabyTejeck" := 200, "Amelia" := 250, "Evan" := 300, "Mei" := 350, "Alv" := 400]
  const DefaultItem: string := "EMDR Tejeck"

  /** `list.index`: the position of the first occurrence. */
  function IndexOf(s: seq<string>, x: string): (i: nat)
    requires x in s
    ensures i < |s| && s[i] == x
    ensures forall j :: 0 <= j < i ==> s[j] != x
  {
    if s[0] == x then 0 else 1 + IndexOf(s[1..], x)
  }

  /** A best-score table with an entry for every level. */
  predicate CompleteScores(best: map<string, int>)
  {
    forall i :: 0 <= i < |Levels| ==> Levels[i] in best
  }

  /** `is_level_unlocked`: the first level is always open; any other needs the previous
      level's best score to reach the level's requirement. */
  function IsLevelUnlocked(level: string, best: map<string, int>): (r: bool)
    requires level in Levels && CompleteScores(best)
    ensures level == Levels[0] ==> r
    ensures level != Levels[0] ==>
      (r <==> exists i :: 1 <= i < |Levels| && Levels[i] == level && best[Levels[i - 1]] >= UnlockRequirement[level])
  {
    var i := IndexOf(Levels, level);
    if i == 0 then true
    else
      assert Levels[i - 1] in best && level in UnlockRequirement;
      best[Levels[i - 1]] >= UnlockRequirement[level]
  }

  /** Every requirement beyond the first level is positive. */
  lemma RequirementsPositive(i: int)
    requires 1 <= i < |Levels|
    ensures Levels[i] in UnlockRequirement && UnlockRequirement[Levels[i]] >= 20
  {
  }

  /** With every best score at 0 (a fresh or reset save), only the first level is open. */
  lemma {:induction false} OnlyEasyOpenAtStart(level: string, best: map<string, int>)
    requires level in Levels && CompleteScores(best)
    requires forall i :: 0 <= i < |Levels| ==> best[Levels[i]] == 0
    ensures IsLevelUnlocked(level, best) <==> level == "Easy"
  {
    var i := IndexOf(Levels, level);
    if i > 0 {
      RequirementsPositive(i);
    }
  }

  /** Raising best scores never locks a level. */
  lemma UnlockIsMonotone(level: string, best: map<string, int>, best': map<string, int>)
    requires level in Levels && CompleteScores(best) && CompleteScores(best')
    requires forall i :: 0 <= i < |Levels| ==> best[Levels[i]] <= best'[Levels[i]]
    requires IsLevelUnlocked(level, best)
    ensures IsLevelUnlocked(level, best')
  {
    var i := IndexOf(Levels, level);
    if i > 0 {
      assert best[Levels[i - 1]] <= best'[Levels[i - 1]];
    }
  }

  /** `best_scores.get(level, 0)`. */
  function BestOf(best: map<string, int>, level: string): int
  {
    if level in best then best[level] else 0
  }

  /** The best-score update: `if score > best.get(level, 0): best[level] = score`. */
  function WithBest(best: map<string, int>, level: string, score: int): (b: map<string, int>)
    ensures b.Keys == best.Keys + (if score > BestOf(best, level) then {level} else {})
    ensures BestOf(b, level) == if score > BestOf(best, level) then score else BestOf(best, level)
    ensures forall l :: l in best && l != level ==> l in b && b[l] == best[l]
  {
    if score > BestOf(best, level) then best[level := score] else best
  }

  function Max(x: int, y: int): int
  {
    if x > y then x else y
  }

  /** Recording a score never lowers any level's best: the level's best becomes the
      larger of the old best and the score, and every other level's stays. */
  lemma WithBestGrows(best: map<string, int>, level: string, score: int)
    ensures forall l :: BestOf(best, l) <= BestOf(WithBest(best, level, score), l)
    ensures forall l :: l != level ==> BestOf(WithBest(best, level, score), l) == BestOf(best, l)
    ensures BestOf(WithBest(best, level, score), level) == Max(BestOf(best, level), score)
  {
    var b := WithBest(best, level, score);
    forall l | l != level ensures BestOf(b, l) == BestOf(best, l) {
      if l !in best {
        assert l !in b;
      }
    }
  }

  /** A best score only ever goes up, so a level once unlocked stays unlocked. */
  lemma RecordingKeepsUnlocked(level: string, best: map<string, int>, played: string, score: int)
    requires level in Levels && CompleteScores(best)
    requires IsLevelUnlocked(level, best)
    ensures CompleteScores(WithBest(best, played, score))
    ensures IsLevelUnlocked(level, WithBest(best, played, score))
  {
    var b := WithBest(best, played, score);
    forall i | 0 <= i < |Levels|
      ensures Levels[i] in b && best[Levels[i]] <= b[Levels[i]]
    {
      assert Levels[i] in best;
    }
    UnlockIsMonotone(level, best, b);
  }

  // ---------------------------------------------------------------- loading

  /** What a decoded save file may hold; each key may be absent. */
  datatype SavedProgress = SavedProgress(
    points: Option<int>,
    highScore: Option<int>,
    purchasedItems: Option<map<string, bool>>,
    bestScores: Option<map<string, int>>)

  /** The save file as the loader finds it. */
  datatype SaveFile = NoFile | Undecodable | Decoded(saved: SavedProgress)

  /** The values `load_progress` assigns to the globals. */
  datatype Record = Record(points: int, highScore: int, purchased: map<string, bool>, best: map<string, int>)

  /** A decoded file without "purchased_items" makes the loader raise a KeyError that
      nothing catches. */
  datatype LoadError = MissingPurchasedItems

  function LookupOr<V>(m: map<string, V>, key: string, default: V): V
  {
    if key in m then m[key] else default
  }

  /** Everything reset: no points, no high score, nothing purchased, every best 0. */
  const Defaults: Record := Record(0, 0, map i | i in ShopItems :: false, map l | l in Levels :: 0)

  /** `load_progress`, without the file I/O. */
  function LoadProgress(f: SaveFile): (r: Result<Record, LoadError>)
    ensures !f.Decoded? ==> r == Success(Defaults)
    ensures r.Failure? <==> f.Decoded? && f.saved.purchasedItems.None?
    ensures r.Success? ==> r.value.purchased.Keys == set i | i in ShopItems
    ensures r.Success? ==> r.value.best.Keys == set l | l in Levels
    ensures r.Success? && f.Decoded? ==>
      && r.value.points == f.saved.points.GetOr(0)
      && r.value.highScore == f.saved.highScore.GetOr(0)
      && (forall i :: i in ShopItems ==> r.value.purchased[i] == LookupOr(f.saved.purchasedItems.value, i, false))
      && (forall l :: l in Levels ==> r.value.best[l] == LookupOr(f.saved.bestScores.GetOr(map[]), l, 0))
  {
    match f
    case NoFile => Success(Defaults)
    case Undecodable => Success(Defaults)
    case Decoded(s) =>
      if s.purchasedItems.None? then Failure(MissingPurchasedItems)
      else
        var owned := s.purchasedItems.value;
        var saved := s.bestScores.GetOr(map[]);
        Success(Record(
          s.points.GetOr(0),
          s.highScore.GetOr(0),
          map i | i in ShopItems :: LookupOr(owned, i, false),
          map l | l in Levels :: LookupOr(saved, l, 0)))
  }

  /** Whatever the file holds, a successful load gives every level a best score, so the
      unlock rule can be asked about every level. */
  lemma LoadedScoresComplete(f: SaveFile)
    requires LoadProgress(f).Success?
    ensures CompleteScores(LoadProgress(f).value.best)
  {
    var b := LoadProgress(f).value.best;
    forall i | 0 <= i < |Levels| ensures Levels[i] in b {
      assert Levels[i] in set l | l in Levels;
    }
  }

  // ---------------------------------------------------------------- the profile

  datatype ShopResult = Equipped(bought: bool) | NotEnough(needed: int)

  /** The game's module-level progress state. */
  class Profile {
    var points: int
    var highScore: int
    var bestScores: map<string, int>
    var purchased: map<string, bool>
    var equipped: string

    ghost predicate Valid()
      reads this
    {
      && CompleteScores(bestScores)
      && (forall i :: 0 <= i < |ShopItems| ==> ShopItems[i] in purchased)
      && equipped in ShopItems
    }

    /** The globals once `load_progress` has assigned them; the equipped item is the default. */
    constructor Loaded(rec: Record)
      requires rec.purchased.Keys == set i | i in ShopItems
      requires rec.best.Keys == set l | l in Levels
      ensures Valid()
      ensures points == rec.points && highScore == rec.highScore
      ensures bestScores == rec.best && purchased == rec.purchased && equipped == DefaultItem
    {
      points := rec.points;
      highScore := rec.highScore;
      bestScores := rec.best;
      purchased := rec.purchased;
      equipped := DefaultItem;
      new;
      forall i | 0 <= i < |Levels| ensures Levels[i] in bestScores {
        assert Levels[i] in set l | l in Levels;
      }
      forall i | 0 <= i < |ShopItems| ensures ShopItems[i] in purchased {
        assert ShopItems[i] in set j | j in ShopItems;
      }
    }

    /** The best-score update for one level. */
    method RecordBest(level: string, score: int)
      requires Valid()
      modifies this
      ensures Valid()
      ensures bestScores == WithBest(old(bestScores), level, score)
      ensures points == old(points) && highScore == old(highScore)
      ensures purchased == old(purchased) && equipped == old(equipped)
    {
      if score > BestOf(bestScores, level) {
        bestScores := bestScores[level := score];
      }
    }

    /** A survival run lost to a hit: bank the run's points, then raise the high score
        and the level's best score if the run beat them. */
    method FinishCaught(level: string, score: int)
      requires Valid()
      modifies this
      ensures Valid()
      ensures points == old(points) + score
      ensures highScore == if score > old(highScore) then score else old(highScore)
      ensures bestScores == WithBest(old(bestScores), level, score)
      ensures purchased == old(purchased) && equipped == old(equipped)
    {
      points := points + score;
      if score > highScore {
        highScore := score;
      }
      RecordBest(level, score);
    }

    /** A run left through the pause menu, and a boss run lost to a hit: bank the points
        and raise the level's best score; the high score is not touched. */
    method FinishBanked(level: string, score: int)
      requires Valid()
      modifies this
      ensures Valid()
      ensures points == old(points) + score
      ensures highScore == old(highScore)
      ensures bestScores == WithBest(old(bestScores), level, score)
      ensures purchased == old(purchased) && equipped == old(equipped)
    {
      points := points + score;
      RecordBest(level, score);
    }

    /** The boss defeated: bank the points and raise the high score; the boss level's
        best score is not touched. */
    method FinishVictory(score: int)
      requires Valid()
      modifies this
      ensures Valid()
      ensures points == old(points) + score
      ensures highScore == if score > old(highScore) then score else old(highScore)
      ensures bestScores == old(bestScores) && purchased == old(purchased) && equipped == old(equipped)
    {
      points := points + score;
      if score > highScore {
        highScore := score;
      }
    }

    /** ENTER in the shop on the item at `selected`: buy it if it is not owned and the
        points cover its cost, then equip it if it is owned. */
    method ShopEnter(selected: nat) returns (result: ShopResult)
      requires Valid() && selected < |ShopItems|
      modifies this
      ensures Valid()
      ensures highScore == old(highScore) && bestScores == old(bestScores)
      ensures var name := ShopItems[selected];
        && (old(purchased[name]) ==>
              result == Equipped(false) && points == old(points) && purchased == old(purchased) && equipped == name)
        && (!old(purchased[name]) && old(points) >= Cost[name] ==>
              && result == Equipped(true) && points == old(points) - Cost[name]
              && purchased == old(purchased)[name := true] && equipped == name)
        && (!old(purchased[name]) && old(points) < Cost[name] ==>
              && result == NotEnough(Cost[name] - old(points))
              && points == old(points) && purchased == old(purchased) && equipped == old(equipped))
      ensures old(points) >= 0 ==> points >= 0
      ensures purchased[equipped] || equipped == old(equipped)
    {
      var name := ShopItems[selected];
      var cost := Cost[name];
      result := Equipped(false);
      if !purchased[name] {
        if points >= cost {
          points := points - cost;
          purchased := purchased[name := true];
          result := Equipped(true);
        } else {
          result := NotEnough(cost - points);
        }
      }
      if purchased[name] {
        equipped := name;
      }
    }
  }
}
