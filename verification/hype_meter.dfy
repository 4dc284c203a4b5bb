/** The hype meter's level table and its progress-to-next-level bar
    (components/hypeos/hype-meter.tsx). */
module HypeMeter {
  import opened Base

  datatype LevelInfo = LevelInfo(name: string, color: string, nextLevel: int, description: string)

  /** The `levelData` object, keyed by level number. */
  const LevelData: map<int, LevelInfo> := map[
    1 := LevelInfo("Rookie", "text-gray-600", 100, "Just getting started"),
    2 := LevelInfo("Explorer", "text-green-600", 250, "Building momentum"),
    3 := LevelInfo("Achiever", "text-blue-600", 500, "Making progress"),
    4 := LevelInfo("Expert", "text-purple-600", 1000, "Getting skilled"),
    5 := LevelInfo("Master", "text-orange-600", 2000, "Highly proficient"),
    6 := LevelInfo("Champion", "text-red-600", 5000, "Elite performer"),
    7 := LevelInfo("Legend", "text-yellow-600", 10000, "Legendary status"),
    8 := LevelInfo("Mythic", "text-pink-600", 25000, "Mythical achievement"),
    9 := LevelInfo("Transcendent", "text-indigo-600", 50000, "Beyond limits"),
    10 := LevelInfo("Supreme", "text-cyan-600", 100000, "Ultimate mastery")
  ]

  /** `getLevelInfo`: the entry for the level, or level 1's entry when the
      object has no such key. */
  function GetLevelInfo(level: int): (info: LevelInfo)
    ensures info in LevelData.Values
    ensures !(1 <= level <= 10) ==> info == LevelInfo("Rookie", "text-gray-600", 100, "Just getting started")
    ensures 1 <= level <= 10 ==> info == LevelData[level]
  {
    if level in LevelData then LevelData[level] else LevelData[1]
  }

  /** The `nextLevel` thresholds strictly increase from level 1 to 10. */
  lemma NextLevelIncreasing(a: int, b: int)
    requires 1 <= a < b <= 10
    ensures GetLevelInfo(a).nextLevel < GetLevelInfo(b).nextLevel
  {
  }

  /** Where the current level's bar starts. */
  function LevelStart(level: int): (s: int)
    ensures level == 1 ==> s == 0
    ensures 2 <= level <= 11 ==> s == LevelData[level - 1].nextLevel
    ensures 1 <= level <= 10 ==> 0 <= s < GetLevelInfo(level).nextLevel
  {
    if level == 1 then 0 else GetLevelInfo(level - 1).nextLevel
  }

  /** `getNextLevelProgress`: `(points - start) / (next - start) * 100`,
      clamped with `Math.max(0, Math.min(100, ...))` on JavaScript numbers. */
  function NextLevelProgress(points: int, level: int): (p: JsNum)
    ensures 1 <= level <= 10 ==> p.Finite? && 0.0 <= p.r <= 100.0
    ensures 1 <= level <= 10 && points <= LevelStart(level) ==> p == Finite(0.0)
    ensures 1 <= level <= 10 && points >= GetLevelInfo(level).nextLevel ==> p == Finite(100.0)
  {
    var start := LevelStart(level);
    var next := GetLevelInfo(level).nextLevel;
    var raw := JsScale(JsDiv((points - start) as real, (next - start) as real), 100.0);
    if start < next then BandRatio(points, start, next); Clamp(raw) else Clamp(raw)
  }

  /** The unclamped ratio for a band `[start, next]` with `start < next`. */
  lemma BandRatio(points: int, start: int, next: int)
    requires start < next
    ensures var q := (points - start) as real / (next - start) as real * 100.0;
            && (points <= start ==> q <= 0.0)
            && (points >= next ==> q >= 100.0)
            && (start <= points <= next ==> 0.0 <= q <= 100.0)
  {
    var d := (next - start) as real;
    var f := (points - start) as real / d;
    assert f * d == (points - start) as real;
    if points >= next {
      assert f >= 1.0;
    }
    if points <= next {
      assert f <= 1.0;
    }
  }

  /** `Math.max(0, Math.min(100, x))`. */
  function Clamp(x: JsNum): (c: JsNum)
    ensures x == NaN <==> c == NaN
    ensures x.Finite? ==> c == Finite(if x.r < 0.0 then 0.0 else if x.r > 100.0 then 100.0 else x.r)
    ensures x == PosInf ==> c == Finite(100.0)
    ensures x == NegInf ==> c == Finite(0.0)
  {
    JsMax(Finite(0.0), JsMin(Finite(100.0), x))
  }

  /** Inside the level's band the bar is the exact fraction covered. */
  lemma ProgressInsideBand(points: int, level: int)
    requires 1 <= level <= 10
    requires LevelStart(level) <= points <= GetLevelInfo(level).nextLevel
    ensures NextLevelProgress(points, level)
            == Finite((points - LevelStart(level)) as real / (GetLevelInfo(level).nextLevel - LevelStart(level)) as real * 100.0)
  {
    BandRatio(points, LevelStart(level), GetLevelInfo(level).nextLevel);
  }

  /** Outside 1..10 the bar can come out NaN: level 0 borrows level 1's
      threshold both as its start and as its end. */
  lemma LevelZeroCanBeNaN()
    ensures NextLevelProgress(100, 0) == NaN
  {
  }
}
