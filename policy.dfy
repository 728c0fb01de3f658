/** The judgement-window policy and the configuration it reads: the
    difficulty mode, the miss budget per mode, the threat level derived from
    the misses, the window that shrinks as the threat grows, the band in
    which the hannya hides, and the tempo clamp of the settings dialog. */
module Policy {
  import opened Options

  /** The difficulty radio value. Every test of the mode in main.js is
      `=== 'hard'` or `=== 'easy'`, so any other value behaves as Normal. */
  datatype Mode = Easy | Normal | Hard

  const BaseWindow: real := 0.15
  const MinWindow: real := 0.05
  const PerfectWindow: real := 0.04
  const MaxMissDefault: nat := 6
  const EasyExtraMiss: nat := 10
  const HideStep: nat := 5
  const MinBpm: real := 30.0
  const MaxBpm: real := 240.0

  /** The mode a radio value selects. */
  function ModeOf(value: string): (m: Mode)
    ensures m == Hard <==> value == "hard"
    ensures m == Easy <==> value == "easy"
    ensures m == Normal <==> value != "hard" && value != "easy"
  {
    if value == "easy" then Easy else if value == "hard" then Hard else Normal
  }

  /** The miss budget the settings dialog gives each mode. */
  function MaxMissFor(m: Mode): (n: nat)
    ensures n >= 1
    ensures n == 1 <==> m == Hard
  {
    match m
    case Easy => MaxMissDefault + EasyExtraMiss
    case Hard => 1
    case Normal => MaxMissDefault
  }

  /** Easy allows 16 misses, Normal 6 and Hard 1. */
  lemma MaxMissTable()
    ensures MaxMissFor(Easy) == 16 && MaxMissFor(Normal) == 6 && MaxMissFor(Hard) == 1
    ensures MaxMissFor(Hard) < MaxMissFor(Normal) < MaxMissFor(Easy)
  {
  }

  function MinInt(a: int, b: int): int { if a <= b then a else b }
  function MaxInt(a: int, b: int): int { if a >= b then a else b }

  /** The threat level `min(misses, maxMiss-1) / max(1, maxMiss-1)`. */
  function Threat(misses: nat, maxMiss: nat): (th: real)
    requires maxMiss >= 1
    ensures 0.0 <= th <= 1.0
    ensures maxMiss == 1 || misses == 0 ==> th == 0.0
    ensures th == 1.0 <==> 1 < maxMiss <= misses + 1
  {
    var d := MaxInt(1, maxMiss - 1) as real;
    var n := MinInt(misses, maxMiss - 1) as real;
    FractionBounds(n, d);
    n / d
  }

  /** `a * s <= b * s` with s > 0 gives `a <= b`. */
  lemma Unscale(a: real, b: real, s: real)
    requires s > 0.0 && a * s <= b * s
    ensures a <= b
  {
  }

  lemma DivTimes(n: real, d: real)
    requires d > 0.0
    ensures (n / d) * d == n
  {
  }

  lemma DivMono(n1: real, n2: real, d: real)
    requires n1 <= n2 && d > 0.0
    ensures n1 / d <= n2 / d
  {
    var q1, q2 := n1 / d, n2 / d;
    DivTimes(n1, d);
    DivTimes(n2, d);
    Unscale(q1, q2, d);
  }

  /** A fraction n/d with 0 <= n <= d lies in [0, 1], and is 1 exactly when n == d. */
  lemma FractionBounds(n: real, d: real)
    requires 0.0 <= n <= d && d > 0.0
    ensures 0.0 <= n / d <= 1.0
    ensures n / d == 1.0 <==> n == d
    ensures n == 0.0 ==> n / d == 0.0
  {
    var q := n / d;
    DivTimes(n, d);
    Unscale(0.0, q, d);
    Unscale(q, 1.0, d);
    if n == d {
      Unscale(1.0, q, d);
    }
  }

  /** More misses never lower the threat. */
  lemma ThreatMonotone(m1: nat, m2: nat, maxMiss: nat)
    requires maxMiss >= 1 && m1 <= m2
    ensures Threat(m1, maxMiss) <= Threat(m2, maxMiss)
  {
    var d := MaxInt(1, maxMiss - 1) as real;
    var n1, n2 := MinInt(m1, maxMiss - 1) as real, MinInt(m2, maxMiss - 1) as real;
    assert MinInt(m1, maxMiss - 1) <= MinInt(m2, maxMiss - 1);
    DivMono(n1, n2, d);
  }

  /** The unscaled window: linear from 0.15 s at no threat down to 0.05 s
      at full threat. */
  function BaseWindowAt(threat: real): (w: real)
    requires 0.0 <= threat <= 1.0
    ensures MinWindow <= w <= BaseWindow
    ensures threat == 0.0 ==> w == BaseWindow
    ensures threat == 1.0 ==> w == MinWindow
  {
    BaseWindow - (BaseWindow - MinWindow) * threat
  }

  /** The factor `currentWindow()` applies for a mode. */
  function ModeScale(mode: Mode): real
  {
    match mode
    case Hard => 0.6
    case Easy => 1.4
    case Normal => 1.0
  }

  /** `currentWindow()`: the base window scaled by 0.6 in Hard mode and by
      1.4 in Easy mode. */
  function Window(mode: Mode, misses: nat, maxMiss: nat): (w: real)
    requires maxMiss >= 1
    ensures w > 0.0
    ensures mode == Normal ==> MinWindow <= w <= BaseWindow
    ensures mode == Hard ==> 0.03 <= w <= 0.09
    ensures mode == Easy ==> 0.07 <= w <= 0.21
  {
    ModeScale(mode) * BaseWindowAt(Threat(misses, maxMiss))
  }

  /** For the same misses, Hard is stricter than Normal, which is stricter
      than Easy. */
  lemma WindowModeOrder(misses: nat, maxMiss: nat)
    requires maxMiss >= 1
    ensures Window(Hard, misses, maxMiss) < Window(Normal, misses, maxMiss) < Window(Easy, misses, maxMiss)
  {
  }

  /** The window never widens as the misses grow. */
  lemma WindowNonIncreasing(mode: Mode, m1: nat, m2: nat, maxMiss: nat)
    requires maxMiss >= 1 && m1 <= m2
    ensures Window(mode, m2, maxMiss) <= Window(mode, m1, maxMiss)
  {
    ThreatMonotone(m1, m2, maxMiss);
  }

  /** With no misses the window is 0.15 s scaled by the mode. With a
      budget above one it reaches the 0.05 s floor scaled by the mode from
      `maxMiss - 1` misses on; with a budget of one (Hard) the threat stays
      0 and the window never shrinks. */
  lemma WindowEnds(mode: Mode, misses: nat, maxMiss: nat)
    requires maxMiss >= 1
    ensures Window(mode, 0, maxMiss) == ModeScale(mode) * BaseWindow
    ensures 1 < maxMiss && misses >= maxMiss - 1 ==> Window(mode, misses, maxMiss) == ModeScale(mode) * MinWindow
    ensures maxMiss == 1 ==> Window(mode, misses, maxMiss) == ModeScale(mode) * BaseWindow
  {
  }

  /** The hannya hides while `HIDE_STEP <= misses < maxMiss`: never before
      the fifth miss, never once the budget is spent, and never at all when
      the budget is at most five. */
  function HannyaHidden(misses: nat, maxMiss: nat): (h: bool)
    ensures h ==> misses < maxMiss
    ensures misses < HideStep ==> !h
    ensures maxMiss <= HideStep ==> !h
  {
    HideStep <= misses < maxMiss
  }

  /** The hidden band per mode: never in Hard, only at the fifth miss in
      Normal, from the fifth to the fifteenth miss in Easy; and while hidden
      the game is never over. */
  lemma HiddenBandByMode(misses: nat)
    ensures !HannyaHidden(misses, MaxMissFor(Hard))
    ensures HannyaHidden(misses, MaxMissFor(Normal)) <==> misses == 5
    ensures HannyaHidden(misses, MaxMissFor(Easy)) <==> 5 <= misses <= 15
    ensures forall mode: Mode :: HannyaHidden(misses, MaxMissFor(mode)) ==> misses < MaxMissFor(mode)
  {
  }

  /** `Math.max(30, Math.min(240, Number(input) || previous))`: the input is
      None when `Number` gives NaN; NaN and 0 keep the previous tempo. */
  function ClampBpm(input: Option<real>, previous: real): (bpm: real)
    ensures MinBpm <= bpm <= MaxBpm
    ensures input.Some? && input.value != 0.0 && MinBpm <= input.value <= MaxBpm ==> bpm == input.value
    ensures input.Some? && input.value != 0.0 && input.value < MinBpm ==> bpm == MinBpm
    ensures input.Some? && input.value > MaxBpm ==> bpm == MaxBpm
    ensures (input.None? || input.value == 0.0) && MinBpm <= previous <= MaxBpm ==> bpm == previous
  {
    var v := if input.None? || input.value == 0.0 then previous else input.value;
    var capped := if v <= MaxBpm then v else MaxBpm;
    if capped >= MinBpm then capped else MinBpm
  }
}
