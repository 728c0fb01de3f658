/** The beat grid of the audio clock: seconds per beat, snapping a time to
    the nearest beat, and the target the note scheduler aims at next.
    Times are exact reals standing for the JavaScript doubles. */
module Beat {

  /** What the grid depends on: the session start on the audio clock
      (`startTimeCtx`), the configured offset and the tempo. */
  datatype Clock = Clock(start: real, offset: real, bpm: real)
  {
    predicate Valid() { bpm > 0.0 }

    /** The grid line with index 0: `startTimeCtx + OFFSET`. */
    function Origin(): real { start + offset }
  }

  /** Extra lead the scheduler adds to the clock reading to be sure it
      rounds to a beat that is not already behind it. */
  const Lead: real := 0.001

  /** Seconds per beat, `60 / BPM`. */
  function Spb(bpm: real): (s: real)
    requires bpm > 0.0
    ensures s > 0.0 && s * bpm == 60.0
  {
    60.0 / bpm
  }

  /** Within the tempo range the settings allow, a beat lasts from a
      quarter of a second to two seconds. */
  lemma SpbBounds(bpm: real)
    requires 30.0 <= bpm <= 240.0
    ensures 0.25 <= Spb(bpm) <= 2.0
  {
    var s := Spb(bpm);
    ScaleWeak(30.0, bpm, s);
    ScaleWeak(bpm, 240.0, s);
  }

  /** JavaScript's `Math.round`: the integer nearest to x, a half rounded
      towards positive infinity. */
  function Round(x: real): (k: int)
    ensures x - 0.5 < k as real <= x + 0.5
  {
    (x + 0.5).Floor
  }

  /** The index of the grid line nearest to t. */
  function BeatIndex(c: Clock, t: real): int
    requires c.Valid()
  {
    Round((t - c.Origin()) / Spb(c.bpm))
  }

  /** Grid line number k: `t0 + k * spb`. */
  function GridPoint(c: Clock, k: int): real
    requires c.Valid()
  {
    c.Origin() + k as real * Spb(c.bpm)
  }

  ghost predicate OnGrid(c: Clock, x: real)
    requires c.Valid()
  {
    exists k: int :: x == GridPoint(c, k)
  }

  /** Distance between two times, `Math.abs(a - b)`. */
  function Dist(a: real, b: real): (d: real)
    ensures d >= 0.0 && (d == a - b || d == b - a)
  {
    if a >= b then a - b else b - a
  }

  /** `nearestBeatTime(t)` of main.js: t snapped to the grid. */
  function NearestBeatTime(c: Clock, t: real): (b: real)
    requires c.Valid()
    ensures t - Spb(c.bpm) / 2.0 < b <= t + Spb(c.bpm) / 2.0
  {
    var s, x := Spb(c.bpm), (t - c.Origin()) / Spb(c.bpm);
    var k := BeatIndex(c, t);
    assert x * s == t - c.Origin();
    ScaleStrict(x - 0.5, k as real, s);
    ScaleWeak(k as real, x + 0.5, s);
    GridPoint(c, k)
  }

  lemma ScaleStrict(a: real, b: real, s: real)
    requires a < b && s > 0.0
    ensures a * s < b * s
  {
  }

  lemma ScaleWeak(a: real, b: real, s: real)
    requires a <= b && s > 0.0
    ensures a * s <= b * s
  {
  }

  /** The index of a grid line is the grid line's own number. */
  lemma IndexOfGridPoint(c: Clock, k: int)
    requires c.Valid()
    ensures BeatIndex(c, GridPoint(c, k)) == k
  {
    var s := Spb(c.bpm);
    assert (GridPoint(c, k) - c.Origin()) / s == k as real;
  }

  /** The snapped time is a grid line. */
  lemma NearestIsOnGrid(c: Clock, t: real)
    requires c.Valid()
    ensures OnGrid(c, NearestBeatTime(c, t))
  {
    assert NearestBeatTime(c, t) == GridPoint(c, BeatIndex(c, t));
  }

  lemma DivThenScale(a: real, s: real)
    requires s > 0.0
    ensures (a / s) * s == a
  {
  }

  lemma Distrib(a: real, b: real, s: real)
    ensures a * s - b * s == (a - b) * s
  {
  }

  /** Two points `o + a*s` and `o + b*s` with s > 0 are `Dist(a, b) * s` apart. */
  lemma DistScaled(p: real, q: real, o: real, a: real, b: real, s: real)
    requires s > 0.0 && p == o + a * s && q == o + b * s
    ensures Dist(p, q) == Dist(a, b) * s
  {
    if a >= b {
      ScaleWeak(b, a, s);
      Distrib(a, b, s);
      assert p - q == (a - b) * s;
    } else {
      ScaleWeak(a, b, s);
      Distrib(b, a, s);
      assert q - p == (b - a) * s;
    }
  }

  /** An integer within a half of x is at least as close to x as any other integer. */
  lemma RoundedIsNearestInteger(x: real, k: int, j: int)
    requires x - 0.5 < k as real <= x + 0.5
    ensures Dist(k as real, x) <= Dist(j as real, x)
  {
    assert Dist(k as real, x) <= 0.5;
    if j > k {
      assert j as real >= k as real + 1.0;
      assert Dist(j as real, x) >= 0.5;
    } else if j < k {
      assert j as real <= k as real - 1.0;
      assert Dist(j as real, x) >= 0.5;
    }
  }

  /** Scaling about a common origin by a positive factor keeps the order of
      distances. */
  lemma ScaledDistMono(p: real, g: real, q: real, o: real, a: real, b: real, x: real, s: real)
    requires s > 0.0 && p == o + a * s && g == o + b * s && q == o + x * s
    requires Dist(a, x) <= Dist(b, x)
    ensures Dist(p, q) <= Dist(g, q)
  {
    DistScaled(p, q, o, a, x, s);
    DistScaled(g, q, o, b, x, s);
    ScaleWeak(Dist(a, x), Dist(b, x), s);
  }

  /** No grid line is closer to t than the snapped time. */
  lemma NearestIsClosest(c: Clock, t: real, j: int)
    requires c.Valid()
    ensures Dist(NearestBeatTime(c, t), t) <= Dist(GridPoint(c, j), t)
  {
    var s, o := Spb(c.bpm), c.Origin();
    var x, k := (t - o) / s, BeatIndex(c, t);
    var nb, g := NearestBeatTime(c, t), GridPoint(c, j);
    assert nb == o + k as real * s;
    assert g == o + j as real * s;
    DivThenScale(t - o, s);
    assert t == o + x * s;
    RoundedIsNearestInteger(x, k, j);
    ScaledDistMono(nb, g, t, o, k as real, j as real, x, s);
  }

  /** Snapping is idempotent: a snapped time snaps to itself. */
  lemma NearestIdempotent(c: Clock, t: real)
    requires c.Valid()
    ensures NearestBeatTime(c, NearestBeatTime(c, t)) == NearestBeatTime(c, t)
  {
    IndexOfGridPoint(c, BeatIndex(c, t));
  }

  /** The target `spawnBeatLoop` computes: `nearestBeatTime(now + 0.001) + interval`. */
  function NextBeat(c: Clock, now: real): (b: real)
    requires c.Valid()
    ensures now + Lead + Spb(c.bpm) / 2.0 < b <= now + Lead + 3.0 * Spb(c.bpm) / 2.0
  {
    NearestBeatTime(c, now + Lead) + Spb(c.bpm)
  }

  /** The spawn target is a grid line strictly after the clock reading. */
  lemma NextBeatAfterNow(c: Clock, now: real)
    requires c.Valid()
    ensures OnGrid(c, NextBeat(c, now)) && NextBeat(c, now) > now
  {
    var k := BeatIndex(c, now + Lead);
    assert NextBeat(c, now) == GridPoint(c, k + 1);
  }

  /** A `setTimeout` delay in milliseconds that aims at spawnTime:
      `Math.max(0, (spawnTime - now) * 1000)`. */
  function DelayUntil(spawnTime: real, now: real): (ms: real)
    ensures ms >= 0.0
    ensures now + ms / 1000.0 == if spawnTime >= now then spawnTime else now
  {
    if (spawnTime - now) * 1000.0 >= 0.0 then (spawnTime - now) * 1000.0 else 0.0
  }

  /** The delay the scheduler arms its timer with: the note is spawned
      NOTE_TRAVEL_SEC before the next beat, or at once if that is past. */
  function SpawnDelay(c: Clock, travel: real, now: real): (ms: real)
    requires c.Valid()
    ensures ms >= 0.0
    ensures now + ms / 1000.0 == if NextBeat(c, now) - travel >= now then NextBeat(c, now) - travel else now
    ensures ms == 0.0 <==> NextBeat(c, now) - travel <= now
  {
    DelayUntil(NextBeat(c, now) - travel, now)
  }

  /** From 60 BPM up, a note travelling 1.8 s can never be spawned in time:
      the next target is at most 1.501 s ahead, so the timer is always armed
      with no delay. */
  lemma SpawnDelayZeroFrom60Bpm(c: Clock, now: real)
    requires c.Valid() && c.bpm >= 60.0
    ensures SpawnDelay(c, 1.8, now) == 0.0
  {
    ScaleWeak(60.0, c.bpm, Spb(c.bpm));
    assert NextBeat(c, now) <= now + Lead + 1.5;
  }

  /** At 80 BPM from a start at 0 with no offset, beats fall every 0.75 s. */
  lemma DefaultTempoGrid()
    ensures NearestBeatTime(Clock(0.0, 0.0, 80.0), 1.1) == 0.75
    ensures NearestBeatTime(Clock(0.0, 0.0, 80.0), 1.5) == 1.5
    ensures NextBeat(Clock(0.0, 0.0, 80.0), 0.0) == 0.75
  {
    var c := Clock(0.0, 0.0, 80.0);
    assert Spb(80.0) == 0.75;
    assert BeatIndex(c, 1.1) == 1;
    assert BeatIndex(c, 1.5) == 2;
    assert BeatIndex(c, Lead) == 0;
  }

  /** The scheduler does not aim at the first beat after the clock reading:
      when `now + 0.001` rounds up to the coming beat, adding the interval
      skips that beat. At 80 BPM and 0.5 s, the beat at 0.75 s is passed
      over for 1.5 s. */
  lemma NextBeatSkipsComingBeat()
    ensures NextBeat(Clock(0.0, 0.0, 80.0), 0.5) == 1.5
    ensures OnGrid(Clock(0.0, 0.0, 80.0), 0.75) && 0.5 < 0.75 < 1.5
  {
    var c := Clock(0.0, 0.0, 80.0);
    assert Spb(80.0) == 0.75;
    assert BeatIndex(c, 0.5 + Lead) == 1;
    assert GridPoint(c, 1) == 0.75;
  }
}
