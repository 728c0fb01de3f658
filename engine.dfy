/** The judgement engine and the session state of main.js: the notes table
    (a JS Map kept in insertion order), the nearest-note search of
    `handleHit`, the hit and miss registrations, the automatic miss of a note
    that arrives unhit, the spawn scheduler, start, reset and settings. */
module Engine {
  import opened Options
  import opened Beat
  import opened Policy
  import opened Gimmick

  /** One entry of the notes table: `id -> {targetTime, hit}`. */
  datatype Entry = Entry(id: nat, targetTime: real, hit: bool)

  /** The judgement shown for an input or an expired note. */
  datatype Tier = Perfect | Ok | Miss

  /** The armed spawn timer: the beat it will spawn a note for, and the
      delay in milliseconds it was armed with. */
  datatype Pending = Pending(target: real, delayMs: real)

  /** How long a note travels from spawn to arrival (NOTE_TRAVEL_SEC). */
  const NoteTravelSec: real := 1.8

  /** The tier of a hit `dt` seconds off its note. */
  function TierOf(dt: real): (tier: Tier)
    ensures tier != Miss
    ensures tier == Perfect <==> dt <= PerfectWindow
  {
    if dt <= PerfectWindow then Perfect else Ok
  }

  /** Ids grow along the table: every note is inserted with `++noteIdCounter`. */
  ghost predicate IdsIncreasing(notes: seq<Entry>)
  {
    forall i, j :: 0 <= i < j < |notes| ==> notes[i].id < notes[j].id
  }

  /** Entry k is the note `handleHit` picks for an input at t: it is unhit,
      no unhit note is closer, and every unhit note before it is strictly
      farther (the loop only replaces its choice on a strict `<`). */
  ghost predicate IsNearest(notes: seq<Entry>, t: real, k: int)
  {
    && 0 <= k < |notes| && !notes[k].hit
    && (forall j :: 0 <= j < |notes| && !notes[j].hit ==>
          Dist(notes[k].targetTime, t) <= Dist(notes[j].targetTime, t))
    && (forall j :: 0 <= j < k && !notes[j].hit ==>
          Dist(notes[k].targetTime, t) < Dist(notes[j].targetTime, t))
  }

  /** The scan of `handleHit`: the position of the unhit note nearest to t,
      or None when every note is hit. */
  method NearestUnhit(notes: seq<Entry>, t: real) returns (best: Option<nat>)
    ensures best.None? <==> forall j :: 0 <= j < |notes| ==> notes[j].hit
    ensures best.Some? ==> IsNearest(notes, t, best.value)
  {
    best := None;
    var bestDt := 0.0;  // unused while best is None, where the source has Infinity
    for i := 0 to |notes|
      invariant best.None? <==> forall j :: 0 <= j < i ==> notes[j].hit
      invariant best.Some? ==> best.value < i && bestDt == Dist(notes[best.value].targetTime, t)
      invariant best.Some? ==> IsNearest(notes[..i], t, best.value)
    {
      if notes[i].hit {
        continue;
      }
      var dt := Dist(notes[i].targetTime, t);
      if best.None? || dt < bestDt {
        best, bestDt := Some(i), dt;
      }
    }
    assert notes[..|notes|] == notes;
  }

  /** The tie-break makes the choice unique. */
  lemma NearestUnique(notes: seq<Entry>, t: real, k1: int, k2: int)
    requires IsNearest(notes, t, k1) && IsNearest(notes, t, k2)
    ensures k1 == k2
  {
  }

  /** Among unhit notes equally near, the one with the lowest id wins. */
  lemma NearestTieGoesToLowestId(notes: seq<Entry>, t: real, k: int, j: int)
    requires IdsIncreasing(notes) && IsNearest(notes, t, k)
    requires 0 <= j < |notes| && !notes[j].hit
    requires Dist(notes[j].targetTime, t) == Dist(notes[k].targetTime, t)
    ensures notes[k].id <= notes[j].id
  {
  }

  /** `notes.get(id)`: the position of the entry with that id. */
  function Find(notes: seq<Entry>, id: nat): (r: Option<nat>)
    ensures r.Some? ==> r.value < |notes| && notes[r.value].id == id
    ensures r.None? <==> forall j :: 0 <= j < |notes| ==> notes[j].id != id
  {
    if |notes| == 0 then None
    else if notes[0].id == id then Some(0)
    else match Find(notes[1..], id)
      case None => None
      case Some(k) => Some(k + 1)
  }

  /** With distinct ids, looking up an entry's id finds that very entry. */
  lemma FindOwnId(notes: seq<Entry>, k: nat)
    requires IdsIncreasing(notes) && k < |notes|
    ensures Find(notes, notes[k].id) == Some(k)
  {
  }

  /** The table without its entry at position k. */
  function Without(notes: seq<Entry>, k: nat): (r: seq<Entry>)
    requires k < |notes|
    ensures |r| == |notes| - 1
    ensures forall i :: 0 <= i < |r| ==> r[i] == notes[if i < k then i else i + 1]
  {
    notes[..k] + notes[k + 1..]
  }

  /** Dropping the entry at k keeps the ids increasing and removes exactly
      the entries with that entry's id. */
  lemma WithoutMembers(notes: seq<Entry>, k: nat)
    requires IdsIncreasing(notes) && k < |notes|
    ensures IdsIncreasing(Without(notes, k))
    ensures forall e :: e in Without(notes, k) <==> e in notes && e.id != notes[k].id
  {
    var r := Without(notes, k);
    forall e | e in notes && e.id != notes[k].id
      ensures e in r
    {
      var i :| 0 <= i < |notes| && notes[i] == e;
      assert r[if i < k then i else i - 1] == e;
    }
  }

  /** `notes.delete(id)`: the table without the entry with that id. */
  function Remove(notes: seq<Entry>, id: nat): (r: seq<Entry>)
    requires IdsIncreasing(notes)
    ensures IdsIncreasing(r)
    ensures Find(notes, id).None? ==> r == notes
    ensures Find(notes, id).Some? ==> |r| == |notes| - 1
    ensures forall e :: e in r <==> e in notes && e.id != id
  {
    match Find(notes, id)
    case None => notes
    case Some(k) => WithoutMembers(notes, k); Without(notes, k)
  }

  /** The timer `scheduleNext` arms: its target is the grid line nearest to
      `now + 0.001` plus the interval captured when the loop was started. */
  function ArmedFor(c: Clock, interval: real, now: real): (p: Pending)
    requires c.Valid()
    ensures OnGrid(c, p.target - interval)
    ensures now + Lead - Spb(c.bpm) / 2.0 < p.target - interval <= now + Lead + Spb(c.bpm) / 2.0
    ensures p.delayMs >= 0.0
    ensures now + p.delayMs / 1000.0 == if p.target - NoteTravelSec >= now then p.target - NoteTravelSec else now
  {
    var target := NearestBeatTime(c, now + Lead) + interval;
    NearestIsOnGrid(c, now + Lead);
    Pending(target, DelayUntil(target - NoteTravelSec, now))
  }

  /** While the tempo has not changed since the loop started, the timer aims
      at `NextBeat`, a grid line strictly after the clock reading. */
  lemma ArmedForCurrentTempo(c: Clock, now: real)
    requires c.Valid()
    ensures ArmedFor(c, Spb(c.bpm), now) == Pending(NextBeat(c, now), SpawnDelay(c, NoteTravelSec, now))
    ensures OnGrid(c, ArmedFor(c, Spb(c.bpm), now).target) && ArmedFor(c, Spb(c.bpm), now).target > now
  {
    NextBeatAfterNow(c, now);
  }

  /** From 60 BPM up a re-armed timer has no delay, and while the clock
      reading plus 1 ms rounds to the same beat it aims at the same grid
      line: the loop keeps spawning notes for one beat until the clock
      crosses the midpoint to the next. */
  lemma RearmSameBeat(c: Clock, now: real, later: real)
    requires c.Valid() && c.bpm >= 60.0
    requires BeatIndex(c, now + Lead) == BeatIndex(c, later + Lead)
    ensures ArmedFor(c, Spb(c.bpm), later).target == ArmedFor(c, Spb(c.bpm), now).target
    ensures ArmedFor(c, Spb(c.bpm), now).delayMs == 0.0 && ArmedFor(c, Spb(c.bpm), later).delayMs == 0.0
  {
    ArmedForCurrentTempo(c, now);
    ArmedForCurrentTempo(c, later);
    SpawnDelayZeroFrom60Bpm(c, now);
    SpawnDelayZeroFrom60Bpm(c, later);
  }

  /** The module-level game state of main.js as one object. */
  class Session {
    var combo: nat
    var misses: nat
    var maxMiss: nat
    var mode: Mode
    var playing: bool
    var notes: seq<Entry>
    var noteIdCounter: nat
    var bpm: real
    var offset: real
    var startTime: real
    /** The armed spawn timer, if any. */
    var pendingSpawn: Option<Pending>
    /** `interval` of `spawnBeatLoop`, captured when the loop starts. */
    var loopInterval: real

    ghost predicate Valid()
      reads this
    {
      && maxMiss == MaxMissFor(mode)
      && MinBpm <= bpm <= MaxBpm
      && IdsIncreasing(notes)
      && (forall i :: 0 <= i < |notes| ==> notes[i].id <= noteIdCounter)
    }

    /** A game in progress has misses left. Every miss re-establishes this;
        nothing keeps misses below maxMiss once the game is over. */
    ghost predicate Alive()
      reads this
    {
      playing ==> misses < maxMiss
    }

    function ClockOf(): (c: Clock)
      reads this
      requires Valid()
      ensures c.Valid()
    {
      Clock(startTime, offset, bpm)
    }

    /** The page's initial state; `startTimeCtx` starts as null, which the
        clock arithmetic reads as 0. */
    constructor ()
      ensures Valid() && Alive()
      ensures combo == 0 && misses == 0 && mode == Normal && maxMiss == MaxMissDefault && !playing
      ensures notes == [] && noteIdCounter == 0 && pendingSpawn == None
      ensures bpm == 80.0 && offset == 0.0 && startTime == 0.0
    {
      combo, misses, maxMiss, mode, playing := 0, 0, MaxMissDefault, Normal, false;
      notes, noteIdCounter := [], 0;
      bpm, offset, startTime := 80.0, 0.0, 0.0;
      pendingSpawn, loopInterval := None, Spb(80.0);
    }

    /** The Apply button of the settings dialog. modeValue is the checked
        difficulty radio (None when none is checked); the numeric inputs are
        None when `Number` reads them as NaN. */
    method ApplySettings(modeValue: Option<string>, bpmInput: Option<real>, offsetInput: Option<real>)
      requires Valid()
      modifies this`mode, this`bpm, this`offset, this`maxMiss
      ensures Valid()
      ensures mode == (if modeValue.Some? then ModeOf(modeValue.value) else old(mode))
      ensures maxMiss == MaxMissFor(mode)
      ensures bpm == ClampBpm(bpmInput, old(bpm)) && Spb(bpm) > 0.0
      ensures offset == (if offsetInput.Some? && offsetInput.value != 0.0 then offsetInput.value else 0.0)
    {
      if modeValue.Some? {
        mode := ModeOf(modeValue.value);
      }
      bpm := ClampBpm(bpmInput, bpm);
      offset := if offsetInput.Some? && offsetInput.value != 0.0 then offsetInput.value else 0.0;
      if mode == Easy {
        maxMiss := MaxMissDefault + EasyExtraMiss;
      } else if mode == Hard {
        maxMiss := 1;
      } else {
        maxMiss := MaxMissDefault;
      }
    }

    /** `scheduleNext`: unless the game is over, arm the spawn timer. */
    method ScheduleNext(now: real)
      requires Valid()
      modifies this`pendingSpawn
      ensures Valid()
      ensures pendingSpawn == if playing then Some(ArmedFor(ClockOf(), loopInterval, now)) else old(pendingSpawn)
    {
      if !playing {
        return;
      }
      pendingSpawn := Some(ArmedFor(ClockOf(), loopInterval, now));
    }

    /** `spawnBeatLoop`: cancel the armed timer, capture the interval, and
        schedule the next spawn. */
    method SpawnBeatLoop(now: real)
      requires Valid()
      modifies this`pendingSpawn, this`loopInterval
      ensures Valid()
      ensures loopInterval == Spb(bpm)
      ensures pendingSpawn == if playing then Some(ArmedFor(ClockOf(), loopInterval, now)) else None
    {
      pendingSpawn := None;
      loopInterval := Spb(bpm);
      ScheduleNext(now);
    }

    /** `spawnNoteAt`, table part: insert an unhit note under the next id. */
    method SpawnNoteAt(targetTime: real) returns (id: nat)
      requires Valid()
      modifies this`notes, this`noteIdCounter
      ensures Valid()
      ensures id == noteIdCounter == old(noteIdCounter) + 1
      ensures notes == old(notes) + [Entry(id, targetTime, false)]
      ensures Find(old(notes), id).None?
    {
      noteIdCounter := noteIdCounter + 1;
      id := noteIdCounter;
      notes := notes + [Entry(id, targetTime, false)];
    }

    /** The armed timer fires: spawn a note for its beat while the game is
        on, then schedule the next one. */
    method FireSpawnTimer(now: real)
      requires Valid() && pendingSpawn.Some?
      modifies this`notes, this`noteIdCounter, this`pendingSpawn
      ensures Valid()
      ensures old(playing) ==>
        && noteIdCounter == old(noteIdCounter) + 1
        && notes == old(notes) + [Entry(noteIdCounter, old(pendingSpawn).value.target, false)]
      ensures !old(playing) ==> notes == old(notes) && noteIdCounter == old(noteIdCounter)
      ensures pendingSpawn == if playing then Some(ArmedFor(ClockOf(), loopInterval, now)) else None
    {
      var nextBeat := pendingSpawn.value.target;
      pendingSpawn := None;
      if playing {
        var _ := SpawnNoteAt(nextBeat);
      }
      ScheduleNext(now);
    }

    /** The delayed `notes.delete(id)` after a note's fade-out. */
    method RemoveNote(id: nat)
      requires Valid()
      modifies this`notes
      ensures Valid()
      ensures notes == Remove(old(notes), id)
    {
      notes := Remove(notes, id);
    }

    /** `triggerDeath`: the game is over. */
    method TriggerDeath()
      requires Valid()
      modifies this`playing
      ensures Valid()
      ensures !playing
    {
      playing := false;
    }

    /** `registerHit`: resolve the note as hit, grow the combo by one, and
        report the tier shown and the gimmick the new combo fires. Misses are
        left alone. */
    method RegisterHit(id: nat, dt: real) returns (tier: Option<Tier>, effect: Option<Effect>)
      requires Valid()
      modifies this`notes, this`combo
      ensures Valid()
      ensures Find(old(notes), id).None? ==>
        tier.None? && effect.None? && notes == old(notes) && combo == old(combo)
      ensures Find(old(notes), id).Some? ==>
        var k := Find(old(notes), id).value;
        && notes == old(notes)[k := old(notes)[k].(hit := true)]
        && combo == old(combo) + 1
        && tier == Some(TierOf(dt))
        && effect == GimmickFor(combo)
    {
      var k := Find(notes, id);
      if k.None? {
        return None, None;
      }
      notes := notes[k.value := notes[k.value].(hit := true)];
      assert forall i :: 0 <= i < |notes| ==> notes[i].id == old(notes)[i].id;
      tier := Some(TierOf(dt));
      combo := combo + 1;
      effect := GimmickFor(combo);
    }

    /** `registerMiss`: one more miss, the combo broken, and death exactly
        when the misses reach the budget. */
    method RegisterMiss() returns (died: bool)
      requires Valid()
      modifies this`misses, this`combo, this`playing
      ensures Valid() && Alive()
      ensures misses == old(misses) + 1 && combo == 0
      ensures died <==> misses >= maxMiss
      ensures playing == (old(playing) && !died)
    {
      misses := misses + 1;
      combo := 0;
      died := false;
      if mode == Hard || misses >= maxMiss {
        if misses >= maxMiss {
          died := true;
          TriggerDeath();
        }
      }
    }

    /** `onNoteMiss`: a note arrived unhit. It is resolved and counted as a
        miss whether or not the game is still on. */
    method OnNoteMiss(id: nat) returns (died: bool)
      requires Valid()
      modifies this`notes, this`misses, this`combo, this`playing
      ensures Valid()
      ensures Find(old(notes), id).None? ==>
        !died && notes == old(notes) && misses == old(misses) && combo == old(combo) && playing == old(playing)
      ensures Find(old(notes), id).Some? ==>
        var k := Find(old(notes), id).value;
        && notes == old(notes)[k := old(notes)[k].(hit := true)]
        && misses == old(misses) + 1 && combo == 0
        && (died <==> misses >= maxMiss)
        && playing == (old(playing) && !died)
        && Alive()
    {
      var k := Find(notes, id);
      if k.None? {
        return false;
      }
      notes := notes[k.value := notes[k.value].(hit := true)];
      assert forall i :: 0 <= i < |notes| ==> notes[i].id == old(notes)[i].id;
      died := RegisterMiss();
    }

    /** `handleHit`: an input at clock reading t. Ignored once the game is
        over; otherwise a hit on the nearest unhit note if it lies within the
        current window, else a miss that resolves no note. */
    method HandleHit(t: real) returns (judgement: Option<Tier>, effect: Option<Effect>)
      requires Valid()
      modifies this`notes, this`misses, this`combo, this`playing
      ensures Valid()
      ensures !old(playing) ==> judgement.None? && effect.None? && unchanged(this)
      ensures old(playing) ==> judgement.Some?
      ensures old(Alive()) || judgement == Some(Miss) ==> Alive()
      ensures old(playing) ==>
        (judgement != Some(Miss) <==>
          exists j :: 0 <= j < |old(notes)| && !old(notes)[j].hit &&
            Dist(old(notes)[j].targetTime, t) <= Window(mode, old(misses), maxMiss))
      ensures old(playing) && judgement != Some(Miss) ==>
        exists k :: IsNearest(old(notes), t, k)
          && notes == old(notes)[k := old(notes)[k].(hit := true)]
          && judgement == Some(TierOf(Dist(old(notes)[k].targetTime, t)))
          && combo == old(combo) + 1 && misses == old(misses) && playing
          && effect == GimmickFor(combo)
      ensures old(playing) && judgement == Some(Miss) ==>
        && notes == old(notes) && effect.None?
        && misses == old(misses) + 1 && combo == 0
        && playing == (misses < maxMiss)
    {
      if !playing {
        return None, None;
      }
      var best := NearestUnhit(notes, t);
      var win := Window(mode, misses, maxMiss);
      if best.Some? && Dist(notes[best.value].targetTime, t) <= win {
        var k := best.value;
        FindOwnId(notes, k);
        judgement, effect := RegisterHit(notes[k].id, Dist(notes[k].targetTime, t));
      } else {
        var _ := RegisterMiss();
        judgement, effect := Some(Miss), None;
      }
    }

    /** `resetGame`, the Retry button: clear the table and the counters and
        leave the game stopped. The spawn timer is not cancelled. */
    method ResetGame()
      requires Valid()
      modifies this`notes, this`noteIdCounter, this`misses, this`combo, this`playing
      ensures Valid() && Alive()
      ensures notes == [] && noteIdCounter == 0 && misses == 0 && combo == 0 && !playing
      ensures Threat(misses, maxMiss) == 0.0
    {
      notes := [];
      noteIdCounter := 0;
      misses, combo := 0, 0;
      playing := false;
    }

    /** `startGame` as written: reset, record the start on the audio clock,
        start the spawn loop, and only then set `playing`. From a stopped
        game the loop's first `scheduleNext` sees `playing` false and arms
        nothing. */
    method StartGame(now: real)
      requires Valid()
      modifies this
      ensures Valid() && Alive()
      ensures misses == 0 && combo == 0 && notes == [] && noteIdCounter == 0
      ensures startTime == now && playing && loopInterval == Spb(bpm)
      ensures mode == old(mode) && maxMiss == old(maxMiss) && bpm == old(bpm) && offset == old(offset)
      ensures pendingSpawn == if old(playing) then Some(ArmedFor(ClockOf(), loopInterval, now)) else None
    {
      misses, combo := 0, 0;
      notes := [];
      noteIdCounter := 0;
      startTime := now;
      SpawnBeatLoop(now);
      playing := true;
    }

    /** `startGame` with `playing` set before the spawn loop starts, so that
        the first note is scheduled for the next beat. */
    method StartGameArmed(now: real)
      requires Valid()
      modifies this
      ensures Valid() && Alive()
      ensures misses == 0 && combo == 0 && notes == [] && noteIdCounter == 0
      ensures startTime == now && playing && loopInterval == Spb(bpm)
      ensures mode == old(mode) && maxMiss == old(maxMiss) && bpm == old(bpm) && offset == old(offset)
      ensures pendingSpawn == Some(Pending(NextBeat(ClockOf(), now), SpawnDelay(ClockOf(), NoteTravelSec, now)))
      ensures OnGrid(ClockOf(), pendingSpawn.value.target) && pendingSpawn.value.target > now
    {
      misses, combo := 0, 0;
      notes := [];
      noteIdCounter := 0;
      startTime := now;
      playing := true;
      SpawnBeatLoop(now);
      ArmedForCurrentTempo(ClockOf(), now);
    }
  }

  /** From the page's initial state, Start arms no spawn timer, so the
      table stays empty and the first input is a miss. */
  method FirstStartNeverSpawns() returns (pending: Option<Pending>, judgement: Option<Tier>, misses: nat, combo: nat)
    ensures pending == None
    ensures judgement == Some(Miss) && misses == 1 && combo == 0
  {
    var s := new Session();
    s.StartGame(0.0);
    pending := s.pendingSpawn;
    var effect;
    judgement, effect := s.HandleHit(0.001);
    misses, combo := s.misses, s.combo;
  }

  /** A fresh page switched to Hard mode and started at clock reading 0. */
  method StartedHardSession() returns (s: Session)
    ensures fresh(s) && s.Valid() && s.playing
    ensures s.mode == Hard && s.maxMiss == 1 && s.misses == 0 && s.notes == [] && s.noteIdCounter == 0
  {
    s := new Session();
    s.ApplySettings(Some("hard"), None, None);
    s.StartGameArmed(0.0);
  }

  /** In Hard mode, two notes arriving unhit each signal death: the
      automatic miss is not guarded by `playing`, so the misses pass the
      budget and the game-over sequence runs twice. */
  method DeathSignalledTwice() returns (first: bool, second: bool, misses: nat, maxMiss: nat)
    ensures first && second && misses == 2 && maxMiss == 1
  {
    var s := StartedHardSession();
    var a := s.SpawnNoteAt(0.75);
    var b := s.SpawnNoteAt(1.5);
    assert s.notes == [Entry(a, 0.75, false), Entry(b, 1.5, false)];
    FindOwnId(s.notes, 0);
    assert Find(s.notes, a) == Some(0);
    first := s.OnNoteMiss(a);
    assert s.misses == 1 && !s.playing;
    assert s.notes == [Entry(a, 0.75, true), Entry(b, 1.5, false)];
    FindOwnId(s.notes, 1);
    assert Find(s.notes, b) == Some(1);
    second := s.OnNoteMiss(b);
    misses, maxMiss := s.misses, s.maxMiss;
  }

  /** At the default 80 BPM, a started loop whose timer fires at 4 ms and
      again at 8 ms spawns two notes for the beat at 0.75 s. */
  method OneBeatSpawnedTwice() returns (notes: seq<Entry>)
    ensures notes == [Entry(1, 0.75, false), Entry(2, 0.75, false)]
  {
    var s := new Session();
    s.StartGameArmed(0.0);
    DefaultTempoGrid();
    assert s.pendingSpawn.value.target == 0.75;
    assert BeatIndex(s.ClockOf(), 0.005) == 0;
    s.FireSpawnTimer(0.004);
    assert s.pendingSpawn.value.target == 0.75;
    assert BeatIndex(s.ClockOf(), 0.009) == 0;
    s.FireSpawnTimer(0.008);
    notes := s.notes;
  }
}
