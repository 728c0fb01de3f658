/** The combo gimmick dispatcher: which effect a combo value triggers.
    The effects themselves (CSS classes, overlays, timers) are presentation. */
module Gimmick {
  import opened Options

  datatype Effect =
    | Shake        // combo 10: small screen shake
    | BigShake     // combo 20
    | Flash        // combo 30, and every unlisted multiple of 10
    | SlowMotion   // combo 40: notes travel slower for a while
    | Rotate60     // combo 50
    | Ghost        // combo 60: notes turn translucent
    | ExtraSpawns  // combo 70: extra notes for a while
    | Blackout     // combo 80
    | Invert       // combo 90: colours inverted

  /** `triggerComboGimmick(comboValue)`: the effect fired, if any. */
  function GimmickFor(combo: nat): (e: Option<Effect>)
    ensures e.Some? <==> combo > 0 && combo % 10 == 0
  {
    if combo == 0 then None
    else if combo % 10 != 0 then None
    else if combo == 10 then Some(Shake)
    else if combo == 20 then Some(BigShake)
    else if combo == 50 then Some(Rotate60)
    else match combo
      case 30 => Some(Flash)
      case 40 => Some(SlowMotion)
      case 60 => Some(Ghost)
      case 70 => Some(ExtraSpawns)
      case 80 => Some(Blackout)
      case 90 => Some(Invert)
      case _ => Some(Flash)
  }

  /** The milestone table, and the fallback for the higher multiples of 10. */
  lemma GimmickTable(combo: nat)
    ensures GimmickFor(10) == Some(Shake) && GimmickFor(20) == Some(BigShake)
    ensures GimmickFor(30) == Some(Flash) && GimmickFor(40) == Some(SlowMotion)
    ensures GimmickFor(50) == Some(Rotate60) && GimmickFor(60) == Some(Ghost)
    ensures GimmickFor(70) == Some(ExtraSpawns) && GimmickFor(80) == Some(Blackout)
    ensures GimmickFor(90) == Some(Invert)
    ensures combo >= 100 && combo % 10 == 0 ==> GimmickFor(combo) == Some(Flash)
  {
  }

  /** Of ten straight hits from no combo, only the tenth fires an effect,
      and the eleventh does not fire another. */
  lemma TenHitsFireOnce()
    ensures forall c: nat :: 1 <= c <= 11 ==> (GimmickFor(c).Some? <==> c == 10)
  {
  }
}
