/** The volume clamp both voice hooks apply to the slider value. */
module Volume {

  /** `Math.max(0, Math.min(100, volume))` */
  function Clamp(volume: int): (r: int)
    ensures 0 <= r <= 100
    ensures 0 <= volume <= 100 ==> r == volume
    ensures volume < 0 ==> r == 0
    ensures volume > 100 ==> r == 100
  {
    if volume < 0 then 0 else if volume > 100 then 100 else volume
  }

  /** Clamping an in-range volume changes nothing, so clamping twice is clamping once. */
  lemma ClampIdempotent(volume: int)
    ensures Clamp(Clamp(volume)) == Clamp(volume)
  {
  }
}
