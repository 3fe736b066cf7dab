/** The gain decision of match_audio_loudness (personalized_video.py:136-171): a name
    clip is brought to the mean level of a reference excerpt of the base video by a
    gain clamped to `maxGainDb`, or copied unchanged. The two mean levels are what the
    engine's volume probe returns (None when it fails or reports no level). */
module Loudness {
  import opened Wrappers
  import opened Reals

  /** Gains smaller than this many dB in magnitude are not applied. */
  const MinAudibleGain: real := 0.3

  datatype Action = CopyUnchanged | ApplyGain(db: real)

  /** personalized_video.py:143-152. */
  function GainAction(source: Option<real>, reference: Option<real>, maxGainDb: real): Action {
    if source.None? || reference.None? then CopyUnchanged
    else
      var gain := Clamp(reference.value - source.value, -maxGainDb, maxGainDb);
      if Abs(gain) < MinAudibleGain then CopyUnchanged else ApplyGain(gain)
  }

  /** The clamp picks the difference itself when it lies within the bound, and the
      nearer bound otherwise. */
  lemma ClampMeaning(d: real, m: real)
    requires m >= 0.0
    ensures -m <= Clamp(d, -m, m) <= m
    ensures -m <= d <= m ==> Clamp(d, -m, m) == d
    ensures d > m ==> Clamp(d, -m, m) == m
    ensures d < -m ==> Clamp(d, -m, m) == -m
  {
  }

  /** A missing level means a plain copy; an applied gain is at least 0.3 dB, at most
      `maxGainDb` in magnitude, moves the clip towards the reference level, and is
      the exact difference of the levels when that is within bounds. */
  lemma GainActionProperties(source: Option<real>, reference: Option<real>, maxGainDb: real)
    requires maxGainDb >= 0.0
    ensures source.None? || reference.None? ==> GainAction(source, reference, maxGainDb) == CopyUnchanged
    ensures GainAction(source, reference, maxGainDb).ApplyGain? ==>
      var g := GainAction(source, reference, maxGainDb).db;
      var d := reference.value - source.value;
      && MinAudibleGain <= Abs(g) <= maxGainDb
      && (g > 0.0 <==> d > 0.0)
      && (Abs(d) <= maxGainDb ==> g == d)
    ensures source.Some? && reference.Some? && Abs(reference.value - source.value) <= maxGainDb ==>
      var d := reference.value - source.value;
      GainAction(source, reference, maxGainDb) == if Abs(d) < MinAudibleGain then CopyUnchanged else ApplyGain(d)
  {
    if source.Some? && reference.Some? {
      ClampMeaning(reference.value - source.value, maxGainDb);
    }
  }

  /** Two clips at the same level, or a bound below the audible threshold, are never
      adjusted. */
  lemma NoAudibleGain(source: Option<real>, reference: Option<real>, maxGainDb: real)
    requires maxGainDb >= 0.0
    requires (source.Some? && reference.Some? && source.value == reference.value)
             || maxGainDb < MinAudibleGain
    ensures GainAction(source, reference, maxGainDb) == CopyUnchanged
  {
    if source.Some? && reference.Some? {
      ClampMeaning(reference.value - source.value, maxGainDb);
    }
  }

  /** With a negative bound the clamp's lower end lies above its upper end, so every
      pair of levels gets the same gain, the magnitude of the bound, whatever the
      direction of the difference. */
  lemma NegativeBoundFixedGain(source: real, reference: real, maxGainDb: real)
    requires maxGainDb < 0.0
    ensures GainAction(Some(source), Some(reference), maxGainDb)
            == if -maxGainDb < MinAudibleGain then CopyUnchanged else ApplyGain(-maxGainDb)
  {
  }
}
