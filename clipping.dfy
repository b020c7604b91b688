// The clip detection and clip prevention of LoudGain::processAudioFile.
module Clipping {
  import opened Scan

  /** pow(10, x / 20) is positive for every finite x. */
  type Positive = r: real | r > 0.0 witness 1.0

  /** toLinear(a + b): named so that the product law is used only where a proof mentions it. */
  ghost function Shifted(toLinear: real -> Positive, a: real, b: real): real
  {
    toLinear(a + b)
  }

  /**
   * The laws of toLinear(x) = pow(10, x / 20) and toDb(x) = 20 * log10(x)
   * that the clip logic relies on. libm supplies the two functions; the
   * model takes them as parameters and these laws as a hypothesis.
   */
  ghost predicate DecibelLaws(toLinear: real -> Positive, toDb: real -> real)
  {
    (forall a, b {:trigger Shifted(toLinear, a, b)} :: Shifted(toLinear, a, b) == toLinear(a) * toLinear(b))
    && (forall a :: a > 0.0 ==> toLinear(a) > 1.0)
    && (forall x :: x > 0.0 ==> toLinear(toDb(x)) == x)
    && (forall a :: toDb(toLinear(a)) == a)
  }

  /** The peak a scope reaches once its gain is applied (the gain as a factor times the measured peak). */
  function Gained(s: ScopeValues, toLinear: real -> Positive): real
  {
    toLinear(s.gain) * s.peak
  }

  /**
   * One scope (track or album) after processAudioFile: the gained peak is
   * compared with the ceiling, and with prevention on a clipping gain is
   * lowered by the excess in dB; the new peak is recomputed in any case.
   */

  function Corrected(s: ScopeValues, ceilingDb: real, prevent: bool,
                     toLinear: real -> Positive, toDb: real -> real): ScopeValues
  {
    var clips := s.clips || Gained(s, toLinear) > toLinear(ceilingDb);
    if clips && prevent then
      var g := s.gain - toDb(Gained(s, toLinear) / toLinear(ceilingDb));
      s.(gain := g, clips := false, clipPrevention := true, newPeak := toLinear(g) * s.peak)
    else
      s.(clips := clips, newPeak := Gained(s, toLinear))
  }

  /**
   * The record after processAudioFile: a failed scan is left alone, the
   * track is always checked, the album only in album mode.
   */
  function Processed(d: AudioData, scanAlbum: bool, ceilingDb: real, prevent: bool,
                     toLinear: real -> Positive, toDb: real -> real): AudioData
  {
    if d.scanStatus != ScanSucceeded then d
    else
      d.(track := Corrected(d.track, ceilingDb, prevent, toLinear, toDb),
         album := if scanAlbum then Corrected(d.album, ceilingDb, prevent, toLinear, toDb) else d.album)
  }

  /**
   * The clip flag is raised exactly when the gained peak exceeds the
   * ceiling (or it was raised before); it stays raised only without
   * prevention, and with prevention the prevention flag is raised instead.
   * Only a prevented clip changes the gain.
   */
  lemma ClipFlags(s: ScopeValues, ceilingDb: real, prevent: bool, toLinear: real -> Positive, toDb: real -> real)
    ensures var r := Corrected(s, ceilingDb, prevent, toLinear, toDb);
      var over := Gained(s, toLinear) > toLinear(ceilingDb);
      r.clips == ((s.clips || over) && !prevent)
      && r.clipPrevention == (s.clipPrevention || ((s.clips || over) && prevent))
      && (r.gain != s.gain ==> (s.clips || over) && prevent)
      && r.peak == s.peak && r.loudness == s.loudness && r.loudnessRange == s.loudnessRange
  {
  }

  /** A silent scope (peak 0.0) never clips and keeps its gain. */
  lemma ZeroPeakNeverClips(s: ScopeValues, ceilingDb: real, prevent: bool, toLinear: real -> Positive, toDb: real -> real)
    requires DecibelLaws(toLinear, toDb)
    requires s.peak == 0.0 && !s.clips
    ensures var r := Corrected(s, ceilingDb, prevent, toLinear, toDb);
      !r.clips && r.gain == s.gain && r.newPeak == 0.0 && r.clipPrevention == s.clipPrevention
  {
    assert Gained(s, toLinear) == 0.0;
  }

  /** toLinear(a) / toLinear(b) == toLinear(a - b). */
  lemma LinearRatio(toLinear: real -> Positive, toDb: real -> real, a: real, b: real)
    requires DecibelLaws(toLinear, toDb)
    ensures toLinear(a) / toLinear(b) == toLinear(a - b)
  {
    assert Shifted(toLinear, a - b, b) == toLinear(a - b) * toLinear(b);
    assert (a - b) + b == a;
  }

  /** Taking toDb(q) dB off a gain divides its linear factor by q. */
  lemma LinearAfterCut(toLinear: real -> Positive, toDb: real -> real, gain: real, q: real)
    requires DecibelLaws(toLinear, toDb)
    requires q > 0.0
    ensures toLinear(gain) == toLinear(gain - toDb(q)) * q
  {
    var g := gain - toDb(q);
    assert Shifted(toLinear, g, toDb(q)) == toLinear(g) * toLinear(toDb(q));
    assert g + toDb(q) == gain;
    assert toLinear(toDb(q)) == q;
  }

  /** 0 dB is the factor 1. */
  lemma LinearZero(toLinear: real -> Positive, toDb: real -> real)
    requires DecibelLaws(toLinear, toDb)
    ensures toLinear(0.0) == 1.0
  {
    var one: real := toLinear(0.0);
    assert Shifted(toLinear, 0.0, 0.0) == one * one;
    assert Shifted(toLinear, 0.0, 0.0) == one;
    assert one * one == one * 1.0;
  }

  /** A ratio above 1 is a positive number of dB. */
  lemma PositiveExcess(toLinear: real -> Positive, toDb: real -> real, q: real)
    requires DecibelLaws(toLinear, toDb)
    requires q > 1.0
    ensures toDb(q) > 0.0
  {
    var t := toDb(q);
    var back: real := toLinear(-t);
    assert toLinear(t) == q;
    assert Shifted(toLinear, t, -t) == q * back;
    LinearZero(toLinear, toDb);
    assert toLinear(t + -t) == 1.0;
    InverseBelowOne(q, back);
  }

  lemma InverseBelowOne(x: real, y: real)
    requires x > 1.0 && x * y == 1.0
    ensures y < 1.0
  {
  }

  lemma ScaledUpTo(x: real, y: real, z: real)
    requires x > 0.0 && y > 1.0 && z == x * y
    ensures x < z
  {
  }

  /** More dB is a larger factor. */
  lemma Increasing(toLinear: real -> Positive, toDb: real -> real, a: real, b: real)
    requires DecibelLaws(toLinear, toDb)
    requires a < b
    ensures toLinear(a) < toLinear(b)
  {
    var d := b - a;
    var low: real := toLinear(a);
    var rise: real := toLinear(d);
    var high: real := toLinear(b);
    assert a + d == b;
    assert Shifted(toLinear, a, d) == high;
    assert high == low * rise;
    ScaledUpTo(low, rise, high);
  }

  lemma RatioAboveOne(x: real, c: real)
    requires c > 0.0 && x > c
    ensures x / c > 1.0
  {
  }

  /** The arithmetic of the correction: dividing the gain factor by gained / ceiling. */
  lemma DividedByExcess(lin: real, cut: real, peak: real, ceiling: real)
    requires ceiling > 0.0 && lin > 0.0 && lin * peak > 0.0
    requires lin == cut * (lin * peak / ceiling)
    ensures cut * peak == ceiling
  {
    var q := lin * peak / ceiling;
    assert q * ceiling == lin * peak;
    assert cut * q * ceiling == lin * ceiling;
    assert cut * (lin * peak) == lin * ceiling;
    assert lin * (cut * peak) == lin * ceiling;
  }

  /**
   * The corrected gain brings the peak exactly to the ceiling: the excess
   * 20 * log10(gained / ceiling) is taken off the gain.
   */
  lemma CorrectionReachesCeiling(s: ScopeValues, ceilingDb: real, toLinear: real -> Positive, toDb: real -> real)
    requires DecibelLaws(toLinear, toDb)
    requires Gained(s, toLinear) > toLinear(ceilingDb)
    ensures var r := Corrected(s, ceilingDb, true, toLinear, toDb);
      r.newPeak == toLinear(ceilingDb) && r.gain < s.gain && !r.clips && r.clipPrevention
  {
    var q := Gained(s, toLinear) / toLinear(ceilingDb);
    RatioAboveOne(Gained(s, toLinear), toLinear(ceilingDb));
    LinearAfterCut(toLinear, toDb, s.gain, q);
    PositiveExcess(toLinear, toDb, q);
    CutReachesCeiling(s, ceilingDb, toLinear, toDb);
  }

  /** The correction's arithmetic, given the two dB laws it uses. */
  lemma CutReachesCeiling(s: ScopeValues, ceilingDb: real, toLinear: real -> Positive, toDb: real -> real)
    requires Gained(s, toLinear) > toLinear(ceilingDb)
    requires var q := Gained(s, toLinear) / toLinear(ceilingDb);
      toLinear(s.gain) == toLinear(s.gain - toDb(q)) * q && toDb(q) > 0.0
    ensures var r := Corrected(s, ceilingDb, true, toLinear, toDb);
      r.newPeak == toLinear(ceilingDb) && r.gain < s.gain && !r.clips && r.clipPrevention
  {
    var ceiling: real := toLinear(ceilingDb);
    var q := Gained(s, toLinear) / ceiling;
    var g := s.gain - toDb(q);
    DividedByExcess(toLinear(s.gain), toLinear(g), s.peak, ceiling);
    CorrectionBranch(s, ceilingDb, toLinear, toDb);
  }

  /** The correction branch of Corrected, spelled out. */
  lemma CorrectionBranch(s: ScopeValues, ceilingDb: real, toLinear: real -> Positive, toDb: real -> real)
    requires s.clips || Gained(s, toLinear) > toLinear(ceilingDb)
    ensures var g := s.gain - toDb(Gained(s, toLinear) / toLinear(ceilingDb));
      Corrected(s, ceilingDb, true, toLinear, toDb)
        == s.(gain := g, clips := false, clipPrevention := true, newPeak := toLinear(g) * s.peak)
  {
  }

  /** The arithmetic of a repeated correction: the peak lands on, or stays below, the ceiling. */
  lemma NotAboveCeiling(lin: real, cut: real, peak: real, ceiling: real)
    requires ceiling > 0.0 && lin > 0.0 && cut > 0.0
    requires lin * peak > 0.0 ==> lin == cut * (lin * peak / ceiling)
    ensures cut * peak <= ceiling
  {
    if lin * peak > 0.0 {
      DividedByExcess(lin, cut, peak, ceiling);
    } else {
      assert peak <= 0.0;
    }
  }

  /** A scope whose flags and new peak already agree with its gain passes the check unchanged. */
  lemma Settled(r: ScopeValues, ceilingDb: real, prevent: bool, toLinear: real -> Positive, toDb: real -> real)
    requires r.newPeak == Gained(r, toLinear)
    requires r.clips ==> !prevent
    requires !r.clips ==> r.newPeak <= toLinear(ceilingDb)
    ensures Corrected(r, ceilingDb, prevent, toLinear, toDb) == r
  {
  }

  /**
   * A second clip pass changes nothing: once a gain has been corrected its
   * new peak is not above the ceiling, and a flag once raised stays raised.
   */
  lemma CorrectionIdempotent(s: ScopeValues, ceilingDb: real, prevent: bool, toLinear: real -> Positive, toDb: real -> real)
    requires DecibelLaws(toLinear, toDb)
    ensures var r := Corrected(s, ceilingDb, prevent, toLinear, toDb);
      Corrected(r, ceilingDb, prevent, toLinear, toDb) == r
  {
    var q := Gained(s, toLinear) / toLinear(ceilingDb);
    if q > 0.0 {
      LinearAfterCut(toLinear, toDb, s.gain, q);
    }
    CorrectedAgain(s, ceilingDb, prevent, toLinear, toDb);
  }

  /** The second pass, given the dB law the correction uses. */
  lemma CorrectedAgain(s: ScopeValues, ceilingDb: real, prevent: bool, toLinear: real -> Positive, toDb: real -> real)
    requires var q := Gained(s, toLinear) / toLinear(ceilingDb);
      q > 0.0 ==> toLinear(s.gain) == toLinear(s.gain - toDb(q)) * q
    ensures var r := Corrected(s, ceilingDb, prevent, toLinear, toDb);
      Corrected(r, ceilingDb, prevent, toLinear, toDb) == r
  {
    if (s.clips || Gained(s, toLinear) > toLinear(ceilingDb)) && prevent {
      CutAgain(s, ceilingDb, toLinear, toDb);
    } else {
      Settled(Corrected(s, ceilingDb, prevent, toLinear, toDb), ceilingDb, prevent, toLinear, toDb);
    }
  }

  /** A corrected scope passes a second check with prevention on unchanged. */
  lemma CutAgain(s: ScopeValues, ceilingDb: real, toLinear: real -> Positive, toDb: real -> real)
    requires s.clips || Gained(s, toLinear) > toLinear(ceilingDb)
    requires var q := Gained(s, toLinear) / toLinear(ceilingDb);
      q > 0.0 ==> toLinear(s.gain) == toLinear(s.gain - toDb(q)) * q
    ensures var r := Corrected(s, ceilingDb, true, toLinear, toDb);
      Corrected(r, ceilingDb, true, toLinear, toDb) == r
  {
    var ceiling: real := toLinear(ceilingDb);
    var q := Gained(s, toLinear) / ceiling;
    var g := s.gain - toDb(q);
    CorrectionBranch(s, ceilingDb, toLinear, toDb);
    var r := s.(gain := g, clips := false, clipPrevention := true, newPeak := toLinear(g) * s.peak);
    CutWithinCeiling(toLinear(s.gain), toLinear(g), s.peak, ceiling, q);
    Settled(r, ceilingDb, true, toLinear, toDb);
  }

  /** NotAboveCeiling with the excess q named. */
  lemma CutWithinCeiling(lin: real, cut: real, peak: real, ceiling: real, q: real)
    requires ceiling > 0.0 && lin > 0.0 && cut > 0.0
    requires q == lin * peak / ceiling && (q > 0.0 ==> lin == cut * q)
    ensures cut * peak <= ceiling
  {
    if lin * peak > 0.0 {
      assert q > 0.0;
    }
    NotAboveCeiling(lin, cut, peak, ceiling);
  }

  /** Without album mode the album values are not looked at. */
  lemma AlbumOnlyInAlbumMode(d: AudioData, ceilingDb: real, prevent: bool, toLinear: real -> Positive, toDb: real -> real)
    ensures Processed(d, false, ceilingDb, prevent, toLinear, toDb).album == d.album
  {
  }

  /**
   * The album outcome depends on the album values alone: the track
   * correction does not feed into it.
   */
  lemma AlbumIndependentOfTrack(d: AudioData, e: AudioData, scanAlbum: bool, ceilingDb: real, prevent: bool,
                                toLinear: real -> Positive, toDb: real -> real)
    requires d.scanStatus == e.scanStatus && d.album == e.album
    ensures Processed(d, scanAlbum, ceilingDb, prevent, toLinear, toDb).album
         == Processed(e, scanAlbum, ceilingDb, prevent, toLinear, toDb).album
  {
  }

  /**
   * Peak 1.0 with +3 dB against a -1 dBTP ceiling clips; prevention lowers
   * the gain to -1 dB, so the new peak is the ceiling.
   */
  lemma ScenarioClippingTrack(s: ScopeValues, toLinear: real -> Positive, toDb: real -> real)
    requires DecibelLaws(toLinear, toDb)
    requires s.peak == 1.0 && s.gain == 3.0 && !s.clips
    ensures var r := Corrected(s, -1.0, true, toLinear, toDb);
      r.gain == -1.0 && r.clipPrevention && !r.clips && r.newPeak == toLinear(-1.0)
  {
    Increasing(toLinear, toDb, -1.0, 3.0);
    assert Gained(s, toLinear) == toLinear(3.0);
    CorrectionReachesCeiling(s, -1.0, toLinear, toDb);
    LinearRatio(toLinear, toDb, 3.0, -1.0);
    assert 3.0 - -1.0 == 4.0;
    assert toDb(toLinear(4.0)) == 4.0;
  }
}
