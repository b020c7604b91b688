// One audio track: the AudioFile record and the outcome of scanning it.
module Scan {
  import opened Common

  /** SCANSTATUS: NONE, FAIL, SUCCESS. */
  datatype ScanStatus = NotScanned | ScanFailed | ScanSucceeded

  /** FFmpeg codec identifiers, as far as LoudGain tells them apart. */
  datatype CodecId = NoCodec | Opus | Vorbis | Flac | Speex | OtherCodec(id: nat)

  /** An opaque libebur128 measurement state (a non-null ebur128_state pointer). */
  datatype EburHandle = EburHandle(id: nat)

  /**
   * The values an AudioFile keeps for one scope (the track, or the album it
   * belongs to); include/scan.hpp declares the two groups field by field.
   */
  datatype ScopeValues = ScopeValues(
    gain: real,
    peak: real,
    newPeak: real,
    loudness: real,
    loudnessRange: real,
    clips: bool,
    clipPrevention: bool)

  const ZeroScope: ScopeValues := ScopeValues(0.0, 0.0, 0.0, 0.0, 0.0, false, false)

  /** The public fields of an AudioFile, as one value. */
  datatype AudioData = AudioData(
    scanStatus: ScanStatus,
    codec: CodecId,
    format: string,
    track: ScopeValues,
    album: ScopeValues,
    loudnessReference: real,
    eburState: Option<EburHandle>)

  /** The field initialisers of a freshly constructed AudioFile. */
  const Unscanned: AudioData := AudioData(NotScanned, NoCodec, "", ZeroScope, ZeroScope, 0.0, None)

  /** LUFS_TO_RG: the ReplayGain 2.0 gain that brings loudness l to -18 LUFS. */
  function LufsToRg(l: real): real
  {
    -18.0 - l
  }

  /** Opus gains are relative to -23 LUFS, so its pregain is lowered by 5 LU. */
  function EffectivePregain(pregain: real, codec: CodecId): real
  {
    if codec == Opus then pregain - 5.0 else pregain
  }

  /**
   * What FFmpeg and libebur128 report for one scan attempt, by the stage at
   * which the attempt ended.
   */
  datatype ScanOutcome =
      /** avformat_open_input failed. */
    | OpenFailed
      /** The container opened (its short name is known), then stream
          info, stream selection, context allocation or codec open failed. */
    | ProbeFailed(format: string)
      /** The codec opened, then ebur128_init returned NULL. */
    | InitFailed(format: string, codec: CodecId)
      /** A measurement state exists, then frame allocation, decoding, or the
          global loudness or loudness range query failed. */
    | MeasureFailed(format: string, codec: CodecId, state: EburHandle)
      /** Everything succeeded; one true-peak query result per channel. */
    | Measured(format: string, codec: CodecId, state: EburHandle,
               loudness: real, range: real, channelPeaks: seq<Option<real>>)

  /** Whether the attempt got far enough to replace the measurement state. */
  predicate ReplacesState(o: ScanOutcome)
  {
    o.InitFailed? || o.MeasureFailed? || o.Measured?
  }

  /** The channels whose true-peak query succeeded, in channel order. */
  function Successful(ps: seq<Option<real>>): seq<real>
  {
    if |ps| == 0 then []
    else Successful(ps[..|ps| - 1]) + (if ps[|ps| - 1].Some? then [ps[|ps| - 1].value] else [])
  }

  lemma {:induction false} SuccessfulMembers(ps: seq<Option<real>>, x: real)
    ensures x in Successful(ps) <==> Some(x) in ps
  {
    if |ps| > 0 {
      SuccessfulMembers(ps[..|ps| - 1], x);
      assert ps == ps[..|ps| - 1] + [ps[|ps| - 1]];
    }
  }

  /** The track peak: the largest successful channel true peak, or 0.0. */
  function TrackPeak(ps: seq<Option<real>>): real
  {
    PeakOf(Successful(ps))
  }

  lemma TrackPeakBounds(ps: seq<Option<real>>)
    ensures TrackPeak(ps) >= 0.0
    ensures forall ch :: 0 <= ch < |ps| && ps[ch].Some? ==> ps[ch].value <= TrackPeak(ps)
    ensures TrackPeak(ps) == 0.0 || Some(TrackPeak(ps)) in ps
  {
    var s := Successful(ps);
    PeakOfBounds(s);
    forall ch | 0 <= ch < |ps| && ps[ch].Some?
      ensures ps[ch].value <= TrackPeak(ps)
    {
      assert ps[ch] == Some(ps[ch].value);
      SuccessfulMembers(ps, ps[ch].value);
    }
    if TrackPeak(ps) != 0.0 {
      SuccessfulMembers(ps, TrackPeak(ps));
    }
  }

  /** The record after one AudioFile::scanFile with the given outcome. */
  function Scanned(d: AudioData, pregain: real, o: ScanOutcome): AudioData
  {
    match o
    case OpenFailed => d.(scanStatus := ScanFailed)
    case ProbeFailed(f) => d.(scanStatus := ScanFailed, format := f)
    case InitFailed(f, c) => d.(scanStatus := ScanFailed, format := f, codec := c, eburState := None)
    case MeasureFailed(f, c, st) =>
      d.(scanStatus := ScanFailed, format := f, codec := c, eburState := Some(st))
    case Measured(f, c, st, l, r, ps) =>
      var p := EffectivePregain(pregain, c);
      d.(scanStatus := ScanSucceeded, format := f, codec := c, eburState := Some(st),
         track := d.track.(gain := LufsToRg(l) + p, peak := TrackPeak(ps), loudness := l, loudnessRange := r),
         loudnessReference := LufsToRg(-p))
  }

  /** Only the measured outcome marks the track as scanned successfully. */
  lemma ScanStatusOutcome(d: AudioData, pregain: real, o: ScanOutcome)
    ensures Scanned(d, pregain, o).scanStatus == (if o.Measured? then ScanSucceeded else ScanFailed)
  {
  }

  /** An early exit leaves every measured value, and the album values, as they were. */
  lemma FailedScanKeepsMeasurements(d: AudioData, pregain: real, o: ScanOutcome)
    requires !o.Measured?
    ensures var s := Scanned(d, pregain, o);
      s.track == d.track && s.album == d.album && s.loudnessReference == d.loudnessReference
  {
  }

  /**
   * After a successful scan the gain is the distance from the measured
   * loudness to the reference, which is -18 LUFS moved by the effective
   * pregain (-23 LUFS for Opus at zero pregain). The album values, the
   * clip flags and the new peak are not touched.
   */
  lemma SuccessfulScanGain(d: AudioData, pregain: real, o: ScanOutcome)
    requires o.Measured?
    ensures var s := Scanned(d, pregain, o);
      var p := if o.codec == Opus then pregain - 5.0 else pregain;
      s.track.gain == -18.0 - o.loudness + p
      && s.loudnessReference == -18.0 + p
      && s.track.gain == s.loudnessReference - s.track.loudness
      && s.track.loudness == o.loudness && s.track.loudnessRange == o.range
      && s.eburState == Some(o.state) && s.codec == o.codec && s.format == o.format
      && s.album == d.album && s.track.clips == d.track.clips
      && s.track.clipPrevention == d.track.clipPrevention && s.track.newPeak == d.track.newPeak
  {
  }

  /** The track peak is the largest successful channel peak, never negative. */
  lemma SuccessfulScanPeak(d: AudioData, pregain: real, o: ScanOutcome)
    requires o.Measured?
    ensures var s := Scanned(d, pregain, o);
      s.track.peak >= 0.0
      && (forall ch :: 0 <= ch < |o.channelPeaks| && o.channelPeaks[ch].Some? ==>
            o.channelPeaks[ch].value <= s.track.peak)
      && (s.track.peak == 0.0 || Some(s.track.peak) in o.channelPeaks)
  {
    TrackPeakBounds(o.channelPeaks);
  }

  /** A track at -20 LUFS, two dB quieter than the -18 LUFS reference, gets +2 dB. */
  lemma ScenarioPlainTrack(d: AudioData, st: EburHandle)
    ensures var s := Scanned(d, 0.0, Measured("flac", Flac, st, -20.0, 5.0, [Some(0.5), None]));
      s.track.gain == 2.0 && s.loudnessReference == -18.0 && s.track.peak == 0.5
  {
    var ps := [Some(0.5), None];
    assert ps[..1] == [Some(0.5)];
    assert [Some(0.5)][..0] == [];
    assert Successful(ps) == [0.5];
    assert [0.5][..0] == [];
  }

  /** An Opus track at -21 LUFS gets -2 dB against the -23 LUFS reference. */
  lemma ScenarioOpusTrack(d: AudioData, st: EburHandle)
    ensures var s := Scanned(d, 0.0, Measured("ogg", Opus, st, -21.0, 5.0, []));
      s.track.gain == -2.0 && s.loudnessReference == -23.0 && s.track.peak == 0.0
  {
  }

  /** One track: the public fields of include/scan.hpp and the scanning methods. */
  class AudioFile {
    const path: Path
    var scanStatus: ScanStatus
    var codec: CodecId
    var format: string
    var track: ScopeValues
    var album: ScopeValues
    var loudnessReference: real
    var eburState: Option<EburHandle>
    /** Every measurement state this file has destroyed, in order. */
    ghost var released: seq<EburHandle>

    function Data(): AudioData
      reads this
    {
      AudioData(scanStatus, codec, format, track, album, loudnessReference, eburState)
    }

    /** The file exists as a regular file: the program exits otherwise. */
    constructor (p: Path)
      ensures path == p && Data() == Unscanned && released == []
    {
      path := p;
      scanStatus, codec, format := NotScanned, NoCodec, "";
      track, album := ZeroScope, ZeroScope;
      loudnessReference := 0.0;
      eburState := None;
      released := [];
    }

    /** The parent directory of the file. */
    function Directory(): string
    {
      path.dir
    }

    method DestroyEbuR128State() returns (destroyed: bool)
      modifies this
      ensures destroyed == old(eburState).Some?
      ensures Data() == old(Data()).(eburState := None)
      ensures released == if destroyed then old(released) + [old(eburState).value] else old(released)
    {
      destroyed := false;
      if eburState.Some? {
        released := released + [eburState.value];
        eburState := None;
        destroyed := true;
      }
    }

    /**
     * AudioFile::scanFile. FFmpeg and libebur128 are represented by the
     * outcome of the attempt; this method applies it to the record. A state
     * left by an earlier scan is destroyed before a new one is created.
     */
    method ScanFile(pregain: real, outcome: ScanOutcome) returns (ok: bool)
      modifies this
      ensures ok == outcome.Measured?
      ensures Data() == Scanned(old(Data()), pregain, outcome)
      ensures released ==
        if ReplacesState(outcome) && old(eburState).Some? then old(released) + [old(eburState).value]
        else old(released)
    {
      match outcome {
        case OpenFailed =>
          scanStatus := ScanFailed;
          return false;
        case ProbeFailed(f) =>
          format := f;
          scanStatus := ScanFailed;
          return false;
        case InitFailed(f, c) =>
          format := f;
          codec := c;
          var _ := DestroyEbuR128State();
          scanStatus := ScanFailed;
          return false;
        case MeasureFailed(f, c, st) =>
          format := f;
          codec := c;
          var _ := DestroyEbuR128State();
          eburState := Some(st);
          scanStatus := ScanFailed;
          return false;
        case Measured(_, _, _, _, _, _) =>
          ok := ScanMeasured(pregain, outcome);
      }
    }

    /** The success tail of scanFile: the measurement is stored and the gain derived from it. */
    method ScanMeasured(pregain: real, outcome: ScanOutcome) returns (ok: bool)
      requires outcome.Measured?
      modifies this
      ensures ok
      ensures Data() == Scanned(old(Data()), pregain, outcome)
      ensures released ==
        if old(eburState).Some? then old(released) + [old(eburState).value] else old(released)
    {
      format := outcome.format;
      codec := outcome.codec;
      var _ := DestroyEbuR128State();
      eburState := Some(outcome.state);
      var peak := ChannelPeak(outcome.channelPeaks);
      scanStatus := ScanSucceeded;
      var p := pregain;
      if codec == Opus {
        p := p - 5.0;
      }
      track := track.(gain := LufsToRg(outcome.loudness) + p, peak := peak,
                      loudness := outcome.loudness, loudnessRange := outcome.range);
      loudnessReference := LufsToRg(-p);
      ok := true;
    }
  }

  /** The per-channel true-peak loop of a successful scan. */
  method ChannelPeak(ps: seq<Option<real>>) returns (peak: real)
    ensures peak == TrackPeak(ps)
  {
    peak := 0.0;
    var ch := 0;
    while ch < |ps|
      invariant 0 <= ch <= |ps|
      invariant peak == PeakOf(Successful(ps[..ch]))
    {
      assert ps[..ch + 1][..ch] == ps[..ch];
      var s := Successful(ps[..ch + 1]);
      if ps[ch].Some? {
        assert s == Successful(ps[..ch]) + [ps[ch].value];
        assert s[..|s| - 1] == Successful(ps[..ch]);
      } else {
        assert s == Successful(ps[..ch]);
      }
      if ps[ch].Some? {
        peak := Max(peak, ps[ch].value);
      }
      ch := ch + 1;
    }
    assert ps[..|ps|] == ps;
  }
}
