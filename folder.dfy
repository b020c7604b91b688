// One album: the AudioFolder of include/scan.hpp and src/scan.cpp.
module Folder {
  import opened Common
  import opened Scan

  /** The records of a sequence of files, in order. */
  function DataOf(fs: seq<AudioFile>): seq<AudioData>
    reads fs
  {
    seq(|fs|, i requires 0 <= i < |fs| reads fs => fs[i].Data())
  }

  /** Some member from the second on has another container than the first. */
  predicate DifferentContainers(ds: seq<AudioData>)
  {
    exists i :: 1 <= i < |ds| && ds[i].format != ds[0].format
  }

  /** Some member from the second on has another codec than the first. */
  predicate DifferentCodecs(ds: seq<AudioData>)
  {
    exists i :: 1 <= i < |ds| && ds[i].codec != ds[0].codec
  }

  predicate ContainsOpus(ds: seq<AudioData>)
  {
    exists i :: 0 <= i < |ds| && ds[i].codec == Opus
  }

  predicate AllScanned(ds: seq<AudioData>)
  {
    forall i :: 0 <= i < |ds| ==> ds[i].scanStatus == ScanSucceeded
  }

  function States(ds: seq<AudioData>): seq<Option<EburHandle>>
  {
    seq(|ds|, i requires 0 <= i < |ds| => ds[i].eburState)
  }

  function TrackPeaks(ds: seq<AudioData>): seq<real>
  {
    seq(|ds|, i requires 0 <= i < |ds| => ds[i].track.peak)
  }

  /**
   * ebur128_loudness_global_multiple or ebur128_loudness_range_multiple:
   * a value for the whole album, or None when libebur128 reports an error.
   */
  type Combine = seq<Option<EburHandle>> -> Option<real>

  /** The album values processScanResults writes into every member. */
  datatype AlbumValues = AlbumValues(gain: real, peak: real, loudness: real, loudnessRange: real)

  /** A container or codec mix that includes Opus, which cannot be aggregated. */
  predicate MixesOpus(ds: seq<AudioData>)
  {
    (DifferentContainers(ds) || DifferentCodecs(ds)) && ContainsOpus(ds)
  }

  /** The album values for combined loudness gl and range lr. */
  function AlbumFrom(ds: seq<AudioData>, pregain: real, gl: real, lr: real): AlbumValues
  {
    var p := if ContainsOpus(ds) then pregain - 5.0 else pregain;
    AlbumValues(LufsToRg(gl) + p, PeakOf(TrackPeaks(ds)), gl, lr)
  }

  /** The outcome of AudioFolder::processScanResults on members ds: None when it returns false. */
  function AlbumResult(ds: seq<AudioData>, pregain: real, global: Combine, range: Combine): Option<AlbumValues>
  {
    if !AllScanned(ds) || global(States(ds)).None? || range(States(ds)).None? || MixesOpus(ds) then None
    else Some(AlbumFrom(ds, pregain, global(States(ds)).value, range(States(ds)).value))
  }

  function WithAlbum(d: AudioData, a: AlbumValues): AudioData
  {
    d.(album := d.album.(gain := a.gain, peak := a.peak, loudness := a.loudness, loudnessRange := a.loudnessRange))
  }

  /** The members after processScanResults. */
  function Aggregated(ds: seq<AudioData>, pregain: real, global: Combine, range: Combine): seq<AudioData>
  {
    match AlbumResult(ds, pregain, global, range)
    case None => ds
    case Some(a) => seq(|ds|, i requires 0 <= i < |ds| => WithAlbum(ds[i], a))
  }

  /** The members after scanning members 0..k (each with its outcome). */
  function ScannedUpTo(ds: seq<AudioData>, pregain: real, os: seq<ScanOutcome>, k: nat): seq<AudioData>
    requires |os| == |ds|
  {
    seq(|ds|, i requires 0 <= i < |ds| => if i <= k then Scanned(ds[i], pregain, os[i]) else ds[i])
  }

  /** The index of the first attempt that does not measure, or |os| if all do. */
  function FirstFailure(os: seq<ScanOutcome>): (k: nat)
    ensures k <= |os|
    ensures forall j :: 0 <= j < k ==> os[j].Measured?
    ensures k < |os| ==> !os[k].Measured?
  {
    if |os| == 0 then 0
    else if !os[0].Measured? then 0
    else 1 + FirstFailure(os[1..])
  }

  /** A folder with an unscanned or failed member is never aggregated. */
  lemma IncompleteFolderNotAggregated(ds: seq<AudioData>, pregain: real, global: Combine, range: Combine)
    requires exists i :: 0 <= i < |ds| && ds[i].scanStatus != ScanSucceeded
    ensures AlbumResult(ds, pregain, global, range) == None
    ensures Aggregated(ds, pregain, global, range) == ds
  {
  }

  /**
   * Once every member is scanned and libebur128 combines the states,
   * aggregation fails exactly for a container or codec mix that includes
   * Opus; a mix without Opus is only warned about.
   */
  lemma AggregationFailsIff(ds: seq<AudioData>, pregain: real, global: Combine, range: Combine)
    requires AllScanned(ds) && global(States(ds)).Some? && range(States(ds)).Some?
    ensures AlbumResult(ds, pregain, global, range).None? <==>
      ((exists i :: 1 <= i < |ds| && (ds[i].format != ds[0].format || ds[i].codec != ds[0].codec))
       && (exists i :: 0 <= i < |ds| && ds[i].codec == Opus))
  {
  }

  /** The album peak is the largest member track peak, and at least 0.0. */
  lemma AlbumPeakIsMax(ds: seq<AudioData>, pregain: real, global: Combine, range: Combine)
    requires AlbumResult(ds, pregain, global, range).Some?
    ensures var a := AlbumResult(ds, pregain, global, range).value;
      a.peak >= 0.0
      && (forall i :: 0 <= i < |ds| ==> ds[i].track.peak <= a.peak)
      && (a.peak == 0.0 || exists i :: 0 <= i < |ds| && ds[i].track.peak == a.peak)
  {
    var a := AlbumResult(ds, pregain, global, range).value;
    var tp := TrackPeaks(ds);
    PeakOfBounds(tp);
    assert a.peak == PeakOf(tp);
    assert forall i :: 0 <= i < |ds| ==> tp[i] == ds[i].track.peak;
    if a.peak != 0.0 {
      var j :| 0 <= j < |tp| && tp[j] == a.peak;
      assert ds[j].track.peak == a.peak;
    }
  }

  /**
   * On success every member carries the same album values, and nothing
   * but the album gain, peak, loudness and range changes.
   */
  lemma AggregationWritesAlbumOnly(ds: seq<AudioData>, pregain: real, global: Combine, range: Combine)
    requires AlbumResult(ds, pregain, global, range).Some?
    ensures var a := AlbumResult(ds, pregain, global, range).value;
      var r := Aggregated(ds, pregain, global, range);
      |r| == |ds|
      && forall i :: 0 <= i < |ds| ==>
        r[i].album.gain == a.gain && r[i].album.peak == a.peak
        && r[i].album.loudness == a.loudness && r[i].album.loudnessRange == a.loudnessRange
        && r[i].track == ds[i].track && r[i].scanStatus == ds[i].scanStatus
        && r[i].codec == ds[i].codec && r[i].format == ds[i].format
        && r[i].loudnessReference == ds[i].loudnessReference && r[i].eburState == ds[i].eburState
        && r[i].album.newPeak == ds[i].album.newPeak && r[i].album.clips == ds[i].album.clips
        && r[i].album.clipPrevention == ds[i].album.clipPrevention
  {
  }

  /** Each member's reference is the one its own scan with this pregain produced. */
  predicate ReferencesFrom(ds: seq<AudioData>, pregain: real)
  {
    forall i :: 0 <= i < |ds| ==> ds[i].loudnessReference == LufsToRg(-EffectivePregain(pregain, ds[i].codec))
  }

  /**
   * Because Opus never mixes with anything else in an aggregated album,
   * the album gain is measured against the same reference as each member's
   * track gain.
   */
  lemma AlbumGainMatchesReference(ds: seq<AudioData>, pregain: real, global: Combine, range: Combine)
    requires AlbumResult(ds, pregain, global, range).Some?
    requires ReferencesFrom(ds, pregain)
    ensures var a := AlbumResult(ds, pregain, global, range).value;
      forall i :: 0 <= i < |ds| ==> a.gain == ds[i].loudnessReference - a.loudness
  {
    var a := AlbumResult(ds, pregain, global, range).value;
    forall i | 0 <= i < |ds|
      ensures a.gain == ds[i].loudnessReference - a.loudness
    {
      if ContainsOpus(ds) {
        var j :| 0 <= j < |ds| && ds[j].codec == Opus;
        assert !DifferentCodecs(ds);
        assert ds[j].codec == ds[0].codec;
        assert ds[i].codec == ds[0].codec;
      } else {
        assert ds[i].codec != Opus;
      }
    }
  }

  /**
   * Running processScanResults again on an aggregated folder changes
   * nothing: the album values never feed back into the inputs.
   */
  lemma {:induction false} AggregationIdempotent(ds: seq<AudioData>, pregain: real, global: Combine, range: Combine)
    ensures AlbumResult(Aggregated(ds, pregain, global, range), pregain, global, range)
         == AlbumResult(ds, pregain, global, range)
    ensures Aggregated(Aggregated(ds, pregain, global, range), pregain, global, range)
         == Aggregated(ds, pregain, global, range)
  {
    var r := Aggregated(ds, pregain, global, range);
    match AlbumResult(ds, pregain, global, range)
    case None =>
    case Some(a) =>
      assert |r| == |ds|;
      assert forall i :: 0 <= i < |ds| ==> r[i] == WithAlbum(ds[i], a);
      assert States(r) == States(ds);
      assert TrackPeaks(r) == TrackPeaks(ds);
      assert AllScanned(r) == AllScanned(ds);
      assert DifferentContainers(r) == DifferentContainers(ds);
      assert DifferentCodecs(r) == DifferentCodecs(ds) by {
        assert forall i :: 0 <= i < |ds| ==> r[i].codec == ds[i].codec;
      }
      assert ContainsOpus(r) == ContainsOpus(ds) by {
        assert forall i :: 0 <= i < |ds| ==> r[i].codec == ds[i].codec;
      }
      assert AlbumResult(r, pregain, global, range) == Some(a);
  }

  /**
   * A single-track album whose combined loudness is the track's own gets
   * the track gain and peak as its album gain and peak.
   */
  lemma SingleTrackAlbum(d: AudioData, pregain: real, global: Combine, range: Combine)
    requires d.scanStatus == ScanSucceeded
    requires d.loudnessReference == LufsToRg(-EffectivePregain(pregain, d.codec))
    requires d.track.gain == d.loudnessReference - d.track.loudness
    requires d.track.peak >= 0.0
    requires global(States([d])) == Some(d.track.loudness) && range(States([d])).Some?
    ensures AlbumResult([d], pregain, global, range).Some?
    ensures AlbumResult([d], pregain, global, range).value.gain == d.track.gain
    ensures AlbumResult([d], pregain, global, range).value.peak == d.track.peak
  {
    var tp := TrackPeaks([d]);
    PeakOfBounds(tp);
    assert tp == [d.track.peak];
    assert tp[..0] == [];
    assert ContainsOpus([d]) <==> d.codec == Opus;
  }

  /** One album folder: an ordered, non-empty list of distinct tracks. */
  class AudioFolder {
    var dir: string
    var files: seq<AudioFile>

    ghost predicate Valid()
      reads this
    {
      |files| > 0 && forall i, j :: 0 <= i < j < |files| ==> files[i] != files[j]
    }

    function Members(): seq<AudioData>
      reads this, files
    {
      DataOf(files)
    }

    /** An empty list makes the program exit, so it is excluded here. */
    constructor (paths: seq<Path>)
      requires |paths| > 0
      ensures Valid() && |files| == |paths| && dir == paths[0].dir
      ensures forall i :: 0 <= i < |files| ==> fresh(files[i]) && files[i].path == paths[i]
      ensures forall i :: 0 <= i < |files| ==> files[i].Data() == Unscanned
    {
      var fs: seq<AudioFile> := [];
      var i := 0;
      while i < |paths|
        invariant 0 <= i <= |paths| && |fs| == i
        invariant forall k :: 0 <= k < i ==> fresh(fs[k]) && fs[k].path == paths[k] && fs[k].Data() == Unscanned
        invariant forall k, l :: 0 <= k < l < i ==> fs[k] != fs[l]
      {
        var f := new AudioFile(paths[i]);
        fs := fs + [f];
        i := i + 1;
      }
      files := fs;
      dir := fs[0].Directory();
    }

    function Count(): nat
      reads this
    {
      |files|
    }

    function Directory(): string
      reads this
    {
      dir
    }

    function GetAudioFile(i: nat): AudioFile
      reads this
      requires i < |files|
    {
      files[i]
    }

    method HasDifferentContainers() returns (b: bool)
      ensures b == DifferentContainers(Members())
    {
      var i := 1;
      while i < |files|
        invariant 1 <= i
        invariant forall k :: 1 <= k < i && k < |files| ==> files[k].format == files[0].format
      {
        if files[0].format != files[i].format {
          assert Members()[i].format != Members()[0].format;
          return true;
        }
        i := i + 1;
      }
      return false;
    }

    method HasDifferentCodecs() returns (b: bool)
      ensures b == DifferentCodecs(Members())
    {
      var i := 1;
      while i < |files|
        invariant 1 <= i
        invariant forall k :: 1 <= k < i && k < |files| ==> files[k].codec == files[0].codec
      {
        if files[0].codec != files[i].codec {
          assert Members()[i].codec != Members()[0].codec;
          return true;
        }
        i := i + 1;
      }
      return false;
    }

    method HasOpus() returns (b: bool)
      ensures b == ContainsOpus(Members())
    {
      var i := 0;
      while i < |files|
        invariant 0 <= i <= |files|
        invariant forall k :: 0 <= k < i ==> files[k].codec != Opus
      {
        if files[i].codec == Opus {
          assert Members()[i].codec == Opus;
          return true;
        }
        i := i + 1;
      }
      return false;
    }

    /** AudioFolder::scanFile: scans member i, or reports false when there is none. */
    method ScanFile(i: nat, pregain: real, outcome: ScanOutcome) returns (ok: bool)
      requires Valid()
      modifies if i < |files| then {files[i]} else {}
      ensures ok == (i < |files| && outcome.Measured?)
      ensures Members() ==
        if i < |files| then old(Members())[i := Scanned(old(Members())[i], pregain, outcome)]
        else old(Members())
    {
      if i < |files| {
        ok := files[i].ScanFile(pregain, outcome);
      } else {
        ok := false;
      }
    }

    /**
     * AudioFolder::scanFolder: scans the members in order with the given
     * outcomes, stops at the first failure, and otherwise aggregates.
     */
    method ScanFolder(pregain: real, outcomes: seq<ScanOutcome>, global: Combine, range: Combine) returns (ok: bool)
      requires Valid() && |outcomes| == |files|
      modifies files
      ensures Valid()
      ensures var k := FirstFailure(outcomes);
        var s := ScannedUpTo(old(Members()), pregain, outcomes, k);
        if k < |outcomes| then !ok && Members() == s
        else ok == AlbumResult(s, pregain, global, range).Some? && Members() == Aggregated(s, pregain, global, range)
    {
      var scanned := ScanMembers(pregain, outcomes);
      if !scanned {
        return false;
      }
      ok := ProcessScanResults(pregain, global, range);
    }

    /** The loop of scanFolder: scan in order, stop at the first failure. */
    method ScanMembers(pregain: real, outcomes: seq<ScanOutcome>) returns (allScanned: bool)
      requires Valid() && |outcomes| == |files|
      modifies files
      ensures Valid()
      ensures allScanned == (FirstFailure(outcomes) == |outcomes|)
      ensures Members() == ScannedUpTo(old(Members()), pregain, outcomes, FirstFailure(outcomes))
    {
      ghost var m0 := Members();
      ghost var k := FirstFailure(outcomes);
      var i := 0;
      while i < |files|
        invariant 0 <= i <= |files| && i <= k
        invariant forall j :: 0 <= j < i ==> files[j].Data() == Scanned(m0[j], pregain, outcomes[j])
        invariant forall j :: i <= j < |files| ==> files[j].Data() == m0[j]
      {
        assert forall j :: 0 <= j < |files| && j != i ==> files[j] != files[i];
        var scanned := files[i].ScanFile(pregain, outcomes[i]);
        if !scanned {
          assert k == i;
          MembersAre(ScannedUpTo(m0, pregain, outcomes, k));
          return false;
        }
        i := i + 1;
      }
      MembersAre(ScannedUpTo(m0, pregain, outcomes, k));
      return true;
    }

    /** Members() is ds when every file holds its entry of ds. */
    lemma MembersAre(ds: seq<AudioData>)
      requires |ds| == |files| && forall k :: 0 <= k < |files| ==> files[k].Data() == ds[k]
      ensures Members() == ds
    {
    }

    /** The status loop at the head of processScanResults. */
    method AllMembersScanned() returns (b: bool)
      ensures b == AllScanned(Members())
    {
      var i := 0;
      while i < |files|
        invariant 0 <= i <= |files|
        invariant forall k :: 0 <= k < i ==> files[k].scanStatus == ScanSucceeded
      {
        if files[i].scanStatus != ScanSucceeded {
          assert Members()[i].scanStatus != ScanSucceeded;
          return false;
        }
        i := i + 1;
      }
      return true;
    }

    /** The array of measurement states handed to the libebur128 combines. */
    method CollectStates() returns (states: seq<Option<EburHandle>>)
      ensures states == States(Members())
    {
      states := [];
      var i := 0;
      while i < |files|
        invariant 0 <= i <= |files| && |states| == i
        invariant forall k :: 0 <= k < i ==> states[k] == files[k].eburState
      {
        states := states + [files[i].eburState];
        i := i + 1;
      }
    }

    /** The album peak loop: std::max over member track peaks, from 0.0. */
    method MaxTrackPeak() returns (peak: real)
      ensures peak == PeakOf(TrackPeaks(Members()))
    {
      ghost var tp := TrackPeaks(Members());
      peak := 0.0;
      var i := 0;
      while i < |files|
        invariant 0 <= i <= |files| && peak == PeakOf(tp[..i])
      {
        assert tp[..i + 1][..i] == tp[..i];
        peak := Max(peak, files[i].track.peak);
        i := i + 1;
      }
      assert tp[..|files|] == tp;
    }

    /** The loop writing the album values into every member. */
    method WriteAlbumValues(a: AlbumValues)
      requires Valid()
      modifies files
      ensures forall k :: 0 <= k < |files| ==> files[k].Data() == WithAlbum(old(files[k].Data()), a)
    {
      var i := 0;
      while i < |files|
        invariant 0 <= i <= |files|
        invariant forall k :: 0 <= k < i ==> files[k].Data() == WithAlbum(old(files[k].Data()), a)
        invariant forall k :: i <= k < |files| ==> files[k].Data() == old(files[k].Data())
      {
        var audio := files[i];
        audio.album := audio.album.(gain := a.gain, peak := a.peak, loudness := a.loudness, loudnessRange := a.loudnessRange);
        i := i + 1;
      }
    }

    /**
     * The codec check of processScanResults: different containers or codecs
     * are refused when Opus is among them, and otherwise only warned about.
     */
    method MixesOpusAndOthers() returns (refused: bool)
      ensures refused == MixesOpus(Members())
    {
      var differentContainers := HasDifferentContainers();
      var differentCodecs := HasDifferentCodecs();
      refused := false;
      if differentContainers || differentCodecs {
        var opus := HasOpus();
        if opus {
          refused := true;
        }
      }
    }

    /**
     * The checks and measurements of processScanResults, before anything is
     * written: the album values, or None where the source returns false.
     */
    method ComputeAlbumValues(pregain: real, global: Combine, range: Combine) returns (r: Option<AlbumValues>)
      ensures r == AlbumResult(Members(), pregain, global, range)
    {
      ghost var ds := Members();
      var scanned := AllMembersScanned();
      if !scanned {
        return None;
      }
      var states := CollectStates();
      var globalLoudness := global(states);
      if globalLoudness.None? {
        return None;
      }
      var loudnessRange := range(states);
      if loudnessRange.None? {
        return None;
      }
      var mixed := MixesOpusAndOthers();
      if mixed {
        return None;
      }
      var album := AlbumOf(pregain, globalLoudness.value, loudnessRange.value);
      r := Some(album);
    }

    /** The album gain and peak processScanResults derives once every check passed. */
    method AlbumOf(pregain: real, gl: real, lr: real) returns (album: AlbumValues)
      ensures album == AlbumFrom(Members(), pregain, gl, lr)
    {
      var opus := HasOpus();
      var p := pregain;
      if opus {
        p := p - 5.0;
      }
      var albumPeak := MaxTrackPeak();
      album := AlbumValues(LufsToRg(gl) + p, albumPeak, gl, lr);
    }

    /**
     * AudioFolder::processScanResults. The libebur128 combines are the
     * global and range parameters.
     */
    method ProcessScanResults(pregain: real, global: Combine, range: Combine) returns (ok: bool)
      requires Valid()
      modifies files
      ensures Valid()
      ensures ok == AlbumResult(old(Members()), pregain, global, range).Some?
      ensures Members() == Aggregated(old(Members()), pregain, global, range)
    {
      var album := ComputeAlbumValues(pregain, global, range);
      if album.None? {
        return false;
      }
      ghost var m0 := Members();
      WriteAlbumValues(album.value);
      MembersAre(Aggregated(m0, pregain, global, range));
      ok := true;
    }
  }
}
