// The LoudGain controller of src/loudgain.cpp: its configuration, the
// setters, the clip handling of one file and of one album, and the
// dispatch of processLibrary.
module Controller {
  import opened Common
  import opened Scan
  import opened Folder
  import opened Clipping
  import opened Extensions
  import opened Library

  /** std::clamp on doubles: lo when below, hi when above, x otherwise. */
  function ClampReal(x: real, lo: real, hi: real): real
    requires lo <= hi
  {
    if x < lo then lo else if hi < x then hi else x
  }

  /** std::clamp on ints. */
  function ClampInt(x: int, lo: int, hi: int): int
    requires lo <= hi
  {
    if x < lo then lo else if hi < x then hi else x
  }

  /**
   * The clamped value lies in the range, a value already in the range is
   * kept, and clamping a second time changes nothing.
   */
  lemma ClampRealLaws(x: real, lo: real, hi: real)
    requires lo <= hi
    ensures lo <= ClampReal(x, lo, hi) <= hi
    ensures lo <= x <= hi <==> ClampReal(x, lo, hi) == x
    ensures x <= lo ==> ClampReal(x, lo, hi) == lo
    ensures hi <= x ==> ClampReal(x, lo, hi) == hi
    ensures ClampReal(ClampReal(x, lo, hi), lo, hi) == ClampReal(x, lo, hi)
  {
  }

  lemma ClampIntLaws(x: int, lo: int, hi: int)
    requires lo <= hi
    ensures lo <= ClampInt(x, lo, hi) <= hi
    ensures lo <= x <= hi <==> ClampInt(x, lo, hi) == x
    ensures x <= lo ==> ClampInt(x, lo, hi) == lo
    ensures hi <= x ==> ClampInt(x, lo, hi) == hi
    ensures ClampInt(ClampInt(x, lo, hi), lo, hi) == ClampInt(x, lo, hi)
  {
  }

  /** The ID3v2 versions that can be written are exactly 3 and 4. */
  lemma Id3VersionRange(v: int)
    ensures ClampInt(v, 3, 4) == 3 || ClampInt(v, 3, 4) == 4
    ensures ClampInt(v, 3, 4) == 4 <==> v >= 4
  {
  }

  /** The tag modes setTagMode accepts: delete, insert, extended, skip. */
  const TagModes: string := "dies"

  const ThreadLimit: nat := 0x1_0000_0000

  /**
   * setNumberOfThreads for the given std::thread::hardware_concurrency: 0
   * asks for one thread less than the machine has, computed in unsigned
   * arithmetic, and any other request is capped at the machine's count.
   */
  function ThreadCount(n: nat, hardware: nat): nat
    requires n < ThreadLimit && hardware < ThreadLimit
  {
    if n == 0 then (hardware - 1) % ThreadLimit
    else if n < hardware then n else hardware
  }

  /**
   * An explicit request is never raised and never exceeds the hardware
   * count; 0 gives hardware - 1, which wraps round to the largest unsigned
   * value when the hardware count is unknown (0).
   */
  lemma ThreadCountBounds(n: nat, hardware: nat)
    requires n < ThreadLimit && hardware < ThreadLimit
    ensures ThreadCount(n, hardware) < ThreadLimit
    ensures n != 0 ==> ThreadCount(n, hardware) <= n && ThreadCount(n, hardware) <= hardware
    ensures n != 0 ==> (ThreadCount(n, hardware) == n <==> n <= hardware)
    ensures n == 0 && hardware > 0 ==> ThreadCount(n, hardware) + 1 == hardware
    ensures n == 0 && hardware == 0 ==> ThreadCount(n, hardware) == ThreadLimit - 1
  {
  }

  /** The candidate loop of setUserExtensions, over the getline pieces. */
  method CandidateList(pieces: seq<string>) returns (exts: seq<string>)
    ensures exts == Candidates(pieces)
  {
    exts := [];
    for i := 0 to |pieces|
      invariant exts == Candidates(pieces[..i])
    {
      var s := pieces[i];
      assert pieces[..i + 1][..i] == pieces[..i];
      if |s| >= 2 && s[0] != '.' {
        exts := exts + ["." + s];
      } else if |s| >= 2 && s[0] == '.' {
        exts := exts + [s];
      }
    }
    assert pieces[..|pieces|] == pieces;
  }

  /** The filter loop of setUserExtensions: the supported candidates, in order. */
  method SupportedOnly(exts: seq<string>) returns (kept: seq<string>)
    ensures kept == KeepSupported(exts)
  {
    kept := [];
    for i := 0 to |exts|
      invariant kept == KeepSupported(exts[..i])
    {
      assert exts[..i + 1][..i] == exts[..i];
      if exts[i] in SupportedExtensions {
        kept := kept + [exts[i]];
      }
    }
    assert exts[..|exts|] == exts;
  }

  /**
   * processAudioFolder on a folder whose members hold ds: nothing when the
   * album values cannot be computed, otherwise every aggregated member
   * through the clip handling of processAudioFile.
   */
  function FolderProcessed(ds: seq<AudioData>, pregain: real, global: Combine, range: Combine,
                           scanAlbum: bool, ceilingDb: real, prevent: bool,
                           toLinear: real -> Positive, toDb: real -> real): seq<AudioData>
  {
    match AlbumResult(ds, pregain, global, range)
    case None => ds
    case Some(_) =>
      ProcessedAll(Aggregated(ds, pregain, global, range), scanAlbum, ceilingDb, prevent, toLinear, toDb)
  }

  /** Every record through the clip handling of processAudioFile, in order. */
  function ProcessedAll(ds: seq<AudioData>, scanAlbum: bool, ceilingDb: real, prevent: bool,
                        toLinear: real -> Positive, toDb: real -> real): (r: seq<AudioData>)
    ensures |r| == |ds|
  {
    seq(|ds|, i requires 0 <= i < |ds| => Processed(ds[i], scanAlbum, ceilingDb, prevent, toLinear, toDb))
  }

  /** A folder with a member that was not scanned successfully is left entirely alone. */
  lemma FailedFolderUntouched(ds: seq<AudioData>, pregain: real, global: Combine, range: Combine,
                              scanAlbum: bool, ceilingDb: real, prevent: bool,
                              toLinear: real -> Positive, toDb: real -> real)
    requires exists i :: 0 <= i < |ds| && ds[i].scanStatus != ScanSucceeded
    ensures FolderProcessed(ds, pregain, global, range, scanAlbum, ceilingDb, prevent, toLinear, toDb) == ds
  {
    IncompleteFolderNotAggregated(ds, pregain, global, range);
  }

  /**
   * After a successful aggregation every member carries the same album
   * gain and album peak before the clip handling, so in album mode every
   * member ends with the same album values and flags.
   */
  lemma AlbumValuesShared(ds: seq<AudioData>, pregain: real, global: Combine, range: Combine,
                          ceilingDb: real, prevent: bool,
                          toLinear: real -> Positive, toDb: real -> real, i: nat, j: nat)
    requires AlbumResult(ds, pregain, global, range).Some?
    requires i < |ds| && j < |ds|
    requires ds[i].album.clips == ds[j].album.clips && ds[i].album.clipPrevention == ds[j].album.clipPrevention
    requires ds[i].album.newPeak == ds[j].album.newPeak
    ensures var r := FolderProcessed(ds, pregain, global, range, true, ceilingDb, prevent, toLinear, toDb);
      |r| == |ds| && r[i].album == r[j].album
  {
    var agg := Aggregated(ds, pregain, global, range);
    var a := AlbumResult(ds, pregain, global, range).value;
    assert agg[i] == WithAlbum(ds[i], a) && agg[j] == WithAlbum(ds[j], a);
    assert agg[i].album == agg[j].album;
  }

  /**
   * Aggregating the members first does not change what processAudioFolder
   * does with them: it aggregates again to the same album values.
   */
  lemma {:induction false} FolderProcessedAfterAggregation(ds: seq<AudioData>, pregain: real, global: Combine, range: Combine,
                                             scanAlbum: bool, ceilingDb: real, prevent: bool,
                                             toLinear: real -> Positive, toDb: real -> real)
    ensures FolderProcessed(Aggregated(ds, pregain, global, range), pregain, global, range, scanAlbum, ceilingDb, prevent, toLinear, toDb)
         == FolderProcessed(ds, pregain, global, range, scanAlbum, ceilingDb, prevent, toLinear, toDb)
  {
    AggregationIdempotent(ds, pregain, global, range);
  }

  /** The configuration of include/loudgain.hpp and the operations of src/loudgain.cpp. */
  class LoudGain {
    var verbosity: int
    var scanAlbum: bool
    var tabOutput: bool
    var preventClipping: bool
    var stripTags: bool
    var lowerCaseTags: bool
    var warnClipping: bool
    var skipTaggedFiles: bool
    var id3v2Version: int
    var maxTruePeakLevel: real
    var pregain: real
    var tagMode: char
    var scanMode: char
    var unit: string
    var numberOfThreads: nat
    var dc: char
    var sp: char
    var recursive: bool
    var userExtensions: seq<string>

    /**
     * The configuration invariants the constructor establishes and every
     * setter keeps. The processing methods do not need them: the unsigned
     * wrap of the folder-task threshold is modelled for every thread count.
     */
    ghost predicate Valid()
      reads this
    {
      -32.0 <= pregain <= 32.0 && -32.0 <= maxTruePeakLevel <= 32.0
      && 3 <= id3v2Version <= 4
      && tagMode in TagModes
      && (unit == "dB" || unit == "LU")
      && numberOfThreads < ThreadLimit
      && forall i :: 0 <= i < |userExtensions| ==> userExtensions[i] in SupportedExtensions
    }

    /**
     * The field initialisers and the constructor; decimalPoint is the
     * locale's decimal character, which the constructor looks up.
     */
    constructor (decimalPoint: char)
      ensures Valid()
      ensures verbosity == 1 && !scanAlbum && !tabOutput && preventClipping && !stripTags
      ensures !lowerCaseTags && warnClipping && !skipTaggedFiles
      ensures id3v2Version == 4 && maxTruePeakLevel == -1.0 && pregain == 0.0
      ensures tagMode == 's' && scanMode == 'u' && unit == "dB" && numberOfThreads == 1
      ensures dc == decimalPoint && sp == (if decimalPoint == ',' then ';' else ',')
      ensures !recursive && userExtensions == SupportedExtensions
    {
      verbosity := 1;
      scanAlbum := false;
      tabOutput := false;
      preventClipping := true;
      stripTags := false;
      lowerCaseTags := false;
      warnClipping := true;
      skipTaggedFiles := false;
      id3v2Version := 4;
      maxTruePeakLevel := -1.0;
      pregain := 0.0;
      tagMode := 's';
      scanMode := 'u';
      unit := "dB";
      numberOfThreads := 1;
      sp := ',';
      recursive := false;
      userExtensions := SupportedExtensions;
      dc := decimalPoint;
      if decimalPoint == ',' {
        sp := ';';
      }
    }

    /**
     * setTagMode: one of d, i, e, s is stored; anything else makes the
     * program exit, here reported as false with the mode unchanged.
     */
    method SetTagMode(mode: char) returns (ok: bool)
      requires Valid()
      modifies this`tagMode
      ensures Valid()
      ensures ok <==> mode in TagModes
      ensures tagMode == if ok then mode else old(tagMode)
    {
      if mode !in TagModes {
        return false;
      }
      tagMode := mode;
      ok := true;
    }

    method SetUnitToLUFS(enable: bool)
      requires Valid()
      modifies this`unit
      ensures Valid()
      ensures unit == if enable then "LU" else "dB"
    {
      if enable {
        unit := "LU";
      } else {
        unit := "dB";
      }
    }

    method SetVerbosity(level: int)
      requires Valid()
      modifies this`verbosity
      ensures Valid()
      ensures verbosity == level
    {
      verbosity := level;
    }

    method SetAlbumScanMode(enable: bool)
      requires Valid()
      modifies this`scanAlbum
      ensures Valid()
      ensures scanAlbum == enable
    {
      scanAlbum := enable;
    }

    method SetSkipTaggedFiles(skip: bool)
      requires Valid()
      modifies this`skipTaggedFiles
      ensures Valid()
      ensures skipTaggedFiles == skip
    {
      skipTaggedFiles := skip;
    }

    /** setPregain: the gain is clamped to [-32, 32]. */
    method SetPregain(gain: real)
      requires Valid()
      modifies this`pregain
      ensures Valid()
      ensures pregain == ClampReal(gain, -32.0, 32.0)
      ensures -32.0 <= pregain <= 32.0
    {
      pregain := ClampReal(gain, -32.0, 32.0);
    }

    method SetWarnClipping(enable: bool)
      requires Valid()
      modifies this`warnClipping
      ensures Valid()
      ensures warnClipping == enable
    {
      warnClipping := enable;
    }

    method SetPreventClipping(enable: bool)
      requires Valid()
      modifies this`preventClipping
      ensures Valid()
      ensures preventClipping == enable
    {
      preventClipping := enable;
    }

    /** setMaxTruePeakLevel: switches clipping prevention on and stores the clamped level. */
    method SetMaxTruePeakLevel(level: real)
      requires Valid()
      modifies this`preventClipping, this`maxTruePeakLevel
      ensures Valid()
      ensures preventClipping
      ensures maxTruePeakLevel == ClampReal(level, -32.0, 32.0)
      ensures -32.0 <= maxTruePeakLevel <= 32.0
    {
      preventClipping := true;
      maxTruePeakLevel := ClampReal(level, -32.0, 32.0);
    }

    /** setID3v2Version: the version is clamped to [3, 4]. */
    method SetID3v2Version(version: int)
      requires Valid()
      modifies this`id3v2Version
      ensures Valid()
      ensures id3v2Version == ClampInt(version, 3, 4)
      ensures id3v2Version == 3 || id3v2Version == 4
    {
      id3v2Version := ClampInt(version, 3, 4);
    }

    method SetForceLowerCaseTags(enable: bool)
      requires Valid()
      modifies this`lowerCaseTags
      ensures Valid()
      ensures lowerCaseTags == enable
    {
      lowerCaseTags := enable;
    }

    method SetStripTags(enable: bool)
      requires Valid()
      modifies this`stripTags
      ensures Valid()
      ensures stripTags == enable
    {
      stripTags := enable;
    }

    method SetTabOutput(enable: bool)
      requires Valid()
      modifies this`tabOutput
      ensures Valid()
      ensures tabOutput == enable
    {
      tabOutput := enable;
    }

    /** setNumberOfThreads, with the hardware concurrency as a parameter. */
    method SetNumberOfThreads(n: nat, hardware: nat)
      requires n < ThreadLimit && hardware < ThreadLimit
      requires Valid()
      modifies this`numberOfThreads
      ensures Valid()
      ensures numberOfThreads == ThreadCount(n, hardware)
      ensures numberOfThreads < ThreadLimit
    {
      if n == 0 {
        numberOfThreads := (hardware - 1) % ThreadLimit;
      } else if n < hardware {
        numberOfThreads := n;
      } else {
        numberOfThreads := hardware;
      }
    }

    method SetRecursiveDirectoryScan(enable: bool)
      requires Valid()
      modifies this`recursive
      ensures Valid()
      ensures recursive == enable
    {
      recursive := enable;
    }

    /**
     * setUserExtensions: the previous list is replaced by the supported
     * candidates of the comma-separated text, in order, even when none is
     * left.
     */
    method SetUserExtensions(extensions: string)
      requires Valid()
      modifies this`userExtensions
      ensures Valid()
      ensures userExtensions == Selected(extensions)
      ensures forall i :: 0 <= i < |userExtensions| ==> userExtensions[i] in SupportedExtensions
    {
      var exts := CandidateList(GetlinePieces(extensions));
      userExtensions := SupportedOnly(exts);
      forall i | 0 <= i < |userExtensions|
        ensures userExtensions[i] in SupportedExtensions
      {
        KeepSupportedMembers(exts, userExtensions[i]);
      }
    }

    /**
     * processAudioFile(AudioFile&): a failed scan is only reported; a
     * successful one gets the clip detection and prevention of its track
     * values (and album values in album mode) and the new peaks, and the
     * tags are written in modes i and e.
     */
    method ProcessAudioFile(af: AudioFile, toLinear: real -> Positive, toDb: real -> real) returns (tagged: bool)
      modifies af
      ensures af.Data() == Processed(old(af.Data()), scanAlbum, maxTruePeakLevel, preventClipping, toLinear, toDb)
      ensures tagged <==> old(af.scanStatus) == ScanSucceeded && (tagMode == 'i' || tagMode == 'e')
    {
      if af.scanStatus != ScanSucceeded {
        return false;
      }
      var t := CheckScope(af.track, maxTruePeakLevel, preventClipping, toLinear, toDb);
      var a := af.album;
      if scanAlbum {
        a := CheckScope(af.album, maxTruePeakLevel, preventClipping, toLinear, toDb);
      }
      af.track, af.album := t, a;
      tagged := tagMode == 'i' || tagMode == 'e';
    }

    /**
     * The part of processAudioFile for one scope: the clip check against
     * the ceiling, the prevention when it clips, and the new peak. The
     * source guards prevention by "track or album clips" and then each
     * scope by its own flag, which is the same as each scope's own flag.
     */
    static method CheckScope(s: ScopeValues, ceilingDb: real, prevent: bool,
                             toLinear: real -> Positive, toDb: real -> real) returns (r: ScopeValues)
      ensures r == Corrected(s, ceilingDb, prevent, toLinear, toDb)
    {
      r := s;
      var peak: real := toLinear(ceilingDb);
      var gained: real := toLinear(r.gain) * r.peak;
      if gained > peak {
        r := r.(clips := true);
      }
      assert gained == Gained(s, toLinear);
      if r.clips && prevent {
        r := r.(gain := r.gain - toDb(gained / peak), clips := false, clipPrevention := true);
      }
      r := r.(newPeak := toLinear(r.gain) * r.peak);
    }

    /**
     * processAudioFolder(AudioFolder&): when processScanResults fails no
     * member is processed or tagged; otherwise every member, in order, goes
     * through processAudioFile. The result counts the tag writes.
     */
    method ProcessAudioFolder(folder: AudioFolder, global: Combine, range: Combine,
                              toLinear: real -> Positive, toDb: real -> real) returns (ok: bool, writes: nat)
      requires folder.Valid()
      modifies folder.files
      ensures folder.Valid()
      ensures ok == AlbumResult(old(folder.Members()), pregain, global, range).Some?
      ensures folder.Members() == FolderProcessed(old(folder.Members()), pregain, global, range,
                                                  scanAlbum, maxTruePeakLevel, preventClipping, toLinear, toDb)
      ensures writes == if ok && (tagMode == 'i' || tagMode == 'e') then |folder.files| else 0
    {
      ghost var m0 := folder.Members();
      ok := folder.ProcessScanResults(pregain, global, range);
      if !ok {
        return ok, 0;
      }
      assert AllScanned(folder.Members());
      writes := ProcessAggregated(folder, toLinear, toDb);
    }

    /** The successful branch of processAudioFolder: every aggregated member through processAudioFile, in order. */
    method ProcessAggregated(folder: AudioFolder, toLinear: real -> Positive, toDb: real -> real) returns (writes: nat)
      requires folder.Valid() && AllScanned(folder.Members())
      modifies folder.files
      ensures folder.Valid()
      ensures folder.Members() == ProcessedAll(old(folder.Members()), scanAlbum, maxTruePeakLevel, preventClipping, toLinear, toDb)
      ensures writes == if tagMode == 'i' || tagMode == 'e' then |folder.files| else 0
    {
      ghost var agg := folder.Members();
      assert forall k :: 0 <= k < |folder.files| ==> folder.files[k].Data() == agg[k];
      writes := ProcessMembers(folder.files, toLinear, toDb);
      assert folder.Valid();
      folder.MembersAre(ProcessedAll(agg, scanAlbum, maxTruePeakLevel, preventClipping, toLinear, toDb));
    }

    /** The member loop of processAudioFolder: processAudioFile on each member, in order. */
    method ProcessMembers(files: seq<AudioFile>, toLinear: real -> Positive, toDb: real -> real) returns (writes: nat)
      requires forall i, j :: 0 <= i < j < |files| ==> files[i] != files[j]
      requires forall i :: 0 <= i < |files| ==> files[i].scanStatus == ScanSucceeded
      modifies files
      ensures forall k :: 0 <= k < |files| ==>
        files[k].Data() == Processed(old(files[k].Data()), scanAlbum, maxTruePeakLevel, preventClipping, toLinear, toDb)
      ensures writes == if tagMode == 'i' || tagMode == 'e' then |files| else 0
    {
      writes := 0;
      for i := 0 to |files|
        invariant forall k :: 0 <= k < i ==>
          files[k].Data() == Processed(old(files[k].Data()), scanAlbum, maxTruePeakLevel, preventClipping, toLinear, toDb)
        invariant forall k :: i <= k < |files| ==> files[k].Data() == old(files[k].Data())
        invariant writes == if tagMode == 'i' || tagMode == 'e' then i else 0
      {
        var tagged := ProcessAudioFile(files[i], toLinear, toDb);
        if tagged {
          writes := writes + 1;
        }
      }
    }

    /**
     * processAudioFolder(paths): a new folder for the paths is scanned with
     * the given outcomes (which includes one aggregation) and then
     * processed, which aggregates again to the same values. The result is
     * the members of the folder afterwards and the number of tag writes.
     */
    method ProcessFolderPaths(paths: seq<Path>, outcomes: seq<ScanOutcome>, global: Combine, range: Combine,
                              toLinear: real -> Positive, toDb: real -> real)
      returns (members: seq<AudioData>, writes: nat)
      requires |paths| > 0 && |outcomes| == |paths|
      ensures var s := ScannedUpTo(seq(|paths|, _ => Unscanned), pregain, outcomes, FirstFailure(outcomes));
        members == FolderProcessed(s, pregain, global, range, scanAlbum, maxTruePeakLevel, preventClipping, toLinear, toDb)
      ensures writes > 0 ==> FirstFailure(outcomes) == |outcomes| && (tagMode == 'i' || tagMode == 'e')
      ensures var s := ScannedUpTo(seq(|paths|, _ => Unscanned), pregain, outcomes, FirstFailure(outcomes));
        writes == if AlbumResult(s, pregain, global, range).Some? && (tagMode == 'i' || tagMode == 'e') then |paths| else 0
    {
      var folder := ScanNewFolder(paths, outcomes, global, range);
      ghost var s := ScannedUpTo(seq(|paths|, _ => Unscanned), pregain, outcomes, FirstFailure(outcomes));
      if FirstFailure(outcomes) < |outcomes| {
        assert s[FirstFailure(outcomes)].scanStatus == ScanFailed;
        FailedFolderUntouched(s, pregain, global, range, scanAlbum, maxTruePeakLevel, preventClipping, toLinear, toDb);
      } else {
        FolderProcessedAfterAggregation(s, pregain, global, range, scanAlbum, maxTruePeakLevel, preventClipping, toLinear, toDb);
        AggregationIdempotent(s, pregain, global, range);
      }
      var ok;
      ok, writes := ProcessAudioFolder(folder, global, range, toLinear, toDb);
      members := folder.Members();
    }

    /**
     * The first half of processAudioFolder(paths): a new folder for the
     * paths, scanned with the given outcomes; it holds the scanned records,
     * aggregated when every scan measured.
     */
    method ScanNewFolder(paths: seq<Path>, outcomes: seq<ScanOutcome>, global: Combine, range: Combine)
      returns (folder: AudioFolder)
      requires |paths| > 0 && |outcomes| == |paths|
      ensures fresh(folder) && folder.Valid() && forall i :: 0 <= i < |folder.files| ==> fresh(folder.files[i])
      ensures var s := ScannedUpTo(seq(|paths|, _ => Unscanned), pregain, outcomes, FirstFailure(outcomes));
        folder.Members() == if FirstFailure(outcomes) < |outcomes| then s else Aggregated(s, pregain, global, range)
    {
      folder := new AudioFolder(paths);
      ghost var fresh0 := folder.Members();
      assert fresh0 == seq(|paths|, _ => Unscanned);
      var scanned := folder.ScanFolder(pregain, outcomes, global, range);
    }

    /**
     * processLibrary with the files and the group keys in the order in
     * which std::set and std::map list them: removal tasks in mode d,
     * otherwise the album dispatch in album mode and one task per file in
     * track mode. In the album trace each folder is its index in order.
     */
    method ProcessLibrary(files: seq<Path>, order: seq<string>) returns (trace: seq<Event>)
      requires forall k :: k in Grouped(files) <==> k in order
      requires forall i, j :: 0 <= i < j < |order| ==> order[i] != order[j]
      ensures tagMode == 'd' ==>
        |trace| == |files| + 1 && trace[|files|] == WaitForFinished
        && (forall i :: 0 <= i < |files| ==> trace[i] == RemoveTags(i))
      ensures tagMode != 'd' && !scanAlbum ==>
        |trace| == |files| + 1 && trace[|files|] == WaitForFinished
        && (forall i :: 0 <= i < |files| ==> trace[i] == RunFile(i))
      ensures tagMode != 'd' && scanAlbum ==>
        Handled(trace) == Range(|order|)
        && AggregatedAfterScans(trace, FolderSizes(files, order))
    {
      if tagMode == 'd' {
        trace := ProcessRemovals(|files|);
      } else if scanAlbum {
        trace := ProcessAlbums(FolderSizes(files, order), numberOfThreads);
      } else {
        trace := ProcessTracks(|files|);
      }
    }
  }

  /** The number of tracks of each folder, in key order. */
  function FolderSizes(files: seq<Path>, order: seq<string>): (r: seq<nat>)
    requires forall k :: k in Grouped(files) <==> k in order
    ensures |r| == |order|
    ensures forall i :: 0 <= i < |order| ==> r[i] == |InFolder(files, order[i])| && r[i] > 0
  {
    GroupedSizes(files, order);
    seq(|order|, i requires 0 <= i < |order| => |Grouped(files)[order[i]]|)
  }

  lemma GroupedSizes(files: seq<Path>, order: seq<string>)
    requires forall k :: k in Grouped(files) <==> k in order
    ensures forall i :: 0 <= i < |order| ==>
      order[i] in Grouped(files) && Grouped(files)[order[i]] == InFolder(files, order[i])
      && |Grouped(files)[order[i]]| > 0
  {
    forall i | 0 <= i < |order|
      ensures order[i] in Grouped(files) && Grouped(files)[order[i]] == InFolder(files, order[i])
        && |Grouped(files)[order[i]]| > 0
    {
      GroupedByDirectory(files, order[i]);
    }
  }
}
