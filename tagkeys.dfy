// The ReplayGain vocabulary of LoudGain's tagger: the seven tag names, the
// case comparison str_compare, the "tags present" counting rule, the
// container-name table of RGTagManager and the Q7.8 gain of Opus headers.
module TagKeys {
  import opened Common

  /** The seven ReplayGain tags, in the order of RG_ENUM. */
  datatype RgTag =
    | TrackGain | TrackPeak | TrackRange
    | AlbumGain | AlbumPeak | AlbumRange
    | ReferenceLoudness

  function UpperName(t: RgTag): string
  {
    match t
    case TrackGain => "REPLAYGAIN_TRACK_GAIN"
    case TrackPeak => "REPLAYGAIN_TRACK_PEAK"
    case TrackRange => "REPLAYGAIN_TRACK_RANGE"
    case AlbumGain => "REPLAYGAIN_ALBUM_GAIN"
    case AlbumPeak => "REPLAYGAIN_ALBUM_PEAK"
    case AlbumRange => "REPLAYGAIN_ALBUM_RANGE"
    case ReferenceLoudness => "REPLAYGAIN_REFERENCE_LOUDNESS"
  }

  function LowerName(t: RgTag): string
  {
    match t
    case TrackGain => "replaygain_track_gain"
    case TrackPeak => "replaygain_track_peak"
    case TrackRange => "replaygain_track_range"
    case AlbumGain => "replaygain_album_gain"
    case AlbumPeak => "replaygain_album_peak"
    case AlbumRange => "replaygain_album_range"
    case ReferenceLoudness => "replaygain_reference_loudness"
  }

  /** The key a writer uses: the lower-case table when -L is honoured, else the upper-case one. */
  function Name(t: RgTag, lowercase: bool): string
  {
    if lowercase then LowerName(t) else UpperName(t)
  }

  const AllTags: set<RgTag> :=
    {TrackGain, TrackPeak, TrackRange, AlbumGain, AlbumPeak, AlbumRange, ReferenceLoudness}

  /** What tag_remove_album_* removes: album gain, peak and range. */
  const AlbumTags: set<RgTag> := {AlbumGain, AlbumPeak, AlbumRange}

  /** What tag_remove_extra_* removes: track range, album range and reference loudness. */
  const ExtraTags: set<RgTag> := {TrackRange, AlbumRange, ReferenceLoudness}

  function UpperNames(ts: set<RgTag>): set<string>
  {
    set t | t in ts :: UpperName(t)
  }

  /** The upper-case names every tags_present_* compares against. */
  const RgNames: set<string> := UpperNames(AllTags)

  // Upper-casing each lower-case name, one literal at a time.
  lemma UpperTrackGain() ensures Upper(LowerName(TrackGain)) == UpperName(TrackGain) {}
  lemma UpperTrackPeak() ensures Upper(LowerName(TrackPeak)) == UpperName(TrackPeak) {}
  lemma UpperTrackRange() ensures Upper(LowerName(TrackRange)) == UpperName(TrackRange) {}
  lemma UpperAlbumGain() ensures Upper(LowerName(AlbumGain)) == UpperName(AlbumGain) {}
  lemma UpperAlbumPeak() ensures Upper(LowerName(AlbumPeak)) == UpperName(AlbumPeak) {}
  lemma UpperAlbumRange() ensures Upper(LowerName(AlbumRange)) == UpperName(AlbumRange) {}
  lemma UpperReference() ensures Upper(LowerName(ReferenceLoudness)) == UpperName(ReferenceLoudness) {}

  /**
   * Both tables spell the same names: upper-casing either gives the
   * upper-case name, and distinct tags have distinct upper-case names.
   */
  lemma NameTables(t: RgTag, u: RgTag, lowercase: bool)
    ensures Upper(Name(t, lowercase)) == UpperName(t)
    ensures Upper(UpperName(t)) == UpperName(t)
    ensures UpperName(t) == UpperName(u) <==> t == u
    ensures UpperName(t) in RgNames
  {
    match t {
      case TrackGain => UpperTrackGain();
      case TrackPeak => UpperTrackPeak();
      case TrackRange => UpperTrackRange();
      case AlbumGain => UpperAlbumGain();
      case AlbumPeak => UpperAlbumPeak();
      case AlbumRange => UpperAlbumRange();
      case ReferenceLoudness => UpperReference();
    }
    UpperIdempotent(LowerName(t));
    if UpperName(t) == UpperName(u) {
      // The twelfth and eighteenth characters tell the seven names apart.
      assert UpperName(t)[11] == UpperName(u)[11];
      assert UpperName(t)[17] == UpperName(u)[17];
    }
  }

  /** Upper-casing a name that is not a ReplayGain name never gives one. */
  lemma RgNamesOf(s: string)
    ensures s in RgNames <==> exists t :: UpperName(t) == s
  {
    if s in RgNames {
      var t :| t in AllTags && UpperName(t) == s;
    }
  }

  /**
   * str_compare: 0 when the strings are equal, 1 when they differ only in
   * letter case, -1 when they differ otherwise.
   */
  function StrCompare(s1: string, s2: string): (r: int)
    ensures r == 0 <==> s1 == s2
    ensures r == 1 <==> s1 != s2 && Upper(s1) == Upper(s2)
    ensures r == -1 <==> Upper(s1) != Upper(s2)
    ensures r >= 0 <==> Upper(s1) == Upper(s2)
  {
    if s1 == s2 then 0
    else if Upper(s1) == Upper(s2) then 1
    else -1
  }

  /** The comparison does not depend on the order of its arguments. */
  lemma StrCompareSymmetric(s1: string, s2: string)
    ensures StrCompare(s1, s2) == StrCompare(s2, s1)
  {
  }

  /** A string is equal to its upper-case form up to case exactly when it is not already upper case. */
  lemma StrCompareUpper(s: string)
    ensures StrCompare(s, Upper(s)) == (if Upper(s) == s then 0 else 1)
  {
    UpperIdempotent(s);
  }

  /**
   * The number of distinct ReplayGain names tags_present_* wants: 2 in
   * track mode, 4 in track mode with extra tags ('e') or in album mode,
   * 7 in album mode with extra tags.
   */
  function ExpectedCount(doAlbum: bool, mode: char): nat
  {
    var extended := mode == 'e';
    if !doAlbum && !extended then 2
    else if !doAlbum && extended then 4
    else if doAlbum && !extended then 4
    else 7
  }

  /** The distinct upper-cased keys that are among the names, as collected into rgtags. */
  function PresentNames(keys: set<string>, names: set<string>): set<string>
  {
    set k | k in keys && Upper(k) in names :: Upper(k)
  }

  /** The tags every tag_write_* (except Opus) writes for the album flag and the tag mode. */
  function WrittenTags(doAlbum: bool, mode: char): set<RgTag>
  {
    {TrackGain, TrackPeak}
      + (if doAlbum then {AlbumGain, AlbumPeak} else {})
      + (if mode == 'e' || mode == 'l' then
           {ReferenceLoudness, TrackRange} + (if doAlbum then {AlbumRange} else {})
         else {})
  }

  /** The tags a writer removes instead of writing. */
  function RemovedTags(doAlbum: bool, mode: char): set<RgTag>
  {
    (if doAlbum then {} else AlbumTags)
      + (if mode == 'e' || mode == 'l' then {} else ExtraTags)
  }

  /** Written and removed tags split the seven tags between them. */
  lemma WrittenOrRemoved(doAlbum: bool, mode: char, t: RgTag)
    ensures t in WrittenTags(doAlbum, mode) <==> t !in RemovedTags(doAlbum, mode)
  {
  }

  /** Distinct tags give distinct names, so a set of tags has as many names as members. */
  lemma {:induction false} UpperNamesCount(ts: set<RgTag>)
    ensures |UpperNames(ts)| == |ts|
    decreases |ts|
  {
    if ts != {} {
      var t :| t in ts;
      var rest := ts - {t};
      UpperNamesCount(rest);
      assert UpperNames(ts) == UpperNames(rest) + {UpperName(t)};
      forall u | u in rest
        ensures UpperName(u) != UpperName(t)
      {
        NameTables(u, t, false);
      }
    }
  }

  // The size of each of the four written sets.
  lemma TrackWrittenCount()
    ensures |WrittenTags(false, 'i')| == 2
  {
    assert WrittenTags(false, 'i') == {TrackGain, TrackPeak};
  }

  lemma TrackExtraWrittenCount(mode: char)
    requires mode == 'e' || mode == 'l'
    ensures |WrittenTags(false, mode)| == 4
  {
    assert |{TrackGain, TrackPeak} + {ReferenceLoudness, TrackRange}| == 4;
    assert WrittenTags(false, mode) == {TrackGain, TrackPeak} + {ReferenceLoudness, TrackRange};
  }

  lemma AlbumWrittenCount()
    ensures |WrittenTags(true, 'i')| == 4
  {
    assert WrittenTags(true, 'i') == {TrackGain, TrackPeak, AlbumGain, AlbumPeak};
  }

  lemma AlbumExtraWrittenCount(mode: char)
    requires mode == 'e' || mode == 'l'
    ensures |WrittenTags(true, mode)| == 7
  {
    var plain := {TrackGain, TrackPeak, AlbumGain, AlbumPeak};
    var extra := {ReferenceLoudness, TrackRange, AlbumRange};
    assert |plain| == 4 && |extra| == 3 && plain * extra == {};
    assert WrittenTags(true, mode) == plain + extra;
  }

  /** Without 'e' or 'l' every mode writes what 'i' writes. */
  lemma PlainModesAlike(doAlbum: bool, mode: char)
    requires mode != 'e' && mode != 'l'
    ensures WrittenTags(doAlbum, mode) == WrittenTags(doAlbum, 'i')
  {
  }

  /** Two tags for the track, two more for the album, and two or three extra ones. */
  lemma WrittenCount(doAlbum: bool, mode: char)
    ensures |WrittenTags(doAlbum, mode)|
      == (if doAlbum then 4 else 2) + (if mode == 'e' || mode == 'l' then (if doAlbum then 3 else 2) else 0)
  {
    if mode == 'e' || mode == 'l' {
      if doAlbum { AlbumExtraWrittenCount(mode); } else { TrackExtraWrittenCount(mode); }
    } else {
      PlainModesAlike(doAlbum, mode);
      if doAlbum { AlbumWrittenCount(); } else { TrackWrittenCount(); }
    }
  }

  /**
   * For the tag modes that write ('i' and 'e'), the presence rule asks for
   * exactly as many names as the writers write; for 'l', which writes the
   * extra tags but does not count them, it asks for fewer.
   */
  lemma ExpectedMatchesWritten(doAlbum: bool, mode: char)
    ensures mode != 'l' ==> ExpectedCount(doAlbum, mode) == |WrittenTags(doAlbum, mode)|
    ensures mode == 'l' ==> ExpectedCount(doAlbum, mode) < |WrittenTags(doAlbum, mode)|
  {
    WrittenCount(doAlbum, mode);
  }

  /** The prefix under which MP4 files keep ReplayGain items. */
  const RgAtom: string := "----:com.apple.iTunes:"

  /** tagname: the MP4 item key of a ReplayGain name. */
  function TagName(key: string): string
  {
    RgAtom + key
  }

  /** The upper-cased prefixed names the MP4 functions compare against. */
  function Mp4Names(ts: set<RgTag>): set<string>
  {
    set t | t in ts :: Upper(TagName(UpperName(t)))
  }

  /** An MP4 key upper-cases to the upper-cased prefix followed by the upper-case name. */
  lemma Mp4NameOf(t: RgTag, lowercase: bool)
    ensures Upper(TagName(Name(t, lowercase))) == Upper(RgAtom) + UpperName(t)
    ensures Upper(TagName(Name(t, lowercase))) == Upper(TagName(UpperName(t)))
  {
    NameTables(t, t, lowercase);
    UpperConcat(RgAtom, Name(t, lowercase));
    UpperConcat(RgAtom, UpperName(t));
  }

  /** Distinct tags have distinct MP4 keys, whatever their case. */
  lemma Mp4NamesDistinct(t: RgTag, u: RgTag, l1: bool, l2: bool)
    ensures Upper(TagName(Name(t, l1))) == Upper(TagName(Name(u, l2))) <==> t == u
  {
    Mp4NameOf(t, l1);
    Mp4NameOf(u, l2);
    var p := Upper(RgAtom);
    if p + UpperName(t) == p + UpperName(u) {
      assert UpperName(t) == (p + UpperName(t))[|p|..];
      assert UpperName(u) == (p + UpperName(u))[|p|..];
      NameTables(t, u, false);
    }
  }

  /** av_container_names, indexed by AV_CONTAINER_ID. */
  const ContainerNames: seq<string> :=
    ["mp3", "flac", "ogg", "mov,mp4,m4a,3gp,3g2,mj2", "asf", "wav", "wv", "aiff", "ape"]

  const ContainerMp3: int := 0
  const ContainerFlac: int := 1
  const ContainerOgg: int := 2
  const ContainerMp4: int := 3
  const ContainerAsf: int := 4
  const ContainerWav: int := 5
  const ContainerWv: int := 6
  const ContainerAiff: int := 7
  const ContainerApe: int := 8

  /** The first table index from i on whose entry contains s, or -1. */
  function FirstContaining(s: string, i: nat): int
    requires i <= |ContainerNames|
    decreases |ContainerNames| - i
  {
    if i == |ContainerNames| then -1
    else if ContainsSubstring(ContainerNames[i], s) then i
    else FirstContaining(s, i + 1)
  }

  /** avContainerNameToId: -1 for the empty name, else the first entry containing it. */
  function ContainerId(s: string): int
  {
    if |s| == 0 then -1 else FirstContaining(s, 0)
  }

  lemma {:induction false} FirstContainingSpec(s: string, i: nat)
    requires i <= |ContainerNames|
    ensures var r := FirstContaining(s, i);
      (r == -1 || i <= r < |ContainerNames|)
      && (r != -1 ==> ContainsSubstring(ContainerNames[r], s))
      && forall j :: i <= j < |ContainerNames| && (r == -1 || j < r) ==> !ContainsSubstring(ContainerNames[j], s)
    decreases |ContainerNames| - i
  {
    if i < |ContainerNames| && !ContainsSubstring(ContainerNames[i], s) {
      FirstContainingSpec(s, i + 1);
    }
  }

  /**
   * The lookup yields -1 or a table index; an index names the first entry
   * that contains the name, and -1 means the name is empty or no entry
   * contains it.
   */
  lemma ContainerIdSpec(s: string)
    ensures var r := ContainerId(s);
      (r == -1 || 0 <= r < |ContainerNames|)
      && (r != -1 ==>
            ContainsSubstring(ContainerNames[r], s)
            && forall j :: 0 <= j < r ==> !ContainsSubstring(ContainerNames[j], s))
      && (r == -1 <==> |s| == 0 || forall j :: 0 <= j < |ContainerNames| ==> !ContainsSubstring(ContainerNames[j], s))
  {
    if |s| > 0 {
      FirstContainingSpec(s, 0);
    }
  }

  /** None of the first three entries holds a name of the MP4 family. */
  lemma NotBeforeMp4(s: string)
    requires s in ["mov", "mp4", "m4a", "3gp", "3g2", "mj2", "mov,mp4,m4a,3gp,3g2,mj2"]
    ensures forall i :: 0 <= i < ContainerMp4 ==> !ContainsSubstring(ContainerNames[i], s)
  {
    // A character of s each of "mp3", "flac" and "ogg" lacks.
    MissingChar("mp3", s, if s == "mp4" then 2 else 1);
    MissingChar("flac", s, 0);
    MissingChar("ogg", s, 0);
  }

  /** Every FFmpeg name of the MP4 family resolves to the MP4 backend. */
  lemma Mp4Family(s: string)
    requires s in ["mov", "mp4", "m4a", "3gp", "3g2", "mj2", "mov,mp4,m4a,3gp,3g2,mj2"]
    ensures ContainerId(s) == ContainerMp4
  {
    NotBeforeMp4(s);
    InMp4Entry(s);
    ResolvesTo(s, ContainerMp4);
  }

  /** The MP4 entry holds each name of the family. */
  lemma InMp4Entry(s: string)
    requires s in ["mov", "mp4", "m4a", "3gp", "3g2", "mj2", "mov,mp4,m4a,3gp,3g2,mj2"]
    ensures ContainsSubstring(ContainerNames[ContainerMp4], s)
  {
    var mp4 := ContainerNames[ContainerMp4];
    if s == "mov" { Mp4HoldsMov(); }
    else if s == "mp4" { Mp4HoldsMp4(); }
    else if s == "m4a" { Mp4HoldsM4a(); }
    else if s == "3gp" { Mp4Holds3gp(); }
    else if s == "3g2" { Mp4Holds3g2(); }
    else if s == "mj2" { Mp4HoldsMj2(); }
    else { ContainsAt(mp4, mp4, 0); }
  }

  lemma Mp4HoldsMov() ensures ContainsSubstring(ContainerNames[ContainerMp4], "mov") { ContainsAt(ContainerNames[ContainerMp4], "mov", 0); }
  lemma Mp4HoldsMp4() ensures ContainsSubstring(ContainerNames[ContainerMp4], "mp4") { ContainsAt(ContainerNames[ContainerMp4], "mp4", 4); }
  lemma Mp4HoldsM4a() ensures ContainsSubstring(ContainerNames[ContainerMp4], "m4a") { ContainsAt(ContainerNames[ContainerMp4], "m4a", 8); }
  lemma Mp4Holds3gp() ensures ContainsSubstring(ContainerNames[ContainerMp4], "3gp") { ContainsAt(ContainerNames[ContainerMp4], "3gp", 12); }
  lemma Mp4Holds3g2() ensures ContainsSubstring(ContainerNames[ContainerMp4], "3g2") { ContainsAt(ContainerNames[ContainerMp4], "3g2", 16); }
  lemma Mp4HoldsMj2() ensures ContainsSubstring(ContainerNames[ContainerMp4], "mj2") { ContainsAt(ContainerNames[ContainerMp4], "mj2", 20); }

  /** A name held by entry k and by no earlier entry resolves to k. */
  lemma ResolvesTo(s: string, k: int)
    requires |s| > 0
    requires 0 <= k < |ContainerNames| && ContainsSubstring(ContainerNames[k], s)
    requires forall j :: 0 <= j < k ==> !ContainsSubstring(ContainerNames[j], s)
    ensures ContainerId(s) == k
  {
    ContainerIdSpec(s);
  }

  /** The MP3 entry's own name resolves to it. */
  lemma Mp3Name()
    ensures ContainerId("mp3") == ContainerMp3
  {
    ContainsAt(ContainerNames[0], "mp3", 0);
    ResolvesTo("mp3", ContainerMp3);
  }

  /** "flac" resolves to its own entry. */
  lemma FlacName()
    ensures ContainerId("flac") == ContainerFlac
  {
    MissingChar(ContainerNames[0], "flac", 0);
    ContainsAt(ContainerNames[1], "flac", 0);
    ResolvesTo("flac", ContainerFlac);
  }

  /** "ogg" resolves to its own entry. */
  lemma OggName()
    ensures ContainerId("ogg") == ContainerOgg
  {
    MissingChar(ContainerNames[0], "ogg", 0);
    MissingChar(ContainerNames[1], "ogg", 0);
    ContainsAt(ContainerNames[2], "ogg", 0);
    ResolvesTo("ogg", ContainerOgg);
  }

  /** "asf" resolves to its own entry. */
  lemma AsfName()
    ensures ContainerId("asf") == ContainerAsf
  {
    MissingChar(ContainerNames[0], "asf", 0);
    MissingChar(ContainerNames[1], "asf", 1);
    MissingChar(ContainerNames[2], "asf", 0);
    MissingChar(ContainerNames[3], "asf", 1);
    ContainsAt(ContainerNames[4], "asf", 0);
    ResolvesTo("asf", ContainerAsf);
  }

  /** "wav" resolves to its own entry. */
  lemma WavName()
    ensures ContainerId("wav") == ContainerWav
  {
    MissingChar(ContainerNames[0], "wav", 0);
    MissingChar(ContainerNames[1], "wav", 0);
    MissingChar(ContainerNames[2], "wav", 0);
    MissingChar(ContainerNames[3], "wav", 0);
    MissingChar(ContainerNames[4], "wav", 0);
    ContainsAt(ContainerNames[5], "wav", 0);
    ResolvesTo("wav", ContainerWav);
  }

  /** "wv" is not found inside "wav", so it reaches its own entry. */
  lemma WavPackName()
    ensures ContainerId("wv") == ContainerWv
  {
    MissingChar(ContainerNames[0], "wv", 0);
    MissingChar(ContainerNames[1], "wv", 0);
    MissingChar(ContainerNames[2], "wv", 0);
    MissingChar(ContainerNames[3], "wv", 0);
    MissingChar(ContainerNames[4], "wv", 0);
    var wav := ContainerNames[5];
    forall i | 0 <= i <= 1
      ensures !OccursAt(wav, "wv", i)
    {
      assert wav[i..i + 2][0] == wav[i] && wav[i..i + 2][1] == wav[i + 1];
    }
    ContainsAt(ContainerNames[6], "wv", 0);
    ResolvesTo("wv", ContainerWv);
  }

  /** "aiff" resolves to its own entry. */
  lemma AiffName()
    ensures ContainerId("aiff") == ContainerAiff
  {
    MissingChar(ContainerNames[0], "aiff", 0);
    MissingChar(ContainerNames[1], "aiff", 1);
    MissingChar(ContainerNames[2], "aiff", 0);
    MissingChar(ContainerNames[3], "aiff", 1);
    MissingChar(ContainerNames[4], "aiff", 1);
    MissingChar(ContainerNames[5], "aiff", 1);
    MissingChar(ContainerNames[6], "aiff", 0);
    ContainsAt(ContainerNames[7], "aiff", 0);
    ResolvesTo("aiff", ContainerAiff);
  }

  /** "ape" resolves to its own entry. */
  lemma ApeName()
    ensures ContainerId("ape") == ContainerApe
  {
    MissingChar(ContainerNames[0], "ape", 0);
    MissingChar(ContainerNames[1], "ape", 1);
    MissingChar(ContainerNames[2], "ape", 0);
    MissingChar(ContainerNames[3], "ape", 2);
    MissingChar(ContainerNames[4], "ape", 1);
    MissingChar(ContainerNames[5], "ape", 1);
    MissingChar(ContainerNames[6], "ape", 0);
    MissingChar(ContainerNames[7], "ape", 1);
    ContainsAt(ContainerNames[8], "ape", 0);
    ResolvesTo("ape", ContainerApe);
  }

  /** The lookup is by substring: a fragment resolves to the first entry holding it. */
  lemma FragmentsResolve()
    ensures ContainerId("") == -1
    ensures ContainerId("mp") == ContainerMp3
    ensures ContainerId("a") == ContainerFlac
  {
    ContainsAt(ContainerNames[0], "mp", 0);
    ResolvesTo("mp", ContainerMp3);
    MissingChar(ContainerNames[0], "a", 0);
    ContainsAt(ContainerNames[1], "a", 2);
    ResolvesTo("a", ContainerFlac);
  }

  /** C's round(): to the nearest integer, halves away from zero. */
  function Round(x: real): int
  {
    if x >= 0.0 then (x + 0.5).Floor else -((-x + 0.5).Floor)
  }

  /** Rounding moves a value by at most one half, keeps integers, and is odd. */
  lemma RoundLaws(x: real, q: int)
    ensures -0.5 <= Round(x) as real - x <= 0.5
    ensures Round(q as real) == q
    ensures Round(-x) == -Round(x)
  {
  }

  /** gain_to_q78num: a gain in dB as a count of 1/256 dB. */
  function Q78(gain: real): int
  {
    Round(gain * 256.0)
  }

  /**
   * The Q7.8 value of section 5.2.1 of RFC 7845 stands for the gain to
   * within 1/512 dB, a gain that is a whole number of 1/256 dB is stored
   * exactly, and a negated gain gives the negated number.
   */
  lemma Q78Laws(gain: real, q: int)
    ensures -1.0 / 512.0 <= Q78(gain) as real / 256.0 - gain <= 1.0 / 512.0
    ensures Q78(q as real / 256.0) == q
    ensures Q78(-gain) == -Q78(gain)
  {
    RoundLaws(gain * 256.0, q);
    RoundLaws(-gain * 256.0, q);
    assert q as real / 256.0 * 256.0 == q as real;
  }
}
