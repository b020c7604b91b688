// ReplayGain maintenance of an ID3v2 tag's TXXX (user text) frames, as the
// MP3, WAV and AIFF writers do it. A frame is its field list: the
// description, then the text values. Other frame kinds are not modelled.
module Id3 {
  import opened Common
  import opened TagKeys
  import opened TagStore

  /** A TXXX frame's field list: description first, then the texts. */
  type Frame = seq<string>

  /** Only frames with a description and at least one text are looked at. */
  predicate Counted(f: Frame)
  {
    |f| >= 2
  }

  predicate MatchesKey(f: Frame, key: string)
  {
    Counted(f) && Upper(f[0]) == Upper(key)
  }

  predicate AnyMatch(fs: seq<Frame>, key: string)
  {
    exists i :: 0 <= i < |fs| && MatchesKey(fs[i], key)
  }

  /**
   * tag_update_txxx: every counted frame whose description matches key in
   * any case becomes [key, value]; one [key, value] frame is appended when
   * none matched.
   */
  function TxxxUpdated(fs: seq<Frame>, key: string, value: string): seq<Frame>
  {
    seq(|fs|, i requires 0 <= i < |fs| => if MatchesKey(fs[i], key) then [key, value] else fs[i])
      + (if AnyMatch(fs, key) then [] else [[key, value]])
  }

  /** The in-place part of tag_update_txxx: every matching frame becomes [key, value]. */
  function TxxxRewritten(fs: seq<Frame>, key: string, value: string): seq<Frame>
  {
    seq(|fs|, i requires 0 <= i < |fs| => if MatchesKey(fs[i], key) then [key, value] else fs[i])
  }

  /** Whether one of the first n frames matches key. */
  predicate MatchBefore(fs: seq<Frame>, key: string, n: nat)
    requires n <= |fs|
  {
    n > 0 && (MatchBefore(fs, key, n - 1) || MatchesKey(fs[n - 1], key))
  }

  /** Whether one of the first n frames matches key and is not [key, value] already. */
  predicate StaleBefore(fs: seq<Frame>, key: string, value: string, n: nat)
    requires n <= |fs|
  {
    n > 0 && (StaleBefore(fs, key, value, n - 1) || (MatchesKey(fs[n - 1], key) && fs[n - 1] != [key, value]))
  }

  lemma {:induction false} MatchBeforeAll(fs: seq<Frame>, key: string, value: string, n: nat)
    requires n <= |fs|
    ensures MatchBefore(fs, key, n) <==> exists j :: 0 <= j < n && MatchesKey(fs[j], key)
    ensures StaleBefore(fs, key, value, n) <==> exists j :: 0 <= j < n && MatchesKey(fs[j], key) && fs[j] != [key, value]
  {
    if n > 0 {
      MatchBeforeAll(fs, key, value, n - 1);
    }
  }

  /** What tag_update_txxx returns. */
  predicate TxxxChanges(fs: seq<Frame>, key: string, value: string)
  {
    !AnyMatch(fs, key) || exists i :: 0 <= i < |fs| && MatchesKey(fs[i], key) && fs[i] != [key, value]
  }

  /**
   * The update rewrites matching frames in place, keeps every other frame at
   * its index, appends only when nothing matched, and afterwards some frame
   * matches.
   */
  lemma TxxxUpdatedSound(fs: seq<Frame>, key: string, value: string)
    ensures var r := TxxxUpdated(fs, key, value);
      |r| == |fs| + (if AnyMatch(fs, key) then 0 else 1)
      && (forall i :: 0 <= i < |fs| && MatchesKey(fs[i], key) ==> r[i] == [key, value])
      && (forall i :: 0 <= i < |fs| && !MatchesKey(fs[i], key) ==> r[i] == fs[i])
      && (!AnyMatch(fs, key) ==> r[|fs|] == [key, value])
      && AnyMatch(r, key)
  {
    var r := TxxxUpdated(fs, key, value);
    assert MatchesKey([key, value], key);
    if AnyMatch(fs, key) {
      var i :| 0 <= i < |fs| && MatchesKey(fs[i], key);
      assert MatchesKey(r[i], key);
    } else {
      assert MatchesKey(r[|fs|], key);
    }
  }

  /** The update reports a change exactly when the frame list is not already in its final form. */
  lemma TxxxChangesIff(fs: seq<Frame>, key: string, value: string)
    ensures !TxxxChanges(fs, key, value) <==> TxxxUpdated(fs, key, value) == fs
  {
    var r := TxxxUpdated(fs, key, value);
    TxxxUpdatedSound(fs, key, value);
    if !TxxxChanges(fs, key, value) {
      assert forall i :: 0 <= i < |fs| ==> r[i] == fs[i];
    }
    if r == fs && AnyMatch(fs, key) {
      forall i | 0 <= i < |fs| && MatchesKey(fs[i], key)
        ensures fs[i] == [key, value]
      {
        assert r[i] == [key, value];
      }
    }
  }

  /** Updating twice with the same value changes nothing the second time. */
  lemma TxxxIdempotent(fs: seq<Frame>, key: string, value: string)
    ensures !TxxxChanges(TxxxUpdated(fs, key, value), key, value)
    ensures TxxxUpdated(TxxxUpdated(fs, key, value), key, value) == TxxxUpdated(fs, key, value)
  {
    var r := TxxxUpdated(fs, key, value);
    TxxxUpdatedSound(fs, key, value);
    forall i | 0 <= i < |r| && MatchesKey(r[i], key)
      ensures r[i] == [key, value]
    {
    }
    TxxxChangesIff(r, key, value);
  }

  /** A counted frame whose upper-cased description is one of the names. */
  predicate Doomed(f: Frame, names: set<string>)
  {
    Counted(f) && Upper(f[0]) in names
  }

  /** The frames tag_remove_*_id3v2 keep, in their order. */
  function Kept(fs: seq<Frame>, names: set<string>): seq<Frame>
    decreases |fs|
  {
    if |fs| == 0 then []
    else Kept(fs[..|fs| - 1], names) + (if Doomed(fs[|fs| - 1], names) then [] else [fs[|fs| - 1]])
  }

  /** A removal keeps exactly the frames that are not doomed, and keeps all of them only when none was. */
  lemma KeptSound(fs: seq<Frame>, names: set<string>)
    ensures forall f :: f in Kept(fs, names) <==> f in fs && !Doomed(f, names)
    ensures |Kept(fs, names)| <= |fs|
    ensures Kept(fs, names) == fs <==> forall i :: 0 <= i < |fs| ==> !Doomed(fs[i], names)
  {
    KeptMembers(fs, names);
    if forall i :: 0 <= i < |fs| ==> !Doomed(fs[i], names) {
      KeptNone(fs, names);
    }
  }

  /** One frame more at the end: it is kept unless doomed. */
  lemma KeptSnoc(init: seq<Frame>, last: Frame, names: set<string>)
    ensures Kept(init + [last], names) == Kept(init, names) + (if Doomed(last, names) then [] else [last])
  {
    assert (init + [last])[..|init|] == init;
  }

  lemma {:induction false} KeptMembers(fs: seq<Frame>, names: set<string>)
    ensures forall f :: f in Kept(fs, names) <==> f in fs && !Doomed(f, names)
    ensures |Kept(fs, names)| <= |fs|
    decreases |fs|
  {
    if |fs| > 0 {
      var init, last := fs[..|fs| - 1], fs[|fs| - 1];
      assert fs == init + [last];
      KeptMembers(init, names);
      KeptSnoc(init, last, names);
    }
  }

  lemma {:induction false} KeptNone(fs: seq<Frame>, names: set<string>)
    requires forall i :: 0 <= i < |fs| ==> !Doomed(fs[i], names)
    ensures Kept(fs, names) == fs
    decreases |fs|
  {
    if |fs| > 0 {
      var init, last := fs[..|fs| - 1], fs[|fs| - 1];
      assert fs == init + [last];
      assert forall i :: 0 <= i < |init| ==> init[i] == fs[i];
      KeptNone(init, names);
      KeptSnoc(init, last, names);
    }
  }

  /** Removing twice removes nothing more. */
  lemma KeptIdempotent(fs: seq<Frame>, names: set<string>)
    ensures Kept(Kept(fs, names), names) == Kept(fs, names)
  {
    KeptSound(fs, names);
    KeptSound(Kept(fs, names), names);
  }

  // ---- The ID3 writers in terms of name regions ----

  /** The counted frames whose description upper-cases to u. */
  function Region(fs: seq<Frame>, u: string): set<Frame>
  {
    set f | f in fs && Counted(f) && Upper(f[0]) == u
  }

  /** The frames no ReplayGain removal or update looks at. */
  function OtherFrames(fs: seq<Frame>): set<Frame>
  {
    set f | f in fs && !Doomed(f, RgNames)
  }

  /** The update fixes the key's region to the single frame [key, value] and leaves every other region alone. */
  lemma TxxxRegion(fs: seq<Frame>, key: string, value: string, u: string)
    ensures u == Upper(key) ==> Region(TxxxUpdated(fs, key, value), u) == {[key, value]}
    ensures u != Upper(key) ==> Region(TxxxUpdated(fs, key, value), u) == Region(fs, u)
  {
    var r := TxxxUpdated(fs, key, value);
    TxxxUpdatedSound(fs, key, value);
    assert |[key, value]| == 2;
    forall f | f in r
      ensures f in fs || f == [key, value]
    {
      var i :| 0 <= i < |r| && r[i] == f;
    }
    if u != Upper(key) {
      forall f | f in fs && Counted(f) && Upper(f[0]) == u
        ensures f in r
      {
        var i :| 0 <= i < |fs| && fs[i] == f;
        assert r[i] == f;
      }
      forall f | f in r && Counted(f) && Upper(f[0]) == u
        ensures f in fs
      {
        var i :| 0 <= i < |r| && r[i] == f;
      }
    } else {
      forall f | f in r && Counted(f) && Upper(f[0]) == u
        ensures f == [key, value]
      {
        var i :| 0 <= i < |r| && r[i] == f;
      }
      var i :| 0 <= i < |r| && MatchesKey(r[i], key);
      assert r[i] in Region(r, u);
    }
  }

  lemma TxxxOthers(fs: seq<Frame>, key: string, value: string)
    requires Upper(key) in RgNames
    ensures OtherFrames(TxxxUpdated(fs, key, value)) == OtherFrames(fs)
  {
    var r := TxxxUpdated(fs, key, value);
    TxxxUpdatedSound(fs, key, value);
    forall f | f in r && !Doomed(f, RgNames)
      ensures f in fs
    {
      var i :| 0 <= i < |r| && r[i] == f;
    }
    forall f | f in fs && !Doomed(f, RgNames)
      ensures f in r
    {
      var i :| 0 <= i < |fs| && fs[i] == f;
      assert r[i] == f;
    }
  }

  lemma KeptRegion(fs: seq<Frame>, names: set<string>, u: string)
    ensures u in names ==> Region(Kept(fs, names), u) == {}
    ensures u !in names ==> Region(Kept(fs, names), u) == Region(fs, u)
    ensures names <= RgNames ==> OtherFrames(Kept(fs, names)) == OtherFrames(fs)
  {
    KeptSound(fs, names);
  }

  function Id3StepResult(lowercase: bool, fs: seq<Frame>, s: Step, values: RgTag -> string): seq<Frame>
  {
    match s
    case Write(t) => TxxxUpdated(fs, Name(t, lowercase), values(t))
    case RemoveAlbum => Kept(fs, UpperNames(AlbumTags))
    case RemoveExtra => Kept(fs, UpperNames(ExtraTags))
  }

  predicate Id3StepChanges(lowercase: bool, fs: seq<Frame>, s: Step, values: RgTag -> string)
  {
    match s
    case Write(t) => TxxxChanges(fs, Name(t, lowercase), values(t))
    case RemoveAlbum => exists i :: 0 <= i < |fs| && Doomed(fs[i], UpperNames(AlbumTags))
    case RemoveExtra => exists i :: 0 <= i < |fs| && Doomed(fs[i], UpperNames(ExtraTags))
  }

  /** The frame list after the steps, in order. */
  function Id3Applied(lowercase: bool, fs: seq<Frame>, steps: seq<Step>, values: RgTag -> string): seq<Frame>
    decreases |steps|
  {
    if |steps| == 0 then fs
    else Id3StepResult(lowercase, Id3Applied(lowercase, fs, steps[..|steps| - 1], values), steps[|steps| - 1], values)
  }

  /** Whether some step reported a change: the OR into save. */
  predicate Id3AnyChange(lowercase: bool, fs: seq<Frame>, steps: seq<Step>, values: RgTag -> string)
    decreases |steps|
  {
    if |steps| == 0 then false
    else
      Id3AnyChange(lowercase, fs, steps[..|steps| - 1], values)
      || Id3StepChanges(lowercase, Id3Applied(lowercase, fs, steps[..|steps| - 1], values), steps[|steps| - 1], values)
  }

  lemma Id3AppliedSnoc(lowercase: bool, fs: seq<Frame>, steps: seq<Step>, s: Step, values: RgTag -> string)
    ensures Id3Applied(lowercase, fs, steps + [s], values)
      == Id3StepResult(lowercase, Id3Applied(lowercase, fs, steps, values), s, values)
    ensures Id3AnyChange(lowercase, fs, steps + [s], values)
      == (Id3AnyChange(lowercase, fs, steps, values)
          || Id3StepChanges(lowercase, Id3Applied(lowercase, fs, steps, values), s, values))
  {
    assert (steps + [s])[..|steps|] == steps;
  }

  /** Step by step: a step sets or clears the regions of its tags and leaves the others and the unrelated frames. */
  lemma Id3StepRegion(lowercase: bool, fs: seq<Frame>, s: Step, values: RgTag -> string, t: RgTag)
    ensures var r := Id3StepResult(lowercase, fs, s, values);
      (t !in StepTags(s) ==> Region(r, UpperName(t)) == Region(fs, UpperName(t)))
      && (s == Write(t) ==> Region(r, UpperName(t)) == {[Name(t, lowercase), values(t)]})
      && (!s.Write? && t in StepTags(s) ==> Region(r, UpperName(t)) == {})
      && OtherFrames(r) == OtherFrames(fs)
  {
    match s {
      case Write(w) =>
        NameTables(w, t, lowercase);
        TxxxRegion(fs, Name(w, lowercase), values(w), UpperName(t));
        TxxxOthers(fs, Name(w, lowercase), values(w));
      case RemoveAlbum =>
        NameTables(t, t, false);
        KeptRegion(fs, UpperNames(AlbumTags), UpperName(t));
        OutsideUpperNames(t, AlbumTags);
      case RemoveExtra =>
        NameTables(t, t, false);
        KeptRegion(fs, UpperNames(ExtraTags), UpperName(t));
        OutsideUpperNames(t, ExtraTags);
    }
  }

  lemma OutsideUpperNames(t: RgTag, ts: set<RgTag>)
    ensures t !in ts ==> UpperName(t) !in UpperNames(ts)
    ensures UpperNames(ts) <= RgNames
  {
    forall u | u in ts
      ensures UpperName(u) != UpperName(t) || t in ts
    {
      NameTables(u, t, false);
    }
  }

  /** A run of steps that never acts on t leaves t's region as it was. */
  lemma {:induction false} Id3AppliedKeeps(lowercase: bool, fs: seq<Frame>, steps: seq<Step>,
                                           values: RgTag -> string, t: RgTag)
    requires forall i :: 0 <= i < |steps| ==> t !in StepTags(steps[i])
    ensures Region(Id3Applied(lowercase, fs, steps, values), UpperName(t)) == Region(fs, UpperName(t))
    decreases |steps|
  {
    if |steps| > 0 {
      Id3AppliedKeeps(lowercase, fs, steps[..|steps| - 1], values, t);
      Id3StepRegion(lowercase, Id3Applied(lowercase, fs, steps[..|steps| - 1], values), steps[|steps| - 1], values, t);
    }
  }

  /** No step touches the frames outside the ReplayGain names. */
  lemma {:induction false} Id3AppliedOthers(lowercase: bool, fs: seq<Frame>, steps: seq<Step>, values: RgTag -> string)
    ensures OtherFrames(Id3Applied(lowercase, fs, steps, values)) == OtherFrames(fs)
    decreases |steps|
  {
    if |steps| > 0 {
      Id3AppliedOthers(lowercase, fs, steps[..|steps| - 1], values);
      Id3StepRegion(lowercase, Id3Applied(lowercase, fs, steps[..|steps| - 1], values), steps[|steps| - 1], values, TrackGain);
    }
  }

  lemma {:induction false} Id3AppliedAppend(lowercase: bool, fs: seq<Frame>, xs: seq<Step>, ys: seq<Step>,
                                            values: RgTag -> string)
    ensures Id3Applied(lowercase, fs, xs + ys, values)
      == Id3Applied(lowercase, Id3Applied(lowercase, fs, xs, values), ys, values)
    decreases |ys|
  {
    if |ys| == 0 {
      assert xs + ys == xs;
    } else {
      var ys' := ys[..|ys| - 1];
      var y := ys[|ys| - 1];
      assert ys == ys' + [y];
      assert xs + ys == (xs + ys') + [y];
      Id3AppliedAppend(lowercase, fs, xs, ys', values);
      Id3AppliedSnoc(lowercase, fs, xs + ys', y, values);
      Id3AppliedSnoc(lowercase, Id3Applied(lowercase, fs, xs, values), ys', y, values);
    }
  }

  /** The region of t after the steps is the one its last step left. */
  lemma Id3LastTouch(lowercase: bool, fs: seq<Frame>, steps: seq<Step>, values: RgTag -> string, t: RgTag, i: int)
    requires LastTouch(steps, t, i)
    ensures var r := Id3Applied(lowercase, fs, steps, values);
      (steps[i] == Write(t) ==> Region(r, UpperName(t)) == {[Name(t, lowercase), values(t)]})
      && (!steps[i].Write? ==> Region(r, UpperName(t)) == {})
  {
    var pre, rest := steps[..i], steps[i + 1..];
    assert steps == (pre + [steps[i]]) + rest;
    forall j | 0 <= j < |rest|
      ensures t !in StepTags(rest[j])
    {
      assert rest[j] == steps[i + 1 + j];
    }
    Id3LastTouchParts(lowercase, fs, pre, steps[i], rest, values, t);
  }

  /** Id3LastTouch with the steps already split around the last one acting on t. */
  lemma Id3LastTouchParts(lowercase: bool, fs: seq<Frame>, pre: seq<Step>, s: Step, rest: seq<Step>,
                          values: RgTag -> string, t: RgTag)
    requires t in StepTags(s) && forall j :: 0 <= j < |rest| ==> t !in StepTags(rest[j])
    ensures var r := Id3Applied(lowercase, fs, (pre + [s]) + rest, values);
      (s == Write(t) ==> Region(r, UpperName(t)) == {[Name(t, lowercase), values(t)]})
      && (!s.Write? ==> Region(r, UpperName(t)) == {})
  {
    Id3AppliedAppend(lowercase, fs, pre + [s], rest, values);
    Id3AppliedSnoc(lowercase, fs, pre, s, values);
    Id3AppliedKeeps(lowercase, Id3Applied(lowercase, fs, pre + [s], values), rest, values, t);
    Id3StepRegion(lowercase, Id3Applied(lowercase, fs, pre, values), s, values, t);
  }

  /**
   * What the MP3, WAV and AIFF writers leave: for a written tag, every TXXX
   * frame of that name in any case is exactly [key, value] and there is one;
   * a removed tag has no frame left; every other frame stays.
   */
  lemma Id3WriterOutcome(lowercase: bool, fs: seq<Frame>, doAlbum: bool, mode: char, values: RgTag -> string, t: RgTag)
    ensures var r := Id3Applied(lowercase, fs, Plan(doAlbum, mode), values);
      (t in WrittenTags(doAlbum, mode) ==> Region(r, UpperName(t)) == {[Name(t, lowercase), values(t)]})
      && (t in RemovedTags(doAlbum, mode) ==> Region(r, UpperName(t)) == {})
      && OtherFrames(r) == OtherFrames(fs)
  {
    WrittenOrRemoved(doAlbum, mode, t);
    Id3AppliedOthers(lowercase, fs, Plan(doAlbum, mode), values);
    if t in WrittenTags(doAlbum, mode) {
      var i := PlanWritesLast(doAlbum, mode, t);
      Id3LastTouch(lowercase, fs, Plan(doAlbum, mode), values, t, i);
    } else {
      var i := PlanRemovesLast(doAlbum, mode, t);
      Id3LastTouch(lowercase, fs, Plan(doAlbum, mode), values, t, i);
    }
  }

  /** The descriptions of the counted frames, as tags_present_id3v2 sees them. */
  function Descriptions(fs: seq<Frame>): set<string>
  {
    set f | f in fs && Counted(f) :: f[0]
  }

  lemma PresentByRegion(fs: seq<Frame>, t: RgTag)
    ensures UpperName(t) in PresentNames(Descriptions(fs), RgNames) <==> Region(fs, UpperName(t)) != {}
  {
    NameTables(t, t, false);
    if Region(fs, UpperName(t)) != {} {
      var f :| f in Region(fs, UpperName(t));
      assert f[0] in Descriptions(fs);
    }
    if UpperName(t) in PresentNames(Descriptions(fs), RgNames) {
      var k :| k in Descriptions(fs) && Upper(k) == UpperName(t);
      var f :| f in fs && Counted(f) && f[0] == k;
      assert f in Region(fs, UpperName(t));
    }
  }

  /** Right after an ID3 writer the presence check finds exactly the written tags. */
  lemma Id3WritePresence(lowercase: bool, fs: seq<Frame>, doAlbum: bool, mode: char, values: RgTag -> string)
    ensures var r := Id3Applied(lowercase, fs, Plan(doAlbum, mode), values);
      PresentNames(Descriptions(r), RgNames) == UpperNames(WrittenTags(doAlbum, mode))
      && (mode != 'l' ==> |PresentNames(Descriptions(r), RgNames)| == ExpectedCount(doAlbum, mode))
  {
    var r := Id3Applied(lowercase, fs, Plan(doAlbum, mode), values);
    var w := WrittenTags(doAlbum, mode);
    forall n | n in PresentNames(Descriptions(r), RgNames)
      ensures n in UpperNames(w)
    {
      RgNamesOf(n);
      var t :| UpperName(t) == n;
      PresentByRegion(r, t);
      Id3WriterOutcome(lowercase, fs, doAlbum, mode, values, t);
      WrittenOrRemoved(doAlbum, mode, t);
    }
    forall t | t in w
      ensures UpperName(t) in PresentNames(Descriptions(r), RgNames)
    {
      PresentByRegion(r, t);
      Id3WriterOutcome(lowercase, fs, doAlbum, mode, values, t);
    }
    UpperNamesCount(w);
    ExpectedMatchesWritten(doAlbum, mode);
  }

  /** A frame list on which the writer has nothing left to do. */
  predicate Id3Settled(lowercase: bool, fs: seq<Frame>, doAlbum: bool, mode: char, values: RgTag -> string)
  {
    (forall t :: t in WrittenTags(doAlbum, mode) ==> Region(fs, UpperName(t)) == {[Name(t, lowercase), values(t)]})
    && (forall t :: t in RemovedTags(doAlbum, mode) ==> Region(fs, UpperName(t)) == {})
  }

  lemma Id3QuietStep(lowercase: bool, fs: seq<Frame>, s: Step, values: RgTag -> string)
    requires !Id3StepChanges(lowercase, fs, s, values)
    ensures Id3StepResult(lowercase, fs, s, values) == fs
  {
    match s {
      case Write(t) => TxxxChangesIff(fs, Name(t, lowercase), values(t));
      case RemoveAlbum => KeptSound(fs, UpperNames(AlbumTags));
      case RemoveExtra => KeptSound(fs, UpperNames(ExtraTags));
    }
  }

  lemma {:induction false} Id3QuietSteps(lowercase: bool, fs: seq<Frame>, steps: seq<Step>, values: RgTag -> string)
    requires !Id3AnyChange(lowercase, fs, steps, values)
    ensures Id3Applied(lowercase, fs, steps, values) == fs
    decreases |steps|
  {
    if |steps| > 0 {
      Id3QuietSteps(lowercase, fs, steps[..|steps| - 1], values);
      Id3QuietStep(lowercase, fs, steps[|steps| - 1], values);
    }
  }

  lemma Id3SettledWrite(lowercase: bool, fs: seq<Frame>, t: RgTag, value: string)
    requires Region(fs, UpperName(t)) == {[Name(t, lowercase), value]}
    ensures !TxxxChanges(fs, Name(t, lowercase), value)
  {
    var key := Name(t, lowercase);
    NameTables(t, t, lowercase);
    assert [key, value] in Region(fs, UpperName(t));
    var i :| 0 <= i < |fs| && fs[i] == [key, value];
    assert MatchesKey(fs[i], key);
    forall j | 0 <= j < |fs| && MatchesKey(fs[j], key)
      ensures fs[j] == [key, value]
    {
      assert fs[j] in Region(fs, UpperName(t));
    }
  }

  lemma Id3SettledRemoval(fs: seq<Frame>, ts: set<RgTag>)
    requires forall t :: t in ts ==> Region(fs, UpperName(t)) == {}
    ensures !exists i :: 0 <= i < |fs| && Doomed(fs[i], UpperNames(ts))
  {
    forall i | 0 <= i < |fs|
      ensures !Doomed(fs[i], UpperNames(ts))
    {
      forall t | t in ts && Counted(fs[i])
        ensures Upper(fs[i][0]) != UpperName(t)
      {
        assert fs[i] !in Region(fs, UpperName(t));
      }

    }
  }

  lemma Id3SettledStep(lowercase: bool, fs: seq<Frame>, s: Step, doAlbum: bool, mode: char, values: RgTag -> string)
    requires Id3Settled(lowercase, fs, doAlbum, mode, values) && Planned(s, doAlbum, mode)
    ensures !Id3StepChanges(lowercase, fs, s, values)
  {
    match s {
      case Write(t) => Id3SettledWrite(lowercase, fs, t, values(t));
      case RemoveAlbum => Id3SettledRemoval(fs, AlbumTags);
      case RemoveExtra => Id3SettledRemoval(fs, ExtraTags);
    }
  }

  lemma {:induction false} Id3SettledSteps(lowercase: bool, fs: seq<Frame>, steps: seq<Step>,
                                           doAlbum: bool, mode: char, values: RgTag -> string)
    requires Id3Settled(lowercase, fs, doAlbum, mode, values)
    requires forall i :: 0 <= i < |steps| ==> Planned(steps[i], doAlbum, mode)
    ensures !Id3AnyChange(lowercase, fs, steps, values)
    decreases |steps|
  {
    if |steps| > 0 {
      var init := steps[..|steps| - 1];
      Id3SettledSteps(lowercase, fs, init, doAlbum, mode, values);
      Id3QuietSteps(lowercase, fs, init, values);
      Id3SettledStep(lowercase, fs, steps[|steps| - 1], doAlbum, mode, values);
    }
  }

  lemma Id3WriterSettles(lowercase: bool, fs: seq<Frame>, doAlbum: bool, mode: char, values: RgTag -> string)
    ensures Id3Settled(lowercase, Id3Applied(lowercase, fs, Plan(doAlbum, mode), values), doAlbum, mode, values)
  {
    forall t | true
      ensures var r := Id3Applied(lowercase, fs, Plan(doAlbum, mode), values);
        (t in WrittenTags(doAlbum, mode) ==> Region(r, UpperName(t)) == {[Name(t, lowercase), values(t)]})
        && (t in RemovedTags(doAlbum, mode) ==> Region(r, UpperName(t)) == {})
    {
      Id3WriterOutcome(lowercase, fs, doAlbum, mode, values, t);
    }
  }

  /** An ID3 writer reports a change exactly when it leaves the frames different. */
  lemma Id3SaveIffChanged(lowercase: bool, fs: seq<Frame>, doAlbum: bool, mode: char, values: RgTag -> string)
    ensures Id3AnyChange(lowercase, fs, Plan(doAlbum, mode), values)
        <==> Id3Applied(lowercase, fs, Plan(doAlbum, mode), values) != fs
  {
    var p := Plan(doAlbum, mode);
    if !Id3AnyChange(lowercase, fs, p, values) {
      Id3QuietSteps(lowercase, fs, p, values);
    }
    if Id3Applied(lowercase, fs, p, values) == fs {
      Id3WriterSettles(lowercase, fs, doAlbum, mode, values);
      PlanPlanned(doAlbum, mode);
      Id3SettledSteps(lowercase, fs, p, doAlbum, mode, values);
    }
  }

  /** Writing the same values again leaves the frames as they are and saves nothing. */
  lemma Id3WriterIdempotent(lowercase: bool, fs: seq<Frame>, doAlbum: bool, mode: char, values: RgTag -> string)
    ensures var r := Id3Applied(lowercase, fs, Plan(doAlbum, mode), values);
      Id3Applied(lowercase, r, Plan(doAlbum, mode), values) == r
      && !Id3AnyChange(lowercase, r, Plan(doAlbum, mode), values)
  {
    var r := Id3Applied(lowercase, fs, Plan(doAlbum, mode), values);
    Id3WriterSettles(lowercase, fs, doAlbum, mode, values);
    PlanPlanned(doAlbum, mode);
    Id3SettledSteps(lowercase, r, Plan(doAlbum, mode), doAlbum, mode, values);
    Id3QuietSteps(lowercase, r, Plan(doAlbum, mode), values);
  }

  /** An ID3v2 tag's TXXX frame list. */
  class Id3Tag {
    var frames: seq<Frame>

    constructor(initial: seq<Frame>)
      ensures frames == initial
    {
      frames := initial;
    }

    /**
     * One frame of the tag_update_txxx loop: a counted frame whose
     * description matches key in letter case only is replaced by
     * [key, value]; one that matches exactly gets the value unless it
     * already has it.
     */
    static method UpdateFrame(f: Frame, key: string, value: string) returns (nf: Frame, matched: bool, changed: bool)
      ensures matched == MatchesKey(f, key)
      ensures changed <==> matched && f != [key, value]
      ensures changed ==> nf == [key, value]
    {
      nf, matched, changed := f, false, false;
      if |f| >= 2 {
        var cmp := StrCompare(f[0], key);
        if cmp >= 0 {
          matched := true;
        }
        if cmp == 1 {
          changed := true;
          nf := [key, value];
        } else if cmp == 0 && (|f| != 2 || f[1] != value) {
          changed := true;
          nf := [f[0], value];
        } else if cmp == 0 {
          assert f == [key, value];
        }
      }
    }

    /** tag_update_txxx: the frame loop, then the append when nothing matched. */
    method UpdateTxxx(key: string, value: string) returns (updated: bool)
      modifies this
      ensures frames == TxxxUpdated(old(frames), key, value)
      ensures updated == TxxxChanges(old(frames), key, value)
    {
      var found;
      found, updated := RewriteMatching(key, value);
      assert frames + [] == frames;
      if !found {
        updated := true;
        frames := frames + [[key, value]];
      }
    }

    /** The frame loop of tag_update_txxx. */
    method RewriteMatching(key: string, value: string) returns (found: bool, updated: bool)
      modifies this
      ensures frames == TxxxRewritten(old(frames), key, value)
      ensures found == AnyMatch(old(frames), key)
      ensures updated <==> exists j :: 0 <= j < |old(frames)| && MatchesKey(old(frames)[j], key) && old(frames)[j] != [key, value]
    {
      var fs := frames;
      found := false;
      updated := false;
      var i := 0;
      while i < |fs|
        invariant 0 <= i <= |fs| && |frames| == |fs|
        invariant forall j :: 0 <= j < |fs| ==>
          frames[j] == if j < i && MatchesKey(fs[j], key) then [key, value] else fs[j]
        invariant found == MatchBefore(fs, key, i)
        invariant updated == StaleBefore(fs, key, value, i)
      {
        var nf, matched, changed := UpdateFrame(fs[i], key, value);
        if matched {
          found := true;
        }
        if changed {
          updated := true;
          frames := frames[i := nf];
        }
        i := i + 1;
      }
      MatchBeforeAll(fs, key, value, |fs|);
    }

    /** tag_remove_album_id3v2 / tag_remove_extra_id3v2 / tag_remove_id3v2. */
    method RemoveMatching(names: set<string>) returns (rm: bool)
      modifies this
      ensures frames == Kept(old(frames), names)
      ensures rm <==> exists i :: 0 <= i < |old(frames)| && Doomed(old(frames)[i], names)
    {
      var fs := frames;
      var kept: seq<Frame> := [];
      rm := false;
      var i := 0;
      while i < |fs|
        invariant 0 <= i <= |fs|
        invariant kept == Kept(fs[..i], names)
        invariant rm <==> exists j :: 0 <= j < i && Doomed(fs[j], names)
      {
        assert fs[..i + 1][..i] == fs[..i];
        if |fs[i]| >= 2 && Upper(fs[i][0]) in names {
          rm := true;
        } else {
          kept := kept + [fs[i]];
        }
        i := i + 1;
      }
      assert fs[..i] == fs;
      frames := kept;
    }

    /** tags_present_id3v2. */
    method TagsPresent(doAlbum: bool, mode: char) returns (present: bool)
      ensures present <==> |PresentNames(Descriptions(frames), RgNames)| == ExpectedCount(doAlbum, mode)
    {
      var rgtags: set<string> := {};
      var i := 0;
      while i < |frames|
        invariant 0 <= i <= |frames|
        invariant rgtags == PresentNames(Descriptions(frames[..i]), RgNames)
      {
        assert frames[..i + 1] == frames[..i] + [frames[i]];
        if |frames[i]| >= 2 && Upper(frames[i][0]) in RgNames {
          rgtags := rgtags + {Upper(frames[i][0])};
        }
        i := i + 1;
      }
      assert frames[..i] == frames;
      present := |rgtags| == ExpectedCount(doAlbum, mode);
    }

    method ApplyStep(lowercase: bool, s: Step, values: RgTag -> string) returns (changed: bool)
      modifies this
      ensures frames == Id3StepResult(lowercase, old(frames), s, values)
      ensures changed == Id3StepChanges(lowercase, old(frames), s, values)
    {
      match s
      case Write(t) =>
        changed := UpdateTxxx(Name(t, lowercase), values(t));
      case RemoveAlbum =>
        changed := RemoveMatching(UpperNames(AlbumTags));
      case RemoveExtra =>
        changed := RemoveMatching(UpperNames(ExtraTags));
    }

    method Perform(lowercase: bool, s: Step, values: RgTag -> string,
                   ghost f0: seq<Frame>, ghost done: seq<Step>, save0: bool, save: bool)
      returns (save': bool)
      requires frames == Id3Applied(lowercase, f0, done, values)
      requires save == (save0 || Id3AnyChange(lowercase, f0, done, values))
      modifies this
      ensures frames == Id3Applied(lowercase, f0, done + [s], values)
      ensures save' == (save0 || Id3AnyChange(lowercase, f0, done + [s], values))
    {
      Id3AppliedSnoc(lowercase, f0, done, s, values);
      var c := ApplyStep(lowercase, s, values);
      save' := c || save;
    }

    /** Track gain and peak, always written. */
    method WriteTrackSteps(lowercase: bool, values: RgTag -> string,
                   ghost f0: seq<Frame>, ghost done: seq<Step>, save0: bool, save: bool)
      returns (save': bool)
      requires frames == Id3Applied(lowercase, f0, done, values)
      requires save == (save0 || Id3AnyChange(lowercase, f0, done, values))
      modifies this
      ensures frames == Id3Applied(lowercase, f0, done + TrackSteps(), values)
      ensures save' == (save0 || Id3AnyChange(lowercase, f0, done + TrackSteps(), values))
    {
      save' := Perform(lowercase, Write(TrackGain), values, f0, done, save0, save);
      save' := Perform(lowercase, Write(TrackPeak), values, f0, done + [Write(TrackGain)], save0, save');
      assert done + [Write(TrackGain)] + [Write(TrackPeak)] == done + TrackSteps();
    }

    /** Album gain and peak in album mode, else the album removal. */
    method WriteAlbumSteps(doAlbum: bool, lowercase: bool, values: RgTag -> string,
                   ghost f0: seq<Frame>, ghost done: seq<Step>, save0: bool, save: bool)
      returns (save': bool)
      requires frames == Id3Applied(lowercase, f0, done, values)
      requires save == (save0 || Id3AnyChange(lowercase, f0, done, values))
      modifies this
      ensures frames == Id3Applied(lowercase, f0, done + AlbumSteps(doAlbum), values)
      ensures save' == (save0 || Id3AnyChange(lowercase, f0, done + AlbumSteps(doAlbum), values))
    {
      if doAlbum {
        save' := Perform(lowercase, Write(AlbumGain), values, f0, done, save0, save);
        save' := Perform(lowercase, Write(AlbumPeak), values, f0, done + [Write(AlbumGain)], save0, save');
        assert done + [Write(AlbumGain)] + [Write(AlbumPeak)] == done + AlbumSteps(doAlbum);
      } else {
        save' := Perform(lowercase, RemoveAlbum, values, f0, done, save0, save);
      }
    }

    /** Reference and ranges for modes 'e' and 'l', else the extra removal. */
    method WriteExtraSteps(doAlbum: bool, mode: char, lowercase: bool, values: RgTag -> string,
                   ghost f0: seq<Frame>, ghost done: seq<Step>, save0: bool, save: bool)
      returns (save': bool)
      requires frames == Id3Applied(lowercase, f0, done, values)
      requires save == (save0 || Id3AnyChange(lowercase, f0, done, values))
      modifies this
      ensures frames == Id3Applied(lowercase, f0, done + ExtraSteps(doAlbum, mode), values)
      ensures save' == (save0 || Id3AnyChange(lowercase, f0, done + ExtraSteps(doAlbum, mode), values))
    {
      if mode == 'e' || mode == 'l' {
        save' := Perform(lowercase, Write(ReferenceLoudness), values, f0, done, save0, save);
        save' := Perform(lowercase, Write(TrackRange), values, f0, done + [Write(ReferenceLoudness)], save0, save');
        ghost var d2 := done + [Write(ReferenceLoudness)] + [Write(TrackRange)];
        if doAlbum {
          save' := Perform(lowercase, Write(AlbumRange), values, f0, d2, save0, save');
          assert d2 + [Write(AlbumRange)] == done + ExtraSteps(doAlbum, mode);
        } else {
          assert d2 == done + ExtraSteps(doAlbum, mode);
        }
      } else {
        save' := Perform(lowercase, RemoveExtra, values, f0, done, save0, save);
      }
    }

    /**
     * The tag part of tag_write_mp3 (save0 is true when the file had no
     * ID3v2 tag), tag_write_wav and tag_write_aiff (save0 false).
     */
    method WriteTags(doAlbum: bool, mode: char, lowercase: bool, values: RgTag -> string, save0: bool)
      returns (save: bool)
      modifies this
      ensures frames == Id3Applied(lowercase, old(frames), Plan(doAlbum, mode), values)
      ensures save == (save0 || Id3AnyChange(lowercase, old(frames), Plan(doAlbum, mode), values))
    {
      ghost var f0 := frames;
      save := WriteTrackSteps(lowercase, values, f0, [], save0, save0);
      assert [] + TrackSteps() == TrackSteps();
      save := WriteAlbumSteps(doAlbum, lowercase, values, f0, TrackSteps(), save0, save);
      save := WriteExtraSteps(doAlbum, mode, lowercase, values, f0, TrackSteps() + AlbumSteps(doAlbum), save0, save);
    }

    /** tag_remove_id3v2 as tag_clear_mp3 and friends use it: every ReplayGain frame. */
    method ClearTags() returns (rm: bool)
      modifies this
      ensures frames == Kept(old(frames), RgNames)
      ensures rm <==> frames != old(frames)
    {
      ghost var fs := frames;
      rm := RemoveMatching(RgNames);
      KeptSound(fs, RgNames);
    }
  }
}
