// The key/value tag stores LoudGain maintains: Xiph comments (FLAC and the
// Ogg family), APEv2 tags (Monkey's Audio, WavPack), ASF attributes and MP4
// items. Each is a map from a key to its list of values; TagLib's file
// handling around it is not modelled.
module TagStore {
  import opened Common
  import opened TagKeys

  /** A tag store: each key with its list of values. */
  type Items = map<string, seq<string>>

  /** The keys of m that differ from key in letter case only. */
  function Variants(m: Items, key: string): set<string>
  {
    set k | k in m && StrCompare(k, key) == 1
  }

  /**
   * The store tag_update_flac, tag_update_ape and tag_update_asf leave:
   * every other-case spelling of key removed and key itself holding the
   * single value.
   */
  function Updated(m: Items, key: string, value: string): Items
  {
    (m - Variants(m, key))[key := [value]]
  }

  /** What those updates return: whether a variant, a missing key or another value had to be fixed. */
  predicate UpdateChanges(m: Items, key: string, value: string)
  {
    Variants(m, key) != {} || key !in m || m[key] != [value]
  }

  /**
   * After an update the key holds exactly the value, no other spelling of
   * it is left, and every key that is not a spelling of it is untouched.
   */
  lemma UpdatedSound(m: Items, key: string, value: string, k: string)
    ensures key in Updated(m, key, value) && Updated(m, key, value)[key] == [value]
    ensures k in Updated(m, key, value) && Upper(k) == Upper(key) ==> k == key
    ensures Upper(k) != Upper(key) ==>
      (k in Updated(m, key, value) <==> k in m)
      && (k in m ==> Updated(m, key, value)[k] == m[k])
  {
  }

  /** An update reports a change exactly when the store is not already in its final form. */
  lemma UpdateChangesIff(m: Items, key: string, value: string)
    ensures !UpdateChanges(m, key, value) <==> Updated(m, key, value) == m
  {
  }

  /** Updating twice with the same value changes nothing the second time. */
  lemma UpdateIdempotent(m: Items, key: string, value: string)
    ensures Updated(Updated(m, key, value), key, value) == Updated(m, key, value)
    ensures !UpdateChanges(Updated(m, key, value), key, value)
  {
    var r := Updated(m, key, value);
    forall k | k in r
      ensures StrCompare(k, key) != 1
    {
      UpdatedSound(m, key, value, k);
    }
    assert Variants(r, key) == {};
    UpdateChangesIff(r, key, value);
  }

  /**
   * tag_update_mp4 AS WRITTEN. It matches items against the prefixed key,
   * but on an exact match it reads and overwrites the unprefixed key.
   */
  function Mp4UpdatedAsWritten(m: Items, key: string, value: string): Items
  {
    var tk := TagName(key);
    var vs := Variants(m, tk);
    var m1 := if tk in m && !(key in m && value in m[key]) then m[key := [value]] else m;
    if vs != {} then (m1 - vs)[tk := [value]]
    else if tk !in m then m1[tk := [value]]
    else m1
  }

  /**
   * When the prefixed item exists with another value and nothing else
   * spells it, the code as written leaves the prefixed item stale and adds
   * an item under the bare ReplayGain name instead.
   */
  lemma Mp4AsWrittenLeavesStale(m: Items, key: string, value: string)
    requires TagName(key) in m && value !in m[TagName(key)]
    requires Variants(m, TagName(key)) == {} && key !in m
    ensures var r := Mp4UpdatedAsWritten(m, key, value);
      r[TagName(key)] == m[TagName(key)] && key in r && r[key] == [value]
  {
    assert |TagName(key)| > |key|;
  }

  /** The same on a concrete file holding only an old track gain. */
  lemma Mp4AsWrittenExample()
    ensures var key := UpperName(TrackGain);
      var m := map[TagName(key) := ["1.00 dB"]];
      var r := Mp4UpdatedAsWritten(m, key, "2.00 dB");
      r[TagName(key)] == ["1.00 dB"] && r[key] == ["2.00 dB"]
      && Mp4Updated(m, TagName(key), "2.00 dB")[TagName(key)] == ["2.00 dB"]
  {
    var key := UpperName(TrackGain);
    var m := map[TagName(key) := ["1.00 dB"]];
    assert Variants(m, TagName(key)) == {};
    Mp4AsWrittenLeavesStale(m, key, "2.00 dB");
  }

  /**
   * tag_update_mp4 as intended (every access through the prefixed key tk):
   * nothing happens when tk already holds the value and has no other
   * spelling; otherwise the other spellings go and tk holds the value.
   */
  function Mp4Updated(m: Items, tk: string, value: string): Items
  {
    if Variants(m, tk) == {} && tk in m && value in m[tk] then m else Updated(m, tk, value)
  }

  predicate Mp4UpdateChanges(m: Items, tk: string, value: string)
  {
    !(Variants(m, tk) == {} && tk in m && value in m[tk])
  }

  /** The intended MP4 update: the value is stored, no other spelling is left, other keys are untouched, and it reports a change exactly when it made one. */
  lemma Mp4UpdatedSound(m: Items, tk: string, value: string, k: string)
    ensures tk in Mp4Updated(m, tk, value) && value in Mp4Updated(m, tk, value)[tk]
    ensures k in Mp4Updated(m, tk, value) && Upper(k) == Upper(tk) ==> k == tk
    ensures Upper(k) != Upper(tk) ==>
      (k in Mp4Updated(m, tk, value) <==> k in m)
      && (k in m ==> Mp4Updated(m, tk, value)[k] == m[k])
    ensures !Mp4UpdateChanges(m, tk, value) <==> Mp4Updated(m, tk, value) == m
  {
    UpdatedSound(m, tk, value, k);
    if k in m && Upper(k) == Upper(tk) && k != tk && !Mp4UpdateChanges(m, tk, value) {
      assert k in Variants(m, tk);
    }
    if Mp4UpdateChanges(m, tk, value) {
      UpdateChangesIff(m, tk, value);
    }
  }

  /** Updating an MP4 store twice with the same value changes nothing the second time. */
  lemma Mp4UpdateIdempotent(m: Items, tk: string, value: string)
    ensures !Mp4UpdateChanges(Mp4Updated(m, tk, value), tk, value)
    ensures Mp4Updated(Mp4Updated(m, tk, value), tk, value) == Mp4Updated(m, tk, value)
  {
    var r := Mp4Updated(m, tk, value);
    forall k | k in r
      ensures StrCompare(k, tk) != 1
    {
      Mp4UpdatedSound(m, tk, value, k);
    }
    assert Variants(r, tk) == {};
    Mp4UpdatedSound(m, tk, value, tk);
  }

  /** The store after removing every key whose upper-cased form is one of the names. */
  function CaselessRemoved(m: Items, names: set<string>): Items
  {
    map k | k in m && Upper(k) !in names :: m[k]
  }

  /** Whether some key's upper-cased form is one of the names. */
  predicate CaselessHit(m: Items, names: set<string>)
  {
    exists k :: k in m && Upper(k) in names
  }

  /** A caseless removal keeps exactly the other keys and reports whether it removed one. */
  lemma CaselessRemovedSound(m: Items, names: set<string>, k: string)
    ensures k in CaselessRemoved(m, names) <==> k in m && Upper(k) !in names
    ensures k in CaselessRemoved(m, names) ==> CaselessRemoved(m, names)[k] == m[k]
    ensures !CaselessHit(m, names) <==> CaselessRemoved(m, names) == m
  {
    if CaselessHit(m, names) {
      var h :| h in m && Upper(h) in names;
      assert h !in CaselessRemoved(m, names);
    }
  }

  /** Whether one of the names is a key (the tag->contains tests). */
  predicate ExactHit(m: Items, names: set<string>)
  {
    exists n :: n in names && n in m
  }

  /** The Xiph backends, the Monkey's Audio/WavPack backend, ASF and MP4. */
  datatype Backend = Xiph | Ape | Asf | Mp4

  /** The key a writer stores the tag under: Xiph and APE ignore -L, MP4 adds its prefix. */
  function KeyFor(b: Backend, lowercase: bool, t: RgTag): string
  {
    match b
    case Xiph => UpperName(t)
    case Ape => UpperName(t)
    case Asf => Name(t, lowercase)
    case Mp4 => TagName(Name(t, lowercase))
  }

  /** The upper-cased form the backend's presence check and removals compare against. */
  function MatchName(b: Backend, t: RgTag): string
  {
    if b == Mp4 then Upper(TagName(UpperName(t))) else UpperName(t)
  }

  function MatchNames(b: Backend, ts: set<RgTag>): set<string>
  {
    set t | t in ts :: MatchName(b, t)
  }

  /** A written key upper-cases to its tag's name, and distinct tags never share one. */
  lemma MatchNameLaws(b: Backend, lowercase: bool, t: RgTag, u: RgTag)
    ensures Upper(KeyFor(b, lowercase, t)) == MatchName(b, t)
    ensures MatchName(b, t) == MatchName(b, u) <==> t == u
    ensures b != Mp4 ==> Upper(MatchName(b, t)) == MatchName(b, t)
  {
    NameTables(t, u, lowercase);
    NameTables(t, u, false);
    Mp4NameOf(t, lowercase);
    Mp4NamesDistinct(t, u, false, false);
  }

  /** Distinct tags give distinct names, so a set of tags has as many match names as members. */
  lemma {:induction false} MatchNamesCount(b: Backend, ts: set<RgTag>)
    ensures |MatchNames(b, ts)| == |ts|
    decreases |ts|
  {
    if ts != {} {
      var t :| t in ts;
      var rest := ts - {t};
      MatchNamesCount(b, rest);
      assert MatchNames(b, ts) == MatchNames(b, rest) + {MatchName(b, t)};
      forall u | u in rest
        ensures MatchName(b, u) != MatchName(b, t)
      {
        MatchNameLaws(b, false, u, t);
      }
    }
  }

  // ---- The writers' steps ----

  /** One action of a tag_write_* function: update one tag, or one of the two subset removals. */
  datatype Step = Write(tag: RgTag) | RemoveAlbum | RemoveExtra

  /**
   * The order of actions of tag_write_flac, tag_make_ogg, tag_write_ape,
   * tag_write_wavpack, tag_write_asf and tag_write_mp4: track gain and peak;
   * album gain and peak in album mode, else the album removal; reference,
   * track range (and album range in album mode) for 'e' and 'l', else the
   * extra removal.
   */
  function Plan(doAlbum: bool, mode: char): seq<Step>
  {
    TrackSteps() + AlbumSteps(doAlbum) + ExtraSteps(doAlbum, mode)
  }

  function TrackSteps(): seq<Step>
  {
    [Write(TrackGain), Write(TrackPeak)]
  }

  function AlbumSteps(doAlbum: bool): seq<Step>
  {
    if doAlbum then [Write(AlbumGain), Write(AlbumPeak)] else [RemoveAlbum]
  }

  function ExtraSteps(doAlbum: bool, mode: char): seq<Step>
  {
    if mode == 'e' || mode == 'l' then
      [Write(ReferenceLoudness), Write(TrackRange)] + (if doAlbum then [Write(AlbumRange)] else [])
    else [RemoveExtra]
  }

  /** The tags a step acts on. */
  function StepTags(s: Step): set<RgTag>
  {
    match s
    case Write(t) => {t}
    case RemoveAlbum => AlbumTags
    case RemoveExtra => ExtraTags
  }

  /** A subset removal: exact upper-case keys for Xiph comments, any spelling elsewhere. */
  function Removed(b: Backend, m: Items, ts: set<RgTag>): Items
  {
    if b == Xiph then m - MatchNames(b, ts) else CaselessRemoved(m, MatchNames(b, ts))
  }

  predicate RemovalHits(b: Backend, m: Items, ts: set<RgTag>)
  {
    if b == Xiph then ExactHit(m, MatchNames(b, ts)) else CaselessHit(m, MatchNames(b, ts))
  }

  function StepResult(b: Backend, lowercase: bool, m: Items, s: Step, values: RgTag -> string): Items
  {
    match s
    case Write(t) =>
      if b == Mp4 then Mp4Updated(m, KeyFor(b, lowercase, t), values(t))
      else Updated(m, KeyFor(b, lowercase, t), values(t))
    case RemoveAlbum => Removed(b, m, AlbumTags)
    case RemoveExtra => Removed(b, m, ExtraTags)
  }

  predicate StepChanges(b: Backend, lowercase: bool, m: Items, s: Step, values: RgTag -> string)
  {
    match s
    case Write(t) =>
      if b == Mp4 then Mp4UpdateChanges(m, KeyFor(b, lowercase, t), values(t))
      else UpdateChanges(m, KeyFor(b, lowercase, t), values(t))
    case RemoveAlbum => RemovalHits(b, m, AlbumTags)
    case RemoveExtra => RemovalHits(b, m, ExtraTags)
  }

  /** The store after the steps, in order. */
  function Applied(b: Backend, lowercase: bool, m: Items, steps: seq<Step>, values: RgTag -> string): Items
    decreases |steps|
  {
    if |steps| == 0 then m
    else StepResult(b, lowercase, Applied(b, lowercase, m, steps[..|steps| - 1], values), steps[|steps| - 1], values)
  }

  /** Whether some step reported a change: the OR into save. */
  predicate AnyChange(b: Backend, lowercase: bool, m: Items, steps: seq<Step>, values: RgTag -> string)
    decreases |steps|
  {
    if |steps| == 0 then false
    else
      AnyChange(b, lowercase, m, steps[..|steps| - 1], values)
      || StepChanges(b, lowercase, Applied(b, lowercase, m, steps[..|steps| - 1], values), steps[|steps| - 1], values)
  }

  lemma AppliedSnoc(b: Backend, lowercase: bool, m: Items, steps: seq<Step>, s: Step, values: RgTag -> string)
    ensures Applied(b, lowercase, m, steps + [s], values)
      == StepResult(b, lowercase, Applied(b, lowercase, m, steps, values), s, values)
    ensures AnyChange(b, lowercase, m, steps + [s], values)
      == (AnyChange(b, lowercase, m, steps, values)
          || StepChanges(b, lowercase, Applied(b, lowercase, m, steps, values), s, values))
  {
    assert (steps + [s])[..|steps|] == steps;
  }

  /** Which tags each plan writes and which it removes. */
  lemma PlanSelects(doAlbum: bool, mode: char, t: RgTag)
    ensures Write(t) in Plan(doAlbum, mode) <==> t in WrittenTags(doAlbum, mode)
    ensures RemoveAlbum in Plan(doAlbum, mode) <==> !doAlbum
    ensures RemoveExtra in Plan(doAlbum, mode) <==> mode != 'e' && mode != 'l'
  {
  }

  /** A step leaves every key alone whose upper-cased form is not one of the names it acts on. */
  lemma StepKeeps(b: Backend, lowercase: bool, m: Items, s: Step, values: RgTag -> string, k: string)
    requires Upper(k) !in MatchNames(b, StepTags(s))
    ensures k in StepResult(b, lowercase, m, s, values) <==> k in m
    ensures k in m ==> StepResult(b, lowercase, m, s, values)[k] == m[k]
  {
    match s {
      case Write(t) =>
        MatchNameLaws(b, lowercase, t, t);
        assert MatchName(b, t) in MatchNames(b, StepTags(s));
        UpdatedSound(m, KeyFor(b, lowercase, t), values(t), k);
        Mp4UpdatedSound(m, KeyFor(b, lowercase, t), values(t), k);
      case RemoveAlbum =>
        RemovedKeeps(b, m, AlbumTags, k);
      case RemoveExtra =>
        RemovedKeeps(b, m, ExtraTags, k);
    }
  }

  lemma RemovedKeeps(b: Backend, m: Items, ts: set<RgTag>, k: string)
    requires Upper(k) !in MatchNames(b, ts)
    ensures k in Removed(b, m, ts) <==> k in m
    ensures k in m ==> Removed(b, m, ts)[k] == m[k]
  {
    if b == Xiph && k in MatchNames(b, ts) {
      var t :| t in ts && MatchName(b, t) == k;
      MatchNameLaws(b, false, t, t);
      assert false;
    }
    CaselessRemovedSound(m, MatchNames(b, ts), k);
  }

  /** A tag outside a set of tags has a name outside the set's names. */
  lemma OutsideNames(b: Backend, t: RgTag, ts: set<RgTag>)
    requires t !in ts
    ensures MatchName(b, t) !in MatchNames(b, ts)
  {
    forall u | u in ts
      ensures MatchName(b, u) != MatchName(b, t)
    {
      MatchNameLaws(b, false, u, t);
    }
  }

  /** Steps that never act on a key's name leave that key as it was. */
  lemma {:induction false} AppliedKeeps(b: Backend, lowercase: bool, m: Items, steps: seq<Step>,
                                        values: RgTag -> string, k: string)
    requires forall i :: 0 <= i < |steps| ==> Upper(k) !in MatchNames(b, StepTags(steps[i]))
    ensures k in Applied(b, lowercase, m, steps, values) <==> k in m
    ensures k in m ==> Applied(b, lowercase, m, steps, values)[k] == m[k]
    decreases |steps|
  {
    if |steps| > 0 {
      var init := steps[..|steps| - 1];
      AppliedKeeps(b, lowercase, m, init, values, k);
      StepKeeps(b, lowercase, Applied(b, lowercase, m, init, values), steps[|steps| - 1], values, k);
    }
  }

  /** Applying two runs of steps is applying the first, then the second. */
  lemma {:induction false} AppliedAppend(b: Backend, lowercase: bool, m: Items, xs: seq<Step>, ys: seq<Step>,
                                         values: RgTag -> string)
    ensures Applied(b, lowercase, m, xs + ys, values)
      == Applied(b, lowercase, Applied(b, lowercase, m, xs, values), ys, values)
    decreases |ys|
  {
    if |ys| == 0 {
      assert xs + ys == xs;
    } else {
      var ys' := ys[..|ys| - 1];
      var y := ys[|ys| - 1];
      assert ys == ys' + [y];
      assert xs + ys == (xs + ys') + [y];
      AppliedAppend(b, lowercase, m, xs, ys', values);
      AppliedSnoc(b, lowercase, m, xs + ys', y, values);
      AppliedSnoc(b, lowercase, Applied(b, lowercase, m, xs, values), ys', y, values);
    }
  }

  /** Steps after index i never act on tag t. */
  predicate LastTouch(steps: seq<Step>, t: RgTag, i: int)
  {
    0 <= i < |steps| && t in StepTags(steps[i])
    && forall j :: i < j < |steps| ==> t !in StepTags(steps[j])
  }

  /** Splitting the steps at the last one acting on t. */
  lemma SplitAtLast(b: Backend, lowercase: bool, m: Items, steps: seq<Step>, values: RgTag -> string,
                    t: RgTag, i: int, k: string)
    requires LastTouch(steps, t, i)
    requires Upper(k) == MatchName(b, t)
    ensures var mid := StepResult(b, lowercase, Applied(b, lowercase, m, steps[..i], values), steps[i], values);
      var r := Applied(b, lowercase, m, steps, values);
      (k in r <==> k in mid) && (k in mid ==> r[k] == mid[k])
  {
    var rest := steps[i + 1..];
    assert steps == steps[..i + 1] + rest;
    assert steps[..i + 1][..i] == steps[..i];
    AppliedAppend(b, lowercase, m, steps[..i + 1], rest, values);
    forall j | 0 <= j < |rest|
      ensures Upper(k) !in MatchNames(b, StepTags(rest[j]))
    {
      assert rest[j] == steps[i + 1 + j];
      OutsideNames(b, t, StepTags(rest[j]));
    }
    AppliedKeeps(b, lowercase, Applied(b, lowercase, m, steps[..i + 1], values), rest, values, k);
  }

  /**
   * When the last step acting on t writes it, t's key holds the value (the
   * MP4 update keeps a list already holding it) and no other spelling of
   * the key is left.
   */
  lemma LastWrite(b: Backend, lowercase: bool, m: Items, steps: seq<Step>, values: RgTag -> string,
                  t: RgTag, i: int)
    requires LastTouch(steps, t, i) && steps[i] == Write(t)
    ensures var r := Applied(b, lowercase, m, steps, values);
      var key := KeyFor(b, lowercase, t);
      key in r && values(t) in r[key] && (b != Mp4 ==> r[key] == [values(t)])
      && forall k :: k in r && Upper(k) == MatchName(b, t) ==> k == key
  {
    var before := Applied(b, lowercase, m, steps[..i], values);
    var key := KeyFor(b, lowercase, t);
    var r := Applied(b, lowercase, m, steps, values);
    MatchNameLaws(b, lowercase, t, t);
    SplitAtLast(b, lowercase, m, steps, values, t, i, key);
    UpdatedSound(before, key, values(t), key);
    Mp4UpdatedSound(before, key, values(t), key);
    forall k | k in r && Upper(k) == MatchName(b, t)
      ensures k == key
    {
      SplitAtLast(b, lowercase, m, steps, values, t, i, k);
      UpdatedSound(before, key, values(t), k);
      Mp4UpdatedSound(before, key, values(t), k);
    }
  }

  /**
   * When the last step acting on t is a removal, no spelling of t's name is
   * left; a Xiph comment only loses the exact upper-case key.
   */
  lemma LastRemove(b: Backend, lowercase: bool, m: Items, steps: seq<Step>, values: RgTag -> string,
                   t: RgTag, i: int)
    requires LastTouch(steps, t, i) && !steps[i].Write?
    ensures var r := Applied(b, lowercase, m, steps, values);
      MatchName(b, t) !in r
      && (b != Xiph ==> forall k :: k in r ==> Upper(k) != MatchName(b, t))
  {
    var before := Applied(b, lowercase, m, steps[..i], values);
    var r := Applied(b, lowercase, m, steps, values);
    var ts := StepTags(steps[i]);
    assert MatchName(b, t) in MatchNames(b, ts);
    MatchNameLaws(b, lowercase, t, t);
    SplitAtLast(b, lowercase, m, steps, values, t, i, MatchName(b, t));
    CaselessRemovedSound(before, MatchNames(b, ts), MatchName(b, t));
    forall k | k in r && b != Xiph
      ensures Upper(k) != MatchName(b, t)
    {
      if Upper(k) == MatchName(b, t) {
        SplitAtLast(b, lowercase, m, steps, values, t, i, k);
        CaselessRemovedSound(before, MatchNames(b, ts), k);
      }
    }
  }

  /** In every plan each written tag is written at a step after which nothing acts on it. */
  lemma PlanWritesLast(doAlbum: bool, mode: char, t: RgTag) returns (i: int)
    requires t in WrittenTags(doAlbum, mode)
    ensures LastTouch(Plan(doAlbum, mode), t, i) && Plan(doAlbum, mode)[i] == Write(t)
  {
    var p := Plan(doAlbum, mode);
    var a := if doAlbum then 4 else 3;
    i := match t
      case TrackGain => 0
      case TrackPeak => 1
      case AlbumGain => 2
      case AlbumPeak => 3
      case ReferenceLoudness => a
      case TrackRange => a + 1
      case AlbumRange => 6;
  }

  /** In every plan each removed tag is last acted on by a removal. */
  lemma PlanRemovesLast(doAlbum: bool, mode: char, t: RgTag) returns (i: int)
    requires t in RemovedTags(doAlbum, mode)
    ensures LastTouch(Plan(doAlbum, mode), t, i) && !Plan(doAlbum, mode)[i].Write?
  {
    var p := Plan(doAlbum, mode);
    i := if t in ExtraTags && mode != 'e' && mode != 'l' then |p| - 1 else if doAlbum then 4 else 2;
  }

  /** The Xiph and APE writers ignore -L and always store the upper-case name. */
  lemma UpperCaseWriters(b: Backend, lowercase: bool, t: RgTag)
    requires b == Xiph || b == Ape
    ensures KeyFor(b, lowercase, t) == KeyFor(b, false, t) == UpperName(t)
    ensures Upper(KeyFor(b, lowercase, t)) == KeyFor(b, lowercase, t)
  {
    NameTables(t, t, false);
  }

  /**
   * What a writer leaves for each tag: a written tag under its key with its
   * value and no other spelling; a removed tag absent (for a Xiph comment
   * its upper-case key, elsewhere every spelling).
   */
  lemma WriterOutcome(b: Backend, lowercase: bool, m: Items, doAlbum: bool, mode: char,
                      values: RgTag -> string, t: RgTag)
    ensures var r := Applied(b, lowercase, m, Plan(doAlbum, mode), values);
      var key := KeyFor(b, lowercase, t);
      (t in WrittenTags(doAlbum, mode) ==>
         key in r && values(t) in r[key] && (b != Mp4 ==> r[key] == [values(t)])
         && forall k :: k in r && Upper(k) == MatchName(b, t) ==> k == key)
      && (t in RemovedTags(doAlbum, mode) ==>
         MatchName(b, t) !in r
         && (b != Xiph ==> forall k :: k in r ==> Upper(k) != MatchName(b, t)))
  {
    WrittenOrRemoved(doAlbum, mode, t);
    if t in WrittenTags(doAlbum, mode) {
      var i := PlanWritesLast(doAlbum, mode, t);
      LastWrite(b, lowercase, m, Plan(doAlbum, mode), values, t, i);
    } else {
      var i := PlanRemovesLast(doAlbum, mode, t);
      LastRemove(b, lowercase, m, Plan(doAlbum, mode), values, t, i);
    }
  }

  /** A writer leaves every key that does not spell a ReplayGain name as it was. */
  lemma WriterKeepsOthers(b: Backend, lowercase: bool, m: Items, doAlbum: bool, mode: char,
                          values: RgTag -> string, k: string)
    requires Upper(k) !in MatchNames(b, AllTags)
    ensures var r := Applied(b, lowercase, m, Plan(doAlbum, mode), values);
      (k in r <==> k in m) && (k in m ==> r[k] == m[k])
  {
    var p := Plan(doAlbum, mode);
    forall i | 0 <= i < |p|
      ensures Upper(k) !in MatchNames(b, StepTags(p[i]))
    {
      assert MatchNames(b, StepTags(p[i])) <= MatchNames(b, AllTags);
    }
    AppliedKeeps(b, lowercase, m, p, values, k);
  }

  /** A store on which the writer has nothing left to do: WriterOutcome's conclusion for every tag. */
  predicate Settled(b: Backend, lowercase: bool, m: Items, doAlbum: bool, mode: char, values: RgTag -> string)
  {
    (forall t :: t in WrittenTags(doAlbum, mode) ==>
       KeyFor(b, lowercase, t) in m && values(t) in m[KeyFor(b, lowercase, t)]
       && (b != Mp4 ==> m[KeyFor(b, lowercase, t)] == [values(t)])
       && forall k :: k in m && Upper(k) == MatchName(b, t) ==> k == KeyFor(b, lowercase, t))
    && (forall t :: t in RemovedTags(doAlbum, mode) ==>
       MatchName(b, t) !in m
       && (b != Xiph ==> forall k :: k in m ==> Upper(k) != MatchName(b, t)))
  }

  /** A step of the plan: a write of a written tag, or a removal of removed tags. */
  predicate Planned(s: Step, doAlbum: bool, mode: char)
  {
    if s.Write? then s.tag in WrittenTags(doAlbum, mode) else StepTags(s) <= RemovedTags(doAlbum, mode)
  }

  lemma PlanPlanned(doAlbum: bool, mode: char)
    ensures forall i :: 0 <= i < |Plan(doAlbum, mode)| ==> Planned(Plan(doAlbum, mode)[i], doAlbum, mode)
  {
  }

  /** A step that reports no change leaves the store as it was. */
  lemma QuietStep(b: Backend, lowercase: bool, m: Items, s: Step, values: RgTag -> string)
    requires !StepChanges(b, lowercase, m, s, values)
    ensures StepResult(b, lowercase, m, s, values) == m
  {
    match s {
      case Write(t) =>
        UpdateChangesIff(m, KeyFor(b, lowercase, t), values(t));
        Mp4UpdatedSound(m, KeyFor(b, lowercase, t), values(t), "");
      case RemoveAlbum =>
        CaselessRemovedSound(m, MatchNames(b, AlbumTags), "");
      case RemoveExtra =>
        CaselessRemovedSound(m, MatchNames(b, ExtraTags), "");
    }
  }

  lemma {:induction false} QuietSteps(b: Backend, lowercase: bool, m: Items, steps: seq<Step>, values: RgTag -> string)
    requires !AnyChange(b, lowercase, m, steps, values)
    ensures Applied(b, lowercase, m, steps, values) == m
    decreases |steps|
  {
    if |steps| > 0 {
      QuietSteps(b, lowercase, m, steps[..|steps| - 1], values);
      QuietStep(b, lowercase, m, steps[|steps| - 1], values);
    }
  }

  lemma SettledRemoval(b: Backend, m: Items, ts: set<RgTag>, doAlbum: bool, mode: char, lowercase: bool, values: RgTag -> string)
    requires Settled(b, lowercase, m, doAlbum, mode, values) && ts <= RemovedTags(doAlbum, mode)
    ensures !RemovalHits(b, m, ts)
  {
    if b == Xiph {
      forall n | n in MatchNames(b, ts)
        ensures n !in m
      {
        var t :| t in ts && MatchName(b, t) == n;
      }
    } else {
      forall k | k in m
        ensures Upper(k) !in MatchNames(b, ts)
      {
      }
    }
  }

  /** On a settled store every planned step reports no change. */
  lemma SettledStep(b: Backend, lowercase: bool, m: Items, s: Step, doAlbum: bool, mode: char, values: RgTag -> string)
    requires Settled(b, lowercase, m, doAlbum, mode, values) && Planned(s, doAlbum, mode)
    ensures !StepChanges(b, lowercase, m, s, values)
  {
    match s {
      case Write(t) =>
        var key := KeyFor(b, lowercase, t);
        MatchNameLaws(b, lowercase, t, t);
        forall v | v in m && StrCompare(v, key) == 1
          ensures false
        {
        }
        assert Variants(m, key) == {};
      case RemoveAlbum =>
        SettledRemoval(b, m, AlbumTags, doAlbum, mode, lowercase, values);
      case RemoveExtra =>
        SettledRemoval(b, m, ExtraTags, doAlbum, mode, lowercase, values);
    }
  }

  lemma {:induction false} SettledSteps(b: Backend, lowercase: bool, m: Items, steps: seq<Step>,
                                        doAlbum: bool, mode: char, values: RgTag -> string)
    requires Settled(b, lowercase, m, doAlbum, mode, values)
    requires forall i :: 0 <= i < |steps| ==> Planned(steps[i], doAlbum, mode)
    ensures !AnyChange(b, lowercase, m, steps, values)
    decreases |steps|
  {
    if |steps| > 0 {
      var init := steps[..|steps| - 1];
      SettledSteps(b, lowercase, m, init, doAlbum, mode, values);
      QuietSteps(b, lowercase, m, init, values);
      SettledStep(b, lowercase, m, steps[|steps| - 1], doAlbum, mode, values);
    }
  }

  lemma WriterSettles(b: Backend, lowercase: bool, m: Items, doAlbum: bool, mode: char, values: RgTag -> string)
    ensures Settled(b, lowercase, Applied(b, lowercase, m, Plan(doAlbum, mode), values), doAlbum, mode, values)
  {
    forall t | true
      ensures var r := Applied(b, lowercase, m, Plan(doAlbum, mode), values);
        var key := KeyFor(b, lowercase, t);
        (t in WrittenTags(doAlbum, mode) ==>
           key in r && values(t) in r[key] && (b != Mp4 ==> r[key] == [values(t)])
           && forall k :: k in r && Upper(k) == MatchName(b, t) ==> k == key)
        && (t in RemovedTags(doAlbum, mode) ==>
           MatchName(b, t) !in r
           && (b != Xiph ==> forall k :: k in r ==> Upper(k) != MatchName(b, t)))
    {
      WriterOutcome(b, lowercase, m, doAlbum, mode, values, t);
    }
  }

  /** A writer reports a change (sets save) exactly when it leaves the store different. */
  lemma WriterSaveIffChanged(b: Backend, lowercase: bool, m: Items, doAlbum: bool, mode: char, values: RgTag -> string)
    ensures AnyChange(b, lowercase, m, Plan(doAlbum, mode), values)
        <==> Applied(b, lowercase, m, Plan(doAlbum, mode), values) != m
  {
    var p := Plan(doAlbum, mode);
    if !AnyChange(b, lowercase, m, p, values) {
      QuietSteps(b, lowercase, m, p, values);
    }
    if Applied(b, lowercase, m, p, values) == m {
      WriterSettles(b, lowercase, m, doAlbum, mode, values);
      PlanPlanned(doAlbum, mode);
      SettledSteps(b, lowercase, m, p, doAlbum, mode, values);
    }
  }

  /** Writing the same values again leaves the store as it is and saves nothing. */
  lemma WriterIdempotent(b: Backend, lowercase: bool, m: Items, doAlbum: bool, mode: char, values: RgTag -> string)
    ensures var r := Applied(b, lowercase, m, Plan(doAlbum, mode), values);
      Applied(b, lowercase, r, Plan(doAlbum, mode), values) == r
      && !AnyChange(b, lowercase, r, Plan(doAlbum, mode), values)
  {
    var r := Applied(b, lowercase, m, Plan(doAlbum, mode), values);
    WriterSettles(b, lowercase, m, doAlbum, mode, values);
    PlanPlanned(doAlbum, mode);
    SettledSteps(b, lowercase, r, Plan(doAlbum, mode), doAlbum, mode, values);
    QuietSteps(b, lowercase, r, Plan(doAlbum, mode), values);
  }

  /** Every key is upper-case, as TagLib stores Xiph comment field names. */
  predicate UpperKeys(m: Items)
  {
    forall k :: k in m ==> Upper(k) == k
  }

  /** The Xiph steps keep every key upper-case. */
  lemma {:induction false} XiphKeepsUpper(lowercase: bool, m: Items, steps: seq<Step>, values: RgTag -> string)
    requires UpperKeys(m)
    ensures UpperKeys(Applied(Xiph, lowercase, m, steps, values))
    decreases |steps|
  {
    if |steps| > 0 {
      var init := steps[..|steps| - 1];
      XiphKeepsUpper(lowercase, m, init, values);
      var before := Applied(Xiph, lowercase, m, init, values);
      match steps[|steps| - 1] {
        case Write(t) =>
          NameTables(t, t, false);
          assert Updated(before, UpperName(t), values(t)).Keys <= before.Keys + {UpperName(t)};
        case RemoveAlbum =>
        case RemoveExtra =>
      }
    }
  }

  /** The names the writers compare against are the table's names (prefixed for MP4). */
  lemma MatchNamesAre(b: Backend, ts: set<RgTag>)
    ensures MatchNames(b, ts) == if b == Mp4 then Mp4Names(ts) else UpperNames(ts)
  {
  }

  /**
   * Right after a writer the presence check finds exactly the written tags,
   * so for every mode but 'l' it reports the tags as present.
   */
  lemma WritePresence(b: Backend, lowercase: bool, m: Items, doAlbum: bool, mode: char, values: RgTag -> string)
    requires b == Xiph ==> UpperKeys(m)
    ensures var r := Applied(b, lowercase, m, Plan(doAlbum, mode), values);
      PresentNames(r.Keys, MatchNames(b, AllTags)) == MatchNames(b, WrittenTags(doAlbum, mode))
      && (mode != 'l' ==> |PresentNames(r.Keys, MatchNames(b, AllTags))| == ExpectedCount(doAlbum, mode))
  {
    PresenceCovers(b, lowercase, m, doAlbum, mode, values);
    PresenceWithin(b, lowercase, m, doAlbum, mode, values);
    MatchNamesCount(b, WrittenTags(doAlbum, mode));
    ExpectedMatchesWritten(doAlbum, mode);
  }

  /** Every written tag is found by the presence check after the writer. */
  lemma PresenceCovers(b: Backend, lowercase: bool, m: Items, doAlbum: bool, mode: char, values: RgTag -> string)
    ensures var r := Applied(b, lowercase, m, Plan(doAlbum, mode), values);
      MatchNames(b, WrittenTags(doAlbum, mode)) <= PresentNames(r.Keys, MatchNames(b, AllTags))
  {
    var r := Applied(b, lowercase, m, Plan(doAlbum, mode), values);
    var w := WrittenTags(doAlbum, mode);
    forall n | n in MatchNames(b, w)
      ensures n in PresentNames(r.Keys, MatchNames(b, AllTags))
    {
      var t :| t in w && MatchName(b, t) == n;
      WriterOutcome(b, lowercase, m, doAlbum, mode, values, t);
      MatchNameLaws(b, lowercase, t, t);
      assert KeyFor(b, lowercase, t) in r.Keys;
    }
  }

  /** The presence check after the writer finds only written tags. */
  lemma PresenceWithin(b: Backend, lowercase: bool, m: Items, doAlbum: bool, mode: char, values: RgTag -> string)
    requires b == Xiph ==> UpperKeys(m)
    ensures var r := Applied(b, lowercase, m, Plan(doAlbum, mode), values);
      PresentNames(r.Keys, MatchNames(b, AllTags)) <= MatchNames(b, WrittenTags(doAlbum, mode))
  {
    var r := Applied(b, lowercase, m, Plan(doAlbum, mode), values);
    var w := WrittenTags(doAlbum, mode);
    if b == Xiph {
      XiphKeepsUpper(lowercase, m, Plan(doAlbum, mode), values);
    }
    forall k | k in r && Upper(k) in MatchNames(b, AllTags)
      ensures Upper(k) in MatchNames(b, w)
    {
      var t :| t in AllTags && MatchName(b, t) == Upper(k);
      WrittenOrRemoved(doAlbum, mode, t);
      WriterOutcome(b, lowercase, m, doAlbum, mode, values, t);
    }
  }

  /** Clearing every ReplayGain tag (tag_remove_flac, tag_remove_ape, tag_remove_asf, tag_remove_mp4). */
  lemma ClearLeavesNone(b: Backend, m: Items)
    requires b == Xiph ==> UpperKeys(m)
    ensures PresentNames(Removed(b, m, AllTags).Keys, MatchNames(b, AllTags)) == {}
    ensures Removed(b, Removed(b, m, AllTags), AllTags) == Removed(b, m, AllTags)
    ensures !RemovalHits(b, Removed(b, m, AllTags), AllTags)
  {
    var r := Removed(b, m, AllTags);
    var names := MatchNames(b, AllTags);
    forall k | k in r
      ensures Upper(k) !in names
    {
      CaselessRemovedSound(m, names, k);
    }
    CaselessRemovedSound(r, names, "");
  }

  // ---- Opus ----

  const R128Track: string := "R128_TRACK_GAIN"
  const R128Album: string := "R128_ALBUM_GAIN"

  /** The comment tag_write_ogg_opus leaves, given the decimal texts of the two Q7.8 gains. */
  function OpusWritten(m: Items, doAlbum: bool, trackText: string, albumText: string): Items
  {
    var m1 := Updated(m, R128Track, trackText);
    var m2 := if doAlbum then Updated(m1, R128Album, albumText)
              else (m1 - MatchNames(Xiph, AlbumTags)) - {R128Album};
    m2 - MatchNames(Xiph, ExtraTags)
  }

  /** Every ReplayGain name starts REPLAYGAIN_, so its second letter is E. */
  lemma RgNameSecond(t: RgTag)
    ensures |UpperName(t)| > 1 && UpperName(t)[1] == 'E'
  {
  }

  lemma NotRgName(s: string)
    requires |s| > 1 && s[1] != 'E'
    ensures s !in MatchNames(Xiph, AllTags)
  {
    forall t | t in AllTags
      ensures UpperName(t) != s
    {
      RgNameSecond(t);
    }
  }

  lemma R128TrackUpper()
    ensures Upper(R128Track) == R128Track
  {
  }

  lemma R128AlbumUpper()
    ensures Upper(R128Album) == R128Album
  {
  }

  /** The two R128 names are distinct, upper-case and not ReplayGain names. */
  lemma R128Names()
    ensures Upper(R128Track) == R128Track && Upper(R128Album) == R128Album
    ensures R128Track != R128Album
    ensures R128Track !in MatchNames(Xiph, AllTags) && R128Album !in MatchNames(Xiph, AllTags)
  {
    R128TrackUpper();
    R128AlbumUpper();
    assert R128Track[5] != R128Album[5];
    NotRgName(R128Track);
    NotRgName(R128Album);
  }

  lemma OpusGainsStored(m: Items, doAlbum: bool, trackText: string, albumText: string)
    ensures var r := OpusWritten(m, doAlbum, trackText, albumText);
      R128Track in r && r[R128Track] == [trackText]
      && (doAlbum ==> R128Album in r && r[R128Album] == [albumText])
      && (!doAlbum ==> R128Album !in r)
      && (forall k :: k in r && Upper(k) == R128Track ==> k == R128Track)
      && (doAlbum ==> forall k :: k in r && Upper(k) == R128Album ==> k == R128Album)
  {
    R128Names();
    var m1 := Updated(m, R128Track, trackText);
    UpdatedSound(m, R128Track, trackText, R128Track);
    var r := OpusWritten(m, doAlbum, trackText, albumText);
    forall k | k in r && Upper(k) == R128Track
      ensures k == R128Track
    {
      UpdatedSound(m, R128Track, trackText, k);
      UpdatedSound(m1, R128Album, albumText, k);
    }
    forall k | doAlbum && k in r && Upper(k) == R128Album
      ensures k == R128Album
    {
      UpdatedSound(m1, R128Album, albumText, k);
    }
    var m2 := if doAlbum then Updated(m1, R128Album, albumText)
              else (m1 - MatchNames(Xiph, AlbumTags)) - {R128Album};
    if doAlbum {
      UpdatedSound(m1, R128Album, albumText, R128Track);
    }
    assert R128Track in m2 && m2[R128Track] == [trackText];
    assert MatchNames(Xiph, AlbumTags) <= MatchNames(Xiph, AllTags);
    assert MatchNames(Xiph, ExtraTags) <= MatchNames(Xiph, AllTags);
  }

  lemma OpusDropsRgNames(m: Items, doAlbum: bool, trackText: string, albumText: string, t: RgTag)
    requires t in ExtraTags || (!doAlbum && t in AlbumTags)
    ensures UpperName(t) !in OpusWritten(m, doAlbum, trackText, albumText)
  {
    assert UpperName(t) in MatchNames(Xiph, if t in ExtraTags then ExtraTags else AlbumTags);
  }

  lemma OpusKeepsOthers(m: Items, doAlbum: bool, trackText: string, albumText: string, k: string)
    requires Upper(k) != R128Track && Upper(k) != R128Album && k !in MatchNames(Xiph, AllTags)
    ensures var r := OpusWritten(m, doAlbum, trackText, albumText);
      (k in r <==> k in m) && (k in m ==> r[k] == m[k])
  {
    R128Names();
    var m1 := Updated(m, R128Track, trackText);
    UpdatedSound(m, R128Track, trackText, k);
    UpdatedSound(m1, R128Album, albumText, k);
    assert k != R128Album;
    assert MatchNames(Xiph, AlbumTags) <= MatchNames(Xiph, AllTags);
    assert MatchNames(Xiph, ExtraTags) <= MatchNames(Xiph, AllTags);
  }

  /**
   * The removal of old REPLAYGAIN_* names before an Opus write is not
   * performed: a REPLAYGAIN track gain or peak (and, in album mode, an album
   * gain or peak) already in the comment survives the write unchanged.
   */
  lemma OpusKeepsRgName(m: Items, doAlbum: bool, trackText: string, albumText: string, t: RgTag)
    requires t !in ExtraTags && (doAlbum || t !in AlbumTags)
    requires UpperName(t) in m
    ensures var r := OpusWritten(m, doAlbum, trackText, albumText);
      UpperName(t) in r && r[UpperName(t)] == m[UpperName(t)]
  {
    var k := UpperName(t);
    R128Names();
    MatchNameLaws(Xiph, false, t, t);
    RgNameSecond(t);
    assert Upper(k)[1] == 'E' && R128Track[1] != 'E' && R128Album[1] != 'E';
    var m1 := Updated(m, R128Track, trackText);
    UpdatedSound(m, R128Track, trackText, k);
    UpdatedSound(m1, R128Album, albumText, k);
    forall u | u in ExtraTags || (!doAlbum && u in AlbumTags)
      ensures MatchName(Xiph, u) != k
    {
      MatchNameLaws(Xiph, false, t, u);
    }
  }

  /**
   * The Opus writer stores the track gain, stores the album gain in album
   * mode and drops it otherwise, removes the REPLAYGAIN album and extra
   * names, and keeps every unrelated key.
   */
  lemma OpusWrittenSound(m: Items, doAlbum: bool, trackText: string, albumText: string, k: string)
    ensures var r := OpusWritten(m, doAlbum, trackText, albumText);
      R128Track in r && r[R128Track] == [trackText]
      && (doAlbum ==> R128Album in r && r[R128Album] == [albumText])
      && (!doAlbum ==> R128Album !in r)
      && (forall t :: t in ExtraTags || (!doAlbum && t in AlbumTags) ==> UpperName(t) !in r)
      && (Upper(k) != R128Track && Upper(k) != R128Album && k !in MatchNames(Xiph, AllTags) ==>
            (k in r <==> k in m) && (k in m ==> r[k] == m[k]))
  {
    OpusGainsStored(m, doAlbum, trackText, albumText);
    forall t | t in ExtraTags || (!doAlbum && t in AlbumTags)
      ensures UpperName(t) !in OpusWritten(m, doAlbum, trackText, albumText)
    {
      OpusDropsRgNames(m, doAlbum, trackText, albumText, t);
    }
    if Upper(k) != R128Track && Upper(k) != R128Album && k !in MatchNames(Xiph, AllTags) {
      OpusKeepsOthers(m, doAlbum, trackText, albumText, k);
    }
  }

  /** What tag_write_ogg_opus ORs into save, step by step. */
  predicate OpusSaves(m: Items, doAlbum: bool, trackText: string, albumText: string)
  {
    var m1 := Updated(m, R128Track, trackText);
    var m2 := if doAlbum then Updated(m1, R128Album, albumText)
              else (m1 - MatchNames(Xiph, AlbumTags)) - {R128Album};
    UpdateChanges(m, R128Track, trackText)
    || (doAlbum && UpdateChanges(m1, R128Album, albumText))
    || (!doAlbum && (ExactHit(m1, MatchNames(Xiph, AlbumTags)) || R128Album in m1))
    || ExactHit(m2, MatchNames(Xiph, ExtraTags))
  }

  lemma OpusQuiet(m: Items, doAlbum: bool, trackText: string, albumText: string)
    requires !OpusSaves(m, doAlbum, trackText, albumText)
    ensures OpusWritten(m, doAlbum, trackText, albumText) == m
  {
    var m1 := Updated(m, R128Track, trackText);
    UpdateChangesIff(m, R128Track, trackText);
    UpdateChangesIff(m1, R128Album, albumText);
  }

  lemma OpusFixpointQuiet(m: Items, doAlbum: bool, trackText: string, albumText: string)
    requires OpusWritten(m, doAlbum, trackText, albumText) == m
    ensures !OpusSaves(m, doAlbum, trackText, albumText)
  {
    OpusGainsStored(m, doAlbum, trackText, albumText);
    R128Names();
    assert Variants(m, R128Track) == {};
    UpdateChangesIff(m, R128Track, trackText);
    var m1 := Updated(m, R128Track, trackText);
    assert m1 == m;
    if doAlbum {
      assert Variants(m1, R128Album) == {};
    } else {
      forall t | t in AlbumTags
        ensures UpperName(t) !in m1
      {
        OpusDropsRgNames(m, doAlbum, trackText, albumText, t);
      }
    }
    forall t | t in ExtraTags
      ensures UpperName(t) !in m
    {
      OpusDropsRgNames(m, doAlbum, trackText, albumText, t);
    }
  }

  /** The Opus writer sets save exactly when it leaves the comment different. */
  lemma OpusSaveIffChanged(m: Items, doAlbum: bool, trackText: string, albumText: string)
    ensures OpusSaves(m, doAlbum, trackText, albumText) <==> OpusWritten(m, doAlbum, trackText, albumText) != m
  {
    if !OpusSaves(m, doAlbum, trackText, albumText) {
      OpusQuiet(m, doAlbum, trackText, albumText);
    }
    if OpusWritten(m, doAlbum, trackText, albumText) == m {
      OpusFixpointQuiet(m, doAlbum, trackText, albumText);
    }
  }

  /** The comment tag_remove_ogg_opus leaves: every ReplayGain and both R128 names gone. */
  function OpusCleared(m: Items): Items
  {
    (m - MatchNames(Xiph, AllTags)) - {R128Track, R128Album}
  }

  /** A removal reports a change exactly when it removes something. */
  lemma RemovalHitsIff(b: Backend, m: Items, ts: set<RgTag>)
    ensures RemovalHits(b, m, ts) <==> Removed(b, m, ts) != m
  {
    CaselessRemovedSound(m, MatchNames(b, ts), "");
    if b == Xiph && ExactHit(m, MatchNames(b, ts)) {
      var n :| n in MatchNames(b, ts) && n in m;
      assert n !in Removed(b, m, ts);
    }
  }

  /** The Opus gains are Q7.8 numbers: within 1/512 of the gain, and exact for gains on the 1/256 grid. */
  lemma OpusGainText(m: Items, doAlbum: bool, trackGain: real, albumGain: real, decimal: int -> string)
    ensures var r := OpusWritten(m, doAlbum, decimal(Q78(trackGain)), decimal(Q78(albumGain)));
      R128Track in r && r[R128Track] == [decimal(Q78(trackGain))]
      && -1.0 / 512.0 <= Q78(trackGain) as real / 256.0 - trackGain <= 1.0 / 512.0
      && (doAlbum ==> R128Album in r && r[R128Album] == [decimal(Q78(albumGain))])
  {
    OpusGainsStored(m, doAlbum, decimal(Q78(trackGain)), decimal(Q78(albumGain)));
    Q78Laws(trackGain, 0);
  }

  /** A tag store object, as the writers see TagLib's tag. */
  class Store {
    var items: Items

    constructor(initial: Items)
      ensures items == initial
    {
      items := initial;
    }

    /** tag_update_flac / tag_update_ape / tag_update_asf. */
    method Update(key: string, value: string) returns (updated: bool)
      modifies this
      ensures items == Updated(old(items), key, value)
      ensures updated == UpdateChanges(old(items), key, value)
    {
      var snapshot := items;
      var rest := snapshot.Keys;
      var found := false;
      var list: set<string> := {};
      updated := false;
      while rest != {}
        invariant rest <= snapshot.Keys
        invariant found <==> key in snapshot && key !in rest
        invariant list == Variants(snapshot, key) - rest
        invariant items == if found && snapshot[key] != [value] then snapshot[key := [value]] else snapshot
        invariant updated <==> found && snapshot[key] != [value]
        decreases rest
      {
        var desc :| desc in rest;
        var cmp := StrCompare(desc, key);
        if cmp == 0 {
          found := true;
          if snapshot[desc] != [value] {
            updated := true;
            items := items[desc := [value]];
          }
        } else if cmp == 1 {
          list := list + {desc};
        }
        rest := rest - {desc};
      }
      if list != {} {
        updated := true;
        items := (items - list)[key := [value]];
      } else if !found {
        updated := true;
        items := items[key := [value]];
      }
    }

    /** tag_update_mp4 with every access through the prefixed key. */
    method UpdateMp4(key: string, value: string) returns (updated: bool)
      modifies this
      ensures items == Mp4Updated(old(items), TagName(key), value)
      ensures updated == Mp4UpdateChanges(old(items), TagName(key), value)
    {
      var tk := TagName(key);
      var snapshot := items;
      var rest := snapshot.Keys;
      var found := false;
      var list: set<string> := {};
      updated := false;
      while rest != {}
        invariant rest <= snapshot.Keys
        invariant found <==> tk in snapshot && tk !in rest
        invariant list == Variants(snapshot, tk) - rest
        invariant items == if found && value !in snapshot[tk] then snapshot[tk := [value]] else snapshot
        invariant updated <==> found && value !in snapshot[tk]
        decreases rest
      {
        var desc :| desc in rest;
        var cmp := StrCompare(desc, tk);
        if cmp == 0 {
          found := true;
          if value !in snapshot[desc] {
            updated := true;
            items := items[desc := [value]];
          }
        } else if cmp == 1 {
          list := list + {desc};
        }
        rest := rest - {desc};
      }
      if list != {} {
        updated := true;
        items := (items - list)[tk := [value]];
      } else if !found {
        updated := true;
        items := items[tk := [value]];
      }
    }

    /** tag_remove_album_flac / tag_remove_extra_flac / tag_remove_flac: exact keys, all or nothing. */
    method RemoveExact(names: set<string>) returns (rm: bool)
      modifies this
      ensures items == old(items) - names
      ensures rm == ExactHit(old(items), names)
    {
      rm := exists n :: n in names && n in items;
      if rm {
        items := items - names;
      }
    }

    /** tag_remove_*_ape / _asf / _mp4: every key that upper-cases to one of the names. */
    method RemoveCaseless(names: set<string>) returns (rm: bool)
      modifies this
      ensures items == CaselessRemoved(old(items), names)
      ensures rm == CaselessHit(old(items), names)
    {
      var snapshot := items;
      var rest := snapshot.Keys;
      rm := false;
      while rest != {}
        invariant rest <= snapshot.Keys
        invariant items == map k | k in snapshot && (k in rest || Upper(k) !in names) :: snapshot[k]
        invariant rm <==> exists k :: k in snapshot && k !in rest && Upper(k) in names
        decreases rest
      {
        var desc :| desc in rest;
        if Upper(desc) in names {
          rm := true;
          items := items - {desc};
        }
        rest := rest - {desc};
      }
    }

    /**
     * tags_present_ogg / _ape / _asf / _mp4: collect the distinct
     * upper-cased keys that are among the names and compare their number
     * with the one the mode asks for.
     */
    method TagsPresent(names: set<string>, doAlbum: bool, mode: char) returns (present: bool)
      ensures present <==> |PresentNames(items.Keys, names)| == ExpectedCount(doAlbum, mode)
    {
      var rest := items.Keys;
      var rgtags: set<string> := {};
      while rest != {}
        invariant rest <= items.Keys
        invariant rgtags == PresentNames(items.Keys - rest, names)
        decreases rest
      {
        var desc :| desc in rest;
        if Upper(desc) in names {
          rgtags := rgtags + {Upper(desc)};
        }
        rest := rest - {desc};
      }
      assert items.Keys - rest == items.Keys;
      present := |rgtags| == ExpectedCount(doAlbum, mode);
    }

    /** tag_remove_flac, tag_remove_ape, tag_remove_asf, tag_remove_mp4: every ReplayGain name. */
    method ClearTags(b: Backend) returns (rm: bool)
      modifies this
      ensures items == Removed(b, old(items), AllTags)
      ensures rm == RemovalHits(b, old(items), AllTags)
    {
      if b == Xiph {
        rm := RemoveExact(MatchNames(b, AllTags));
      } else {
        rm := RemoveCaseless(MatchNames(b, AllTags));
      }
    }

    /**
     * tag_write_ogg_opus: the gains are stored as decimal Q7.8 numbers
     * (section 5.2.1 of RFC 7845); decimal stands for the "%d" formatting.
     */
    method WriteOpus(doAlbum: bool, trackGain: real, albumGain: real, decimal: int -> string)
      returns (save: bool)
      modifies this
      ensures items == OpusWritten(old(items), doAlbum, decimal(Q78(trackGain)), decimal(Q78(albumGain)))
      ensures save <==> items != old(items)
    {
      ghost var m := items;
      var trackText := decimal(Q78(trackGain));
      var albumText := decimal(Q78(albumGain));
      save := Update(R128Track, trackText);
      var c := OpusAlbumStep(doAlbum, albumText);
      save := c || save;
      c := RemoveExact(MatchNames(Xiph, ExtraTags));
      save := c || save;
      OpusSaveIffChanged(m, doAlbum, trackText, albumText);
    }

    /**
     * The album part of tag_write_ogg_opus: the album gain is updated in
     * album mode; otherwise the ReplayGain album names and the R128 album
     * gain are removed.
     */
    method OpusAlbumStep(doAlbum: bool, albumText: string) returns (save: bool)
      modifies this
      ensures items == if doAlbum then Updated(old(items), R128Album, albumText)
                       else (old(items) - MatchNames(Xiph, AlbumTags)) - {R128Album}
      ensures save == if doAlbum then UpdateChanges(old(items), R128Album, albumText)
                      else ExactHit(old(items), MatchNames(Xiph, AlbumTags)) || R128Album in old(items)
    {
      if doAlbum {
        save := Update(R128Album, albumText);
      } else {
        save := RemoveExact(MatchNames(Xiph, AlbumTags));
        NotRgName(R128Album);
        if R128Album in items {
          items := items - {R128Album};
          save := true;
        }
      }
    }

    /** tag_remove_ogg_opus. */
    method ClearOpus() returns (save: bool)
      modifies this
      ensures items == OpusCleared(old(items))
      ensures save <==> items != old(items)
    {
      save := RemoveExact(MatchNames(Xiph, AllTags));
      if R128Track in items || R128Album in items {
        save := true;
        items := items - {R128Track, R128Album};
      }
    }

    /** One step of a writer, through the backend's update and removal functions. */
    method ApplyStep(b: Backend, lowercase: bool, s: Step, values: RgTag -> string) returns (changed: bool)
      modifies this
      ensures items == StepResult(b, lowercase, old(items), s, values)
      ensures changed == StepChanges(b, lowercase, old(items), s, values)
    {
      match s
      case Write(t) =>
        if b == Mp4 {
          changed := UpdateMp4(Name(t, lowercase), values(t));
        } else {
          changed := Update(KeyFor(b, lowercase, t), values(t));
        }
      case RemoveAlbum =>
        if b == Xiph {
          changed := RemoveExact(MatchNames(b, AlbumTags));
        } else {
          changed := RemoveCaseless(MatchNames(b, AlbumTags));
        }
      case RemoveExtra =>
        if b == Xiph {
          changed := RemoveExact(MatchNames(b, ExtraTags));
        } else {
          changed := RemoveCaseless(MatchNames(b, ExtraTags));
        }
    }

    /** One step of a writer, with the steps done so far and the save flag carried along. */
    method Perform(b: Backend, lowercase: bool, s: Step, values: RgTag -> string,
                   ghost m0: Items, ghost done: seq<Step>, save0: bool, save: bool)
      returns (save': bool)
      requires items == Applied(b, lowercase, m0, done, values)
      requires save == (save0 || AnyChange(b, lowercase, m0, done, values))
      modifies this
      ensures items == Applied(b, lowercase, m0, done + [s], values)
      ensures save' == (save0 || AnyChange(b, lowercase, m0, done + [s], values))
    {
      AppliedSnoc(b, lowercase, m0, done, s, values);
      var c := ApplyStep(b, lowercase, s, values);
      save' := c || save;
    }

    /** Track gain and peak, always written. */
    method WriteTrackSteps(b: Backend, lowercase: bool, values: RgTag -> string,
                   ghost m0: Items, ghost done: seq<Step>, save0: bool, save: bool)
      returns (save': bool)
      requires items == Applied(b, lowercase, m0, done, values)
      requires save == (save0 || AnyChange(b, lowercase, m0, done, values))
      modifies this
      ensures items == Applied(b, lowercase, m0, done + TrackSteps(), values)
      ensures save' == (save0 || AnyChange(b, lowercase, m0, done + TrackSteps(), values))
    {
      save' := Perform(b, lowercase, Write(TrackGain), values, m0, done, save0, save);
      save' := Perform(b, lowercase, Write(TrackPeak), values, m0, done + [Write(TrackGain)], save0, save');
      assert done + [Write(TrackGain)] + [Write(TrackPeak)] == done + TrackSteps();
    }

    /** Album gain and peak in album mode, else the album removal. */
    method WriteAlbumSteps(b: Backend, doAlbum: bool, lowercase: bool, values: RgTag -> string,
                   ghost m0: Items, ghost done: seq<Step>, save0: bool, save: bool)
      returns (save': bool)
      requires items == Applied(b, lowercase, m0, done, values)
      requires save == (save0 || AnyChange(b, lowercase, m0, done, values))
      modifies this
      ensures items == Applied(b, lowercase, m0, done + AlbumSteps(doAlbum), values)
      ensures save' == (save0 || AnyChange(b, lowercase, m0, done + AlbumSteps(doAlbum), values))
    {
      if doAlbum {
        save' := Perform(b, lowercase, Write(AlbumGain), values, m0, done, save0, save);
        save' := Perform(b, lowercase, Write(AlbumPeak), values, m0, done + [Write(AlbumGain)], save0, save');
        assert done + [Write(AlbumGain)] + [Write(AlbumPeak)] == done + AlbumSteps(doAlbum);
      } else {
        save' := Perform(b, lowercase, RemoveAlbum, values, m0, done, save0, save);
      }
    }

    /** Reference and ranges for modes 'e' and 'l', else the extra removal. */
    method WriteExtraSteps(b: Backend, doAlbum: bool, mode: char, lowercase: bool, values: RgTag -> string,
                   ghost m0: Items, ghost done: seq<Step>, save0: bool, save: bool)
      returns (save': bool)
      requires items == Applied(b, lowercase, m0, done, values)
      requires save == (save0 || AnyChange(b, lowercase, m0, done, values))
      modifies this
      ensures items == Applied(b, lowercase, m0, done + ExtraSteps(doAlbum, mode), values)
      ensures save' == (save0 || AnyChange(b, lowercase, m0, done + ExtraSteps(doAlbum, mode), values))
    {
      if mode == 'e' || mode == 'l' {
        save' := Perform(b, lowercase, Write(ReferenceLoudness), values, m0, done, save0, save);
        save' := Perform(b, lowercase, Write(TrackRange), values, m0, done + [Write(ReferenceLoudness)], save0, save');
        ghost var d2 := done + [Write(ReferenceLoudness)] + [Write(TrackRange)];
        if doAlbum {
          save' := Perform(b, lowercase, Write(AlbumRange), values, m0, d2, save0, save');
          assert d2 + [Write(AlbumRange)] == done + ExtraSteps(doAlbum, mode);
        } else {
          assert d2 == done + ExtraSteps(doAlbum, mode);
        }
      } else {
        save' := Perform(b, lowercase, RemoveExtra, values, m0, done, save0, save);
      }
    }

    /**
     * The tag part of tag_write_flac, tag_make_ogg, tag_write_ape,
     * tag_write_wavpack, tag_write_asf and tag_write_mp4. save0 is the flag
     * the writer starts from (true when the file had no tag of this kind
     * yet); the formatted values are given per tag.
     */
    method WriteTags(b: Backend, doAlbum: bool, mode: char, lowercase: bool,
                     values: RgTag -> string, save0: bool)
      returns (save: bool)
      modifies this
      ensures items == Applied(b, lowercase, old(items), Plan(doAlbum, mode), values)
      ensures save == (save0 || AnyChange(b, lowercase, old(items), Plan(doAlbum, mode), values))
    {
      ghost var m0 := items;
      save := WriteTrackSteps(b, lowercase, values, m0, [], save0, save0);
      assert [] + TrackSteps() == TrackSteps();
      save := WriteAlbumSteps(b, doAlbum, lowercase, values, m0, TrackSteps(), save0, save);
      save := WriteExtraSteps(b, doAlbum, mode, lowercase, values, m0, TrackSteps() + AlbumSteps(doAlbum), save0, save);
    }
  }
}
