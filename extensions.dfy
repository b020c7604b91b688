// The file-extension list of LoudGain: the supported set and the
// comma-separated user selection of setUserExtensions.
module Extensions {
  import opened Common

  /** The 18 extensions LoudGain can tag, each with its leading dot. */
  const SupportedExtensions: seq<string> :=
    [".mp3", ".flac", ".ogg", ".mov", ".mp4", ".m4a", ".alac", ".aac", ".3gp",
     ".3g2", ".mj2", ".asf", ".wma", ".wav", ".wv", ".aif", ".aiff", ".ape"]

  lemma SupportedShape()
    ensures |SupportedExtensions| == 18
    ensures forall i :: 0 <= i < |SupportedExtensions| ==>
      |SupportedExtensions[i]| >= 2 && SupportedExtensions[i][0] == '.'
  {
  }

  /**
   * The text between the commas of s, left to right: one field more than s
   * has commas, the last one being empty when s ends with a comma.
   */
  function Fields(s: string): (r: seq<string>)
    ensures |r| >= 1
  {
    if |s| == 0 then [""]
    else
      var init := Fields(s[..|s| - 1]);
      var c := s[|s| - 1];
      if c == ',' then init + [""]
      else init[..|init| - 1] + [init[|init| - 1] + [c]]
  }

  /** The fields put back together with a comma between neighbours. */
  function Join(ps: seq<string>): string
    requires |ps| >= 1
  {
    if |ps| == 1 then ps[0] else Join(ps[..|ps| - 1]) + "," + ps[|ps| - 1]
  }

  /** Joining one more field puts a comma before it. */
  lemma JoinSnoc(f: seq<string>, x: string)
    requires |f| >= 1
    ensures Join(f + [x]) == Join(f) + "," + x
  {
    assert (f + [x])[..|f|] == f;
  }

  /** Extending the last field by c extends the joined text by c. */
  lemma JoinExtendLast(g: seq<string>, last: string, c: char)
    ensures Join(g + [last + [c]]) == Join(g + [last]) + [c]
  {
    if |g| == 0 {
      assert g + [last + [c]] == [last + [c]];
      assert g + [last] == [last];
    } else {
      JoinSnoc(g, last + [c]);
      JoinSnoc(g, last);
      var j := Join(g) + ",";
      assert j + (last + [c]) == (j + last) + [c];
    }
  }

  /** No field holds a comma. */
  lemma {:induction false} FieldsCommaFree(s: string)
    ensures forall i :: 0 <= i < |Fields(s)| ==> ',' !in Fields(s)[i]
  {
    if |s| > 0 {
      var init := s[..|s| - 1];
      FieldsCommaFree(init);
      var f := Fields(init);
      var c := s[|s| - 1];
      if c != ',' {
        var r := f[..|f| - 1] + [f[|f| - 1] + [c]];
        forall i | 0 <= i < |r|
          ensures ',' !in r[i]
        {
          if i < |f| - 1 {
            assert r[i] == f[i];
          }
        }
      }
    }
  }

  /** Splitting and joining again gives back the text, and no field holds a comma. */
  lemma {:induction false} JoinFields(s: string)
    ensures Join(Fields(s)) == s
    ensures forall i :: 0 <= i < |Fields(s)| ==> ',' !in Fields(s)[i]
  {
    FieldsCommaFree(s);
    if |s| > 0 {
      var init := s[..|s| - 1];
      JoinFields(init);
      var f := Fields(init);
      var c := s[|s| - 1];
      if c == ',' {
        JoinSnoc(f, "");
      } else {
        var g := f[..|f| - 1];
        var last := f[|f| - 1];
        assert f == g + [last];
        JoinExtendLast(g, last, c);
        assert Fields(s) == g + [last + [c]];
      }
      assert s == init + [c];
    }
  }

  /** The last field is empty exactly when the text is empty or ends with a comma. */
  lemma LastField(s: string)
    ensures var f := Fields(s);
      f[|f| - 1] == "" <==> (|s| == 0 || s[|s| - 1] == ',')
  {
  }

  /**
   * What std::getline(stream, piece, ',') yields from s, in order: every
   * field, except that the text after the last comma is yielded only when it
   * is not empty.
   */
  function GetlinePieces(s: string): seq<string>
  {
    if |s| == 0 then []
    else
      var f := Fields(s);
      if f[|f| - 1] == "" then f[..|f| - 1] else f
  }

  /** Without a trailing comma the pieces are all the fields, and joining them gives back s. */
  lemma PiecesRejoin(s: string)
    requires |s| > 0 && s[|s| - 1] != ','
    ensures GetlinePieces(s) == Fields(s)
    ensures Join(GetlinePieces(s)) == s
  {
    LastField(s);
    JoinFields(s);
  }

  /**
   * The extension a piece stands for: two characters at least, a dot put in
   * front when the piece has none.
   */
  function Candidate(t: string): Option<string>
  {
    if |t| >= 2 && t[0] != '.' then Some("." + t)
    else if |t| >= 2 && t[0] == '.' then Some(t)
    else None
  }

  /** The candidates of the pieces, in order. */
  function Candidates(ps: seq<string>): seq<string>
  {
    if |ps| == 0 then []
    else
      Candidates(ps[..|ps| - 1])
        + (match Candidate(ps[|ps| - 1]) case Some(e) => [e] case None => [])
  }

  /** The members of es that are supported, in order. */
  function KeepSupported(es: seq<string>): seq<string>
  {
    if |es| == 0 then []
    else
      KeepSupported(es[..|es| - 1])
        + (if es[|es| - 1] in SupportedExtensions then [es[|es| - 1]] else [])
  }

  /** The list setUserExtensions stores for the given option text. */
  function Selected(s: string): seq<string>
  {
    KeepSupported(Candidates(GetlinePieces(s)))
  }

  /** Candidate never drops a piece of two characters and always yields a dotted name of at least two characters. */
  lemma CandidateShape(t: string)
    ensures Candidate(t).Some? <==> |t| >= 2
    ensures Candidate(t).Some? ==> |Candidate(t).value| >= 2 && Candidate(t).value[0] == '.'
    ensures Candidate(t).Some? && t[0] == '.' ==> Candidate(t).value == t
  {
  }

  /** A candidate list holds exactly the candidates of the pieces. */
  lemma {:induction false} CandidatesMembers(ps: seq<string>, e: string)
    ensures e in Candidates(ps) <==> exists i :: 0 <= i < |ps| && Candidate(ps[i]) == Some(e)
  {
    if |ps| > 0 {
      var init := ps[..|ps| - 1];
      CandidatesMembers(init, e);
      if e in Candidates(init) {
        var i :| 0 <= i < |init| && Candidate(init[i]) == Some(e);
        assert ps[i] == init[i];
      }
      if exists i :: 0 <= i < |ps| && Candidate(ps[i]) == Some(e) {
        var i :| 0 <= i < |ps| && Candidate(ps[i]) == Some(e);
        if i < |init| {
          assert init[i] == ps[i];
        }
      }
    }
  }

  /** Filtering keeps exactly the supported members. */
  lemma {:induction false} KeepSupportedMembers(es: seq<string>, e: string)
    ensures e in KeepSupported(es) <==> e in es && e in SupportedExtensions
  {
    if |es| > 0 {
      var init := es[..|es| - 1];
      KeepSupportedMembers(init, e);
      assert es == init + [es[|es| - 1]];
    }
  }

  /** Filtering a list with no supported member leaves nothing. */
  lemma {:induction false} KeepSupportedNone(es: seq<string>)
    requires forall e :: e in es ==> e !in SupportedExtensions
    ensures KeepSupported(es) == []
  {
    if |es| > 0 {
      var init := es[..|es| - 1];
      assert forall e :: e in init ==> e in es;
      KeepSupportedNone(init);
    }
  }

  /** Filtering respects concatenation, so the input order is kept. */
  lemma {:induction false} KeepSupportedAppend(a: seq<string>, b: seq<string>)
    ensures KeepSupported(a + b) == KeepSupported(a) + KeepSupported(b)
  {
    if |b| == 0 {
      assert a + b == a;
    } else {
      var init := b[..|b| - 1];
      KeepSupportedAppend(a, init);
      assert (a + b)[..|a + b| - 1] == a + init;
      assert (a + b)[|a + b| - 1] == b[|b| - 1];
    }
  }

  /**
   * The stored list holds only supported extensions, and every supported
   * extension some piece stands for is in it.
   */
  lemma SelectedSound(s: string, e: string)
    ensures e in Selected(s) <==>
      e in SupportedExtensions
      && exists i :: 0 <= i < |GetlinePieces(s)| && Candidate(GetlinePieces(s)[i]) == Some(e)
  {
    KeepSupportedMembers(Candidates(GetlinePieces(s)), e);
    CandidatesMembers(GetlinePieces(s), e);
  }

  /** A word without commas is a single field. */
  lemma {:induction false} FieldsOfWord(w: string)
    requires ',' !in w
    ensures Fields(w) == [w]
  {
    if |w| > 0 {
      var init := w[..|w| - 1];
      FieldsOfWord(init);
      assert init + [w[|w| - 1]] == w;
    }
  }

  /** "FLAC" is one piece. */
  lemma FlacPieces()
    ensures GetlinePieces("FLAC") == ["FLAC"]
  {
    FieldsOfWord("FLAC");
  }

  /** No supported extension has an upper-case letter after its dot. */
  lemma UpperFlacUnsupported()
    ensures ".FLAC" !in SupportedExtensions
  {
    forall i | 0 <= i < |SupportedExtensions|
      ensures SupportedExtensions[i] != ".FLAC"
    {
      assert SupportedExtensions[i][1] != 'F';
    }
  }

  /** The check is case-sensitive: an upper-case extension is not selected. */
  lemma UpperCaseRejected()
    ensures Selected("FLAC") == []
  {
    FlacPieces();
    UpperFlacUnsupported();
    var ps := GetlinePieces("FLAC");
    assert "." + "FLAC" == ".FLAC";
    var cs := Candidates(ps);
    forall e | e in cs
      ensures e !in SupportedExtensions
    {
      CandidatesMembers(ps, e);
      assert e == ".FLAC";
    }
    KeepSupportedNone(cs);
  }
}
