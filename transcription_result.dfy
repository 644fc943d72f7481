/**
 * TranscriptionResult: the detected language and the timed segments of one transcription,
 * and the full transcript built from the segment texts.
 */
module Transcript {
  import opened JavaStrings

  /** A transcription segment; its start and end times (doubles) are not modelled. */
  datatype Segment = Segment(text: string)

  datatype TranscriptionResult = TranscriptionResult(detectedLanguage: Option<string>, segments: seq<Segment>)

  /** The trimmed segment texts. */
  function TrimmedTexts(segs: seq<Segment>): (r: seq<string>)
    ensures |r| == |segs| && forall i | 0 <= i < |segs| :: r[i] == Trim(segs[i].text)
  {
    seq(|segs|, i requires 0 <= i < |segs| => Trim(segs[i].text))
  }

  /** What the StringBuilder holds once the parts are appended: each part and a space. */
  function Spaced(parts: seq<string>): string {
    if parts == [] then "" else Spaced(parts[..|parts| - 1]) + parts[|parts| - 1] + " "
  }

  /** String.join(sep, parts). */
  function Join(sep: string, parts: seq<string>): string {
    if parts == [] then ""
    else if |parts| == 1 then parts[0]
    else Join(sep, parts[..|parts| - 1]) + sep + parts[|parts| - 1]
  }

  /** getFullTranscript: append every trimmed text and a space, then trim the whole. */
  method FullTranscript(result: TranscriptionResult) returns (r: string)
    ensures r == Trim(Spaced(TrimmedTexts(result.segments)))
  {
    var sb := "";
    var segs := result.segments;
    for i := 0 to |segs|
      invariant sb == Spaced(TrimmedTexts(segs[..i]))
    {
      ghost var ts := TrimmedTexts(segs[..i + 1]);
      assert ts[..i] == TrimmedTexts(segs[..i]);
      sb := sb + Trim(segs[i].text) + " ";
    }
    assert segs[..|segs|] == segs;
    r := Trim(sb);
  }

  /** The builder's text is the parts joined by single spaces, plus one trailing space. */
  lemma {:induction false} SpacedIsJoin(parts: seq<string>)
    requires parts != []
    ensures Spaced(parts) == Join(" ", parts) + " "
  {
    var n := |parts|;
    if n == 1 {
      assert Spaced(parts[..0]) == "";
    } else {
      SpacedIsJoin(parts[..n - 1]);
    }
  }

  /** Trimming ignores the trailing space the builder leaves. */
  lemma TrimIgnoresTrailingSpace(s: string)
    ensures Trim(s + " ") == Trim(s)
  {
    var a := DropLeading(s, IsTrimmable);
    DropLeadingSnoc(s, ' ');
    if a != [] {
      var t := a + " ";
      assert DropLeading(s + " ", IsTrimmable) == t;
      assert t[..|t| - 1] == a;
      assert DropTrailing(t, IsTrimmable) == DropTrailing(a, IsTrimmable);
    }
  }

  /** Dropping leading characters of s + [c]: the same as for s, with c still at the end unless all went. */
  lemma {:induction false} DropLeadingSnoc(s: string, c: char)
    requires IsTrimmable(c)
    ensures DropLeading(s + [c], IsTrimmable) ==
            if DropLeading(s, IsTrimmable) == [] then [] else DropLeading(s, IsTrimmable) + [c]
  {
    if s != [] && IsTrimmable(s[0]) {
      assert (s + [c])[1..] == s[1..] + [c];
      DropLeadingSnoc(s[1..], c);
    } else if s == [] {
      assert DropLeading([c], IsTrimmable) == DropLeading([], IsTrimmable);
    }
  }

  /** The full transcript is the trimmed segment texts, in order, joined by spaces and trimmed. */
  lemma FullTranscriptIsJoin(segs: seq<Segment>)
    ensures Trim(Spaced(TrimmedTexts(segs))) == Trim(Join(" ", TrimmedTexts(segs)))
  {
    var ts := TrimmedTexts(segs);
    if ts != [] {
      SpacedIsJoin(ts);
      TrimIgnoresTrailingSpace(Join(" ", ts));
    }
  }

  /** No segments: the empty transcript. */
  lemma FullTranscriptOfNoSegments()
    ensures Trim(Spaced(TrimmedTexts([]))) == ""
  {
    assert TrimmedTexts([]) == [];
  }

  /** One segment: its trimmed text. */
  lemma FullTranscriptOfOneSegment(text: string)
    ensures Trim(Spaced(TrimmedTexts([Segment(text)]))) == Trim(text)
  {
    var ts := TrimmedTexts([Segment(text)]);
    assert ts == [Trim(text)];
    SpacedOne(Trim(text));
    TrimIgnoresTrailingSpace(Trim(text));
    TrimIdempotent(text);
  }

  lemma SpacedOne(part: string)
    ensures Spaced([part]) == part + " "
  {
    assert [part][..0] == [];
  }

  lemma TrimIdempotent(s: string)
    ensures Trim(Trim(s)) == Trim(s)
  {
    var t := Trim(s);
    if t != [] {
      assert DropLeading(t, IsTrimmable) == t;
    }
  }

  /** A non-empty string that neither starts nor ends with a character trim removes. */
  predicate Unpadded(s: string) {
    s != [] && !IsTrimmable(s[0]) && !IsTrimmable(s[|s| - 1])
  }

  /** Parts that are all unpadded join into an unpadded string. */
  lemma {:induction false} JoinUnpadded(sep: string, parts: seq<string>)
    requires parts != [] && forall i | 0 <= i < |parts| :: Unpadded(parts[i])
    ensures Unpadded(Join(sep, parts))
  {
    var n := |parts|;
    if n > 1 {
      JoinUnpadded(sep, parts[..n - 1]);
      var j := Join(sep, parts[..n - 1]);
      assert Join(sep, parts) == j + sep + parts[n - 1];
      assert Unpadded(parts[n - 1]);
    }
  }

  lemma TrimUnpadded(s: string)
    requires Unpadded(s)
    ensures Trim(s) == s
  {
  }

  /** When every segment has text after trimming, the transcript is exactly the texts joined by single spaces. */
  lemma FullTranscriptOfNonBlankSegments(segs: seq<Segment>)
    requires forall i | 0 <= i < |segs| :: Trim(segs[i].text) != []
    ensures Trim(Spaced(TrimmedTexts(segs))) == Join(" ", TrimmedTexts(segs))
  {
    FullTranscriptIsJoin(segs);
    var ts := TrimmedTexts(segs);
    if ts != [] {
      NonBlankTextsUnpadded(segs);
      JoinUnpadded(" ", ts);
      TrimUnpadded(Join(" ", ts));
    }
  }

  /** A segment text that is not blank once trimmed is unpadded once trimmed. */
  lemma NonBlankTextsUnpadded(segs: seq<Segment>)
    requires forall i | 0 <= i < |segs| :: Trim(segs[i].text) != []
    ensures var ts := TrimmedTexts(segs); forall i | 0 <= i < |ts| :: Unpadded(ts[i])
  {
    var ts := TrimmedTexts(segs);
    forall i | 0 <= i < |ts|
      ensures Unpadded(ts[i])
    {
      assert ts[i] == Trim(segs[i].text);
    }
  }

  /** The transcript neither starts nor ends with a character trim would remove. */
  lemma FullTranscriptUnpadded(segs: seq<Segment>)
    ensures var r := Trim(Spaced(TrimmedTexts(segs)));
            r != [] ==> Unpadded(r)
  {
  }
}
