/** The structured feedback the server pulls out of a tutor reply
    (extractLearningFeedback): every `[TAG]` is followed by a capture reaching
    to the next `[` or to the end of the reply, and the trimmed captures are
    collected per tag. */
module Feedback {
  import opened JsString

  const FeedbackTag: string := "[FEEDBACK]"
  const PronunciationTag: string := "[PRONUNCIATION]"
  const VocabularyTag: string := "[VOCABULARY]"

  /** A tag opens with `[` and holds no other `[`, so two of its occurrences
      never overlap and none hides inside a capture. */
  predicate IsTag(tag: string) {
    |tag| >= 1 && tag[0] == '[' && forall i :: 1 <= i < |tag| ==> tag[i] != '['
  }

  lemma ScannedTagsAreTags()
    ensures IsTag(FeedbackTag) && IsTag(PronunciationTag) && IsTag(VocabularyTag)
  {
  }

  /** Where the lazy capture `(.*?)(?=\[|$)` starting at `start` stops: at the
      next `[`, or at the end of the text. */
  function CaptureEnd(s: string, start: nat): (r: nat)
    requires start <= |s|
    ensures start <= r <= |s|
    ensures forall i :: start <= i < r ==> s[i] != '['
    ensures r < |s| ==> s[r] == '['
  {
    var b := IndexOf(s, "[", start);
    assert forall i :: start <= i && (b == -1 || i < b) && i < |s| ==> s[i] != '[' by {
      forall i | start <= i && (b == -1 || i < b) && i < |s| ensures s[i] != '[' {
        assert !OccursAt(s, "[", i);
        assert s[i..i + 1] == [s[i]];
      }
    }
    if b < 0 then |s| else b
  }

  /** Where the text captured after a tag starts and stops. */
  datatype Span = Span(start: nat, end: nat)

  /** The capture spans of `tag` that `exec` finds with the regex's
      `lastIndex` at `from`: each starts right after an occurrence of the tag
      and ends where the capture stops. */
  function Spans(s: string, tag: string, from: nat): (r: seq<Span>)
    requires from <= |s| && |tag| >= 1
    ensures forall i :: 0 <= i < |r| ==> from + |tag| <= r[i].start <= r[i].end <= |s|
    decreases |s| - from
  {
    var k := IndexOf(s, tag, from);
    if k < 0 then []
    else [Span(k + |tag|, CaptureEnd(s, k + |tag|))] + Spans(s, tag, CaptureEnd(s, k + |tag|))
  }

  lemma SpansUnfold(s: string, tag: string, from: nat, k: nat, end: nat)
    requires from <= |s| && |tag| >= 1
    requires k == IndexOf(s, tag, from)
    requires k + |tag| <= |s| && end == CaptureEnd(s, k + |tag|)
    ensures Spans(s, tag, from) == [Span(k + |tag|, end)] + Spans(s, tag, end)
  {
  }

  lemma AppendAssoc<T>(a: seq<T>, b: seq<T>, c: seq<T>)
    ensures a + (b + c) == (a + b) + c
  {
  }

  predicate InText(s: string, spans: seq<Span>) {
    forall i :: 0 <= i < |spans| ==> spans[i].start <= spans[i].end <= |s|
  }

  /** The trimmed text of each span (`match[1].trim()`). */
  function Texts(s: string, spans: seq<Span>): (r: seq<string>)
    requires InText(s, spans)
    ensures |r| == |spans|
  {
    if spans == [] then [] else [Trim(s[spans[0].start..spans[0].end])] + Texts(s, spans[1..])
  }

  lemma TextsCons(s: string, lo: nat, hi: nat, spans: seq<Span>, all: seq<Span>)
    requires InText(s, spans) && lo <= hi <= |s|
    requires all == [Span(lo, hi)] + spans
    ensures InText(s, all)
    ensures Texts(s, all) == [Trim(s[lo..hi])] + Texts(s, spans)
  {
    assert all[1..] == spans;
  }

  lemma {:induction false} TextsAt(s: string, spans: seq<Span>, i: nat)
    requires InText(s, spans) && i < |spans|
    ensures Texts(s, spans)[i] == Trim(s[spans[i].start..spans[i].end])
  {
    if i > 0 {
      TextsAt(s, spans[1..], i - 1);
    }
  }

  /** What the regex loop collects for one tag once `lastIndex` is `from`. */
  function CapturesFrom(s: string, tag: string, from: nat): seq<string>
    requires from <= |s| && |tag| >= 1
  {
    Texts(s, Spans(s, tag, from))
  }

  /** What the regex loop collects for one tag. */
  function TagCaptures(s: string, tag: string): seq<string>
    requires |tag| >= 1
  {
    CapturesFrom(s, tag, 0)
  }

  /** One step of the loop: the tag found at `k` contributes its trimmed
      capture, and the scan resumes where the capture ends. */
  lemma CapturesFromUnfold(s: string, tag: string, from: nat, k: int, end: nat)
    requires from <= |s| && |tag| >= 1
    requires k == IndexOf(s, tag, from) && k >= 0
    requires k + |tag| <= |s| && end == CaptureEnd(s, k + |tag|)
    ensures CapturesFrom(s, tag, from) == [Trim(s[k + |tag|..end])] + CapturesFrom(s, tag, end)
  {
    var rest := Spans(s, tag, end);
    var all := Spans(s, tag, from);
    SpansUnfold(s, tag, from, k, end);
    assert InText(s, rest);
    TextsCons(s, k + |tag|, end, rest, all);
  }

  lemma CapturesFromDone(s: string, tag: string, from: nat)
    requires from <= |s| && |tag| >= 1
    requires IndexOf(s, tag, from) < 0
    ensures CapturesFrom(s, tag, from) == []
  {
  }

  /** The `while ((match = regex.exec(reply)) !== null)` loop for one tag. */
  method ScanTag(s: string, tag: string) returns (captures: seq<string>)
    requires |tag| >= 1
    ensures captures == TagCaptures(s, tag)
  {
    captures := [];
    var lastIndex := 0;
    var k := IndexOf(s, tag, lastIndex);
    while k >= 0
      invariant 0 <= lastIndex <= |s|
      invariant k == IndexOf(s, tag, lastIndex)
      invariant captures + CapturesFrom(s, tag, lastIndex) == CapturesFrom(s, tag, 0)
      decreases |s| - lastIndex
    {
      var end := CaptureEnd(s, k + |tag|);
      var capture := Trim(s[k + |tag|..end]);
      CapturesFromUnfold(s, tag, lastIndex, k, end);
      AppendAssoc(captures, [capture], CapturesFrom(s, tag, end));
      captures := captures + [capture];
      lastIndex := end;
      k := IndexOf(s, tag, lastIndex);
    }
    CapturesFromDone(s, tag, lastIndex);
  }

  /** The learningFeedback record; `general` is never filled. */
  datatype LearningFeedback = LearningFeedback(grammar: seq<string>, pronunciation: seq<string>,
                                               vocabulary: seq<string>, general: seq<string>)

  function FeedbackOf(reply: string): LearningFeedback {
    LearningFeedback(TagCaptures(reply, FeedbackTag), TagCaptures(reply, PronunciationTag),
                     TagCaptures(reply, VocabularyTag), [])
  }

  method ExtractLearningFeedback(reply: string) returns (feedback: LearningFeedback)
    ensures feedback == FeedbackOf(reply)
  {
    var grammar := ScanTag(reply, FeedbackTag);
    var pronunciation := ScanTag(reply, PronunciationTag);
    var vocabulary := ScanTag(reply, VocabularyTag);
    feedback := LearningFeedback(grammar, pronunciation, vocabulary, []);
  }

  // ---------------------------------------------------------------- properties

  /** A capture is trimmed text free of `[`. */
  predicate CleanCapture(c: string) {
    (forall i :: 0 <= i < |c| ==> c[i] != '[') && (c == [] || (!IsSpace(c[0]) && !IsSpace(c[|c| - 1])))
  }

  /** No span holds a `[`. */
  lemma {:induction false} SpansHaveNoBracket(s: string, tag: string, from: nat)
    requires from <= |s| && |tag| >= 1
    ensures forall i, j :: 0 <= i < |Spans(s, tag, from)| && Spans(s, tag, from)[i].start <= j < Spans(s, tag, from)[i].end
              ==> s[j] != '['
    decreases |s| - from
  {
    var k := IndexOf(s, tag, from);
    if k >= 0 {
      var end := CaptureEnd(s, k + |tag|);
      SpansUnfold(s, tag, from, k, end);
      SpansHaveNoBracket(s, tag, end);
    }
  }

  lemma TrimmedSliceIsClean(s: string, lo: nat, hi: nat)
    requires lo <= hi <= |s|
    requires forall i :: lo <= i < hi ==> s[i] != '['
    ensures CleanCapture(Trim(s[lo..hi]))
  {
    TrimOmits(s[lo..hi], '[');
    TrimIsCore(s[lo..hi]);
  }

  /** Every capture is trimmed and holds no `[`. */
  lemma CapturesAreClean(s: string, tag: string)
    requires |tag| >= 1
    ensures forall i :: 0 <= i < |TagCaptures(s, tag)| ==> CleanCapture(TagCaptures(s, tag)[i])
  {
    var spans := Spans(s, tag, 0);
    SpansHaveNoBracket(s, tag, 0);
    forall i | 0 <= i < |spans| ensures CleanCapture(TagCaptures(s, tag)[i]) {
      TextsAt(s, spans, i);
      TrimmedSliceIsClean(s, spans[i].start, spans[i].end);
    }
  }

  /** The positions at and after `from` where `tag` occurs. */
  function Occurrences(s: string, tag: string, from: nat): set<nat> {
    set j: nat | from <= j <= |s| && OccursAt(s, tag, j)
  }

  /** Between an occurrence of a tag and the end of its capture the tag does
      not occur again. */
  lemma NoTagInsideCapture(s: string, tag: string, k: nat, j: nat)
    requires IsTag(tag) && OccursAt(s, tag, k)
    requires k < j < CaptureEnd(s, k + |tag|)
    ensures !OccursAt(s, tag, j)
  {
    if j < k + |tag| {
      assert s[j] == s[k..k + |tag|][j - k];
    }
    assert s[j] != '[';
    if j + |tag| <= |s| {
      assert s[j..j + |tag|][0] == s[j];
    }
  }

  /** One capture per occurrence of the tag. */
  lemma {:induction false} SpanCountIsOccurrenceCount(s: string, tag: string, from: nat)
    requires from <= |s| && IsTag(tag)
    ensures |Spans(s, tag, from)| == |Occurrences(s, tag, from)|
    decreases |s| - from
  {
    var k := IndexOf(s, tag, from);
    if k < 0 {
      assert Occurrences(s, tag, from) == {};
    } else {
      var end := CaptureEnd(s, k + |tag|);
      SpansUnfold(s, tag, from, k, end);
      SpanCountIsOccurrenceCount(s, tag, end);
      forall j | j in Occurrences(s, tag, from) && j != k
        ensures j in Occurrences(s, tag, end)
      {
        if j < end {
          NoTagInsideCapture(s, tag, k, j);
        }
      }
      assert Occurrences(s, tag, from) == {k} + Occurrences(s, tag, end);
    }
  }

  lemma CaptureCountIsOccurrenceCount(s: string, tag: string)
    requires IsTag(tag)
    ensures |TagCaptures(s, tag)| == |Occurrences(s, tag, 0)|
  {
    SpanCountIsOccurrenceCount(s, tag, 0);
  }

  /** A reply written as `tag + item` for each item, in order. */
  function Render(tag: string, items: seq<string>): string {
    if items == [] then "" else tag + items[0] + Render(tag, items[1..])
  }

  lemma RenderStartsWithTag(tag: string, items: seq<string>)
    requires items != []
    ensures |Render(tag, items)| >= |tag| && Render(tag, items)[..|tag|] == tag
  {
  }

  lemma RenderCons(prefix: string, tag: string, items: seq<string>)
    requires items != []
    ensures prefix + Render(tag, items) == prefix + tag + items[0] + Render(tag, items[1..])
  {
    var rest := Render(tag, items[1..]);
    assert Render(tag, items) == tag + items[0] + rest;
    assert prefix + (tag + items[0] + rest) == prefix + tag + items[0] + rest;
  }

  /** In `prefix + tag + c + rest`, scanning from the end of the prefix finds
      the tag right there, and its capture is exactly `c`. */
  lemma RenderStep(prefix: string, tag: string, c: string, items: seq<string>)
    requires IsTag(tag) && CleanCapture(c)
    ensures var next := prefix + tag + c;
      var s := next + Render(tag, items);
      && IndexOf(s, tag, |prefix|) == |prefix|
      && |next| <= |s|
      && CaptureEnd(s, |prefix| + |tag|) == |next|
      && s[|prefix| + |tag|..|next|] == c
  {
    var next := prefix + tag + c;
    var s := next + Render(tag, items);
    assert OccursAt(s, tag, |prefix|) by {
      assert s[|prefix|..|prefix| + |tag|] == tag;
    }
    assert forall i :: |prefix| + |tag| <= i < |next| ==> s[i] != '[' by {
      forall i | |prefix| + |tag| <= i < |next| ensures s[i] != '[' {
        assert s[i] == c[i - |prefix| - |tag|];
      }
    }
    if items != [] {
      RenderStartsWithTag(tag, items);
      assert s[|next|] == Render(tag, items)[..|tag|][0];
    }
    assert s[|prefix| + |tag|..|next|] == c;
  }

  /** Scanning a rendered reply from the end of its prefix finds one span per
      item, holding exactly that item. */
  lemma {:induction false} SpansOfRender(prefix: string, tag: string, items: seq<string>)
    requires IsTag(tag)
    requires forall i :: 0 <= i < |items| ==> CleanCapture(items[i])
    ensures |Spans(prefix + Render(tag, items), tag, |prefix|)| == |items|
    ensures forall i :: 0 <= i < |items| ==>
              var sp := Spans(prefix + Render(tag, items), tag, |prefix|)[i];
              (prefix + Render(tag, items))[sp.start..sp.end] == items[i]
    decreases |items|
  {
    if items == [] {
      assert prefix + Render(tag, items) == prefix;
    } else {
      var c := items[0];
      var next := prefix + tag + c;
      var s := next + Render(tag, items[1..]);
      RenderCons(prefix, tag, items);
      RenderStep(prefix, tag, c, items[1..]);
      SpansOfRender(next, tag, items[1..]);
      SpansUnfold(s, tag, |prefix|, |prefix|, |next|);
      var rest := Spans(s, tag, |next|);
      forall i | 0 <= i < |items|
        ensures s[Spans(s, tag, |prefix|)[i].start..Spans(s, tag, |prefix|)[i].end] == items[i]
      {
        if i > 0 {
          assert Spans(s, tag, |prefix|)[i] == rest[i - 1];
        }
      }
    }
  }

  /** The scanner gives back the items a reply was rendered from. */
  lemma RenderRoundTrip(tag: string, items: seq<string>)
    requires IsTag(tag)
    requires forall i :: 0 <= i < |items| ==> CleanCapture(items[i])
    ensures TagCaptures(Render(tag, items), tag) == items
  {
    SpansOfRender("", tag, items);
    assert "" + Render(tag, items) == Render(tag, items);
    CapturesOfExactSpans(Render(tag, items), tag, items);
  }

  /** Spans that cut out clean items capture exactly those items. */
  lemma CapturesOfExactSpans(s: string, tag: string, items: seq<string>)
    requires |tag| >= 1
    requires forall i :: 0 <= i < |items| ==> CleanCapture(items[i])
    requires |Spans(s, tag, 0)| == |items|
    requires forall i :: 0 <= i < |items| ==>
               s[Spans(s, tag, 0)[i].start..Spans(s, tag, 0)[i].end] == items[i]
    ensures TagCaptures(s, tag) == items
  {
    var spans := Spans(s, tag, 0);
    forall i | 0 <= i < |items| ensures TagCaptures(s, tag)[i] == items[i] {
      TextsAt(s, spans, i);
      TrimUntouched(items[i]);
    }
  }
}
