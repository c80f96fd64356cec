/**
  Segmentation of a streamed language-model reply into sentences for the
  robot to speak, the final joined reply, and the knowledge-graph speech
  loop that says a text chunk by chunk.

  Each received delta is appended to a buffer.  When the buffer holds a
  sentence-ending mark, the first mark in a fixed priority order is chosen,
  the trimmed buffer is split on it, the first piece (trimmed, with the mark)
  becomes a sentence, and the buffer restarts from the second piece.
*/
module Segmenter {
  import opened GoStrings
  import opened Wrappers

  /** Sentence-ending marks, in the order they are tried. */
  const Separators: seq<string> := ["...", ".'", ".\"", ".", "?", "!", "，", "。", "？", "！"]

  /** Every mark is non-empty and starts and ends with a non-space character. */
  lemma SeparatorShape(k: nat)
    requires k < |Separators|
    ensures |Separators[k]| > 0
    ensures !IsSpace(Separators[k][0]) && !IsSpace(Separators[k][|Separators[k]| - 1])
  {
  }

  /** Position in `Separators`, at or after `k`, of the first mark that occurs in `text`. */
  function FirstContained(text: string, k: nat): (r: Option<nat>)
    requires k <= |Separators|
    ensures r.None? <==> forall j :: k <= j < |Separators| ==> !Contains(text, Separators[j])
    ensures r.Some? ==> k <= r.value < |Separators| && Contains(text, Separators[r.value])
    ensures r.Some? ==> forall j :: k <= j < r.value ==> !Contains(text, Separators[j])
    decreases |Separators| - k
  {
    if k == |Separators| then None
    else if Contains(text, Separators[k]) then Some(k)
    else FirstContained(text, k + 1)
  }

  /** The mark chosen for `text`: the first of the priority list that occurs anywhere in it. */
  function ChooseSeparator(text: string): (r: Option<nat>)
    ensures r.None? <==> forall j :: 0 <= j < |Separators| ==> !Contains(text, Separators[j])
    ensures r.Some? ==> r.value < |Separators| && Contains(text, Separators[r.value])
    ensures r.Some? ==> forall j :: 0 <= j < r.value ==> !Contains(text, Separators[j])
  {
    FirstContained(text, 0)
  }

  /** The buffer after a delta, and the sentence completed by it, if any. */
  datatype StepResult = StepResult(buffer: string, sentence: Option<string>)

  /** One received delta, as the stream loop handles it. */
  function Step(buffer: string, delta: string): (r: StepResult)
    ensures r.sentence.None? <==> ChooseSeparator(buffer + delta).None?
    ensures r.sentence.None? ==> r.buffer == buffer + delta
  {
    var text := buffer + delta;
    match ChooseSeparator(text)
    case None => StepResult(text, None)
    case Some(k) =>
      SeparatorShape(k);
      TrimSpaceKeepsContains(text, Separators[k]);
      Cut(TrimSpace(text), Separators[k])
  }

  /** Splits the trimmed buffer on the chosen mark: the first piece becomes the sentence and the
      second piece the new buffer. */
  function Cut(trimmed: string, sep: string): StepResult
    requires |sep| > 0 && Contains(trimmed, sep)
  {
    var splitResp := Split(trimmed, sep);
    SplitFirstTwo(trimmed, sep);
    StepResult(splitResp[1], Some(TrimSpace(splitResp[0]) + sep))
  }

  /** The sentence is the trimmed text before the chosen mark, with the mark; the new buffer is
      the start of what follows the mark, and it is all of it exactly when the mark does not
      occur a second time. */
  lemma StepSentence(buffer: string, delta: string)
    requires ChooseSeparator(buffer + delta).Some?
    ensures var sep := Separators[ChooseSeparator(buffer + delta).value];
      var tt := TrimSpace(buffer + delta);
      && Contains(tt, sep)
      && Step(buffer, delta).sentence == Some(TrimSpace(Before(tt, sep)) + sep)
      && HasPrefix(After(tt, sep), Step(buffer, delta).buffer)
      && (Step(buffer, delta).buffer == After(tt, sep) <==> !Contains(After(tt, sep), sep))
  {
    var k := ChooseSeparator(buffer + delta).value;
    var sep := Separators[k];
    SeparatorShape(k);
    TrimSpaceKeepsContains(buffer + delta, sep);
    var tt := TrimSpace(buffer + delta);
    SplitFirstTwo(tt, sep);
    BeforeWhole(After(tt, sep), sep);
  }

  /** As written, a delta that completes two sentences with the same mark loses the text after
      the second one: it is neither spoken nor kept in the buffer. */
  lemma StepLosesText(buffer: string, delta: string)
    requires ChooseSeparator(buffer + delta).Some?
    requires var sep := Separators[ChooseSeparator(buffer + delta).value];
      var tt := TrimSpace(buffer + delta);
      Contains(tt, sep) && Contains(After(tt, sep), sep)
    ensures var sep := Separators[ChooseSeparator(buffer + delta).value];
      var tt := TrimSpace(buffer + delta);
      |Before(tt, sep)| + |sep| + |Step(buffer, delta).buffer| < |tt|
  {
    var k := ChooseSeparator(buffer + delta).value;
    var sep := Separators[k];
    var tt := TrimSpace(buffer + delta);
    StepSentence(buffer, delta);
    BeforeWhole(After(tt, sep), sep);
  }

  /** With a chosen mark, the step cuts the trimmed buffer on it. */
  lemma StepCuts(buffer: string, delta: string, k: nat)
    requires ChooseSeparator(buffer + delta) == Some(k)
    ensures |Separators[k]| > 0 && Contains(TrimSpace(buffer + delta), Separators[k])
    ensures Step(buffer, delta) == Cut(TrimSpace(buffer + delta), Separators[k])
  {
    SeparatorShape(k);
    TrimSpaceKeepsContains(buffer + delta, Separators[k]);
  }

  /** The cut in terms of the first two occurrences of the mark. */
  lemma CutPieces(trimmed: string, sep: string)
    requires |sep| > 0 && Contains(trimmed, sep)
    ensures Cut(trimmed, sep) == StepResult(Before(After(trimmed, sep), sep), Some(TrimSpace(Before(trimmed, sep)) + sep))
  {
    SplitFirstTwo(trimmed, sep);
  }

  /** A text without full stops that holds a question mark is cut on the question mark. */
  lemma ChooseQuestionMark(text: string)
    requires '.' !in text && '?' in text
    ensures ChooseSeparator(text) == Some(4)
  {
    forall j | 0 <= j < 4
      ensures !Contains(text, Separators[j])
    {
      AbsentCharNotContained(text, Separators[j], 0);
    }
    var i :| 0 <= i < |text| && text[i] == '?';
    assert OccursAt(text, Separators[4], i);
  }

  /** A family of replies that shows the loss: a first delta `a? b? c` with no full stops speaks
      `a?`, keeps `b` and drops `? c`; with `a`, `b`, `c` = "A", " B", " C" the delta is
      "A? B? C" and " C" is never spoken. */
  lemma StepLosesTextExample(a: string, b: string, c: string)
    requires '.' !in a + b + c && '?' !in a + b + c
    requires |a| > 0 && !IsSpace(a[0]) && !IsSpace(a[|a| - 1])
    requires |c| > 0 && !IsSpace(c[|c| - 1])
    ensures Step([], a + "?" + b + "?" + c) == StepResult(b, Some(a + "?"))
  {
    QuestionsChosen(a, b, c);
    QuestionsCut(a, b, c);
  }

  lemma QuestionsChosen(a: string, b: string, c: string)
    requires '.' !in a + b + c && '?' !in a + b + c
    requires |a| > 0 && !IsSpace(a[0]) && !IsSpace(a[|a| - 1])
    requires |c| > 0 && !IsSpace(c[|c| - 1])
    ensures Contains(a + "?" + b + "?" + c, "?")
    ensures Step([], a + "?" + b + "?" + c) == Cut(a + "?" + b + "?" + c, "?")
  {
    var text := a + "?" + b + "?" + c;
    assert Separators[4] == "?";
    assert [] + text == text;
    assert '.' !in text && text[|a|] == '?';
    ChooseQuestionMark(text);
    TrimSpaceOfTrimmed(text);
    StepCuts([], text, 4);
  }

  lemma QuestionsCut(a: string, b: string, c: string)
    requires '?' !in a + b + c
    requires |a| > 0 && !IsSpace(a[0]) && !IsSpace(a[|a| - 1])
    ensures Contains(a + "?" + b + "?" + c, "?")
    ensures Cut(a + "?" + b + "?" + c, "?") == StepResult(b, Some(a + "?"))
  {
    var text := a + "?" + b + "?" + c;
    assert text[..|a|] == a && text[|a|..|a| + 1] == "?";
    FirstOccurrence(text, "?", |a|);
    var rest := text[|a| + 1..];
    assert rest == b + "?" + c;
    assert rest[..|b|] == b && rest[|b|..|b| + 1] == "?";
    FirstOccurrence(rest, "?", |b|);
    CutPieces(text, "?");
    TrimSpaceOfTrimmed(a);
  }

  /** The step with the evidently intended effect: the buffer keeps everything after the chosen
      mark, so the text after a second mark is spoken later instead of being lost. */
  function StepKeep(buffer: string, delta: string): (r: StepResult)
    ensures r.sentence.None? <==> ChooseSeparator(buffer + delta).None?
    ensures r.sentence.None? ==> r.buffer == buffer + delta
    ensures r.sentence.Some? ==>
      var sep := Separators[ChooseSeparator(buffer + delta).value];
      var tt := TrimSpace(buffer + delta);
      && Contains(tt, sep)
      && r.sentence.value == TrimSpace(Before(tt, sep)) + sep
      && Before(tt, sep) + sep + r.buffer == tt
  {
    var text := buffer + delta;
    match ChooseSeparator(text)
    case None => StepResult(text, None)
    case Some(k) =>
      var sep := Separators[k];
      SeparatorShape(k);
      TrimSpaceKeepsContains(text, sep);
      var tt := TrimSpace(text);
      StepResult(After(tt, sep), Some(TrimSpace(Before(tt, sep)) + sep))
  }

  /** A sentence handed to the robot ends with one of the marks. */
  predicate EndsWithMark(sentence: string)
  {
    exists k :: 0 <= k < |Separators| && HasSuffix(sentence, Separators[k])
  }

  /** Buffer and completed sentences after a sequence of deltas. */
  datatype StreamState = StreamState(buffer: string, sentences: seq<string>)

  /** The state of the stream loop after `deltas`, starting from an empty buffer. */
  function Segmented(deltas: seq<string>): StreamState
  {
    if deltas == [] then StreamState([], [])
    else
      var prev := Segmented(deltas[..|deltas| - 1]);
      var r := Step(prev.buffer, deltas[|deltas| - 1]);
      match r.sentence
      case None => StreamState(r.buffer, prev.sentences)
      case Some(s) => StreamState(r.buffer, prev.sentences + [s])
  }

  /** Each delta completes at most one sentence, and every sentence ends with a mark. */
  lemma {:induction false} SegmentedSentences(deltas: seq<string>)
    ensures |Segmented(deltas).sentences| <= |deltas|
    ensures forall k :: 0 <= k < |Segmented(deltas).sentences| ==> EndsWithMark(Segmented(deltas).sentences[k])
  {
    if deltas != [] {
      var init := deltas[..|deltas| - 1];
      SegmentedSentences(init);
      var prev := Segmented(init);
      var r := Step(prev.buffer, deltas[|deltas| - 1]);
      if r.sentence.Some? {
        StepSentence(prev.buffer, deltas[|deltas| - 1]);
        var k := ChooseSeparator(prev.buffer + deltas[|deltas| - 1]).value;
        var sep := Separators[k];
        var head := TrimSpace(Before(TrimSpace(prev.buffer + deltas[|deltas| - 1]), sep));
        assert HasSuffix(r.sentence.value, Separators[k]) by {
          assert r.sentence.value == head + sep;
        }
      }
    }
  }

  /** The receive loop over the deltas of one reply. */
  method ConsumeStream(deltas: seq<string>) returns (buffer: string, sentences: seq<string>)
    ensures StreamState(buffer, sentences) == Segmented(deltas)
  {
    buffer, sentences := [], [];
    for i := 0 to |deltas|
      invariant StreamState(buffer, sentences) == Segmented(deltas[..i])
    {
      assert deltas[..i + 1][..i] == deltas[..i];
      var r := Step(buffer, deltas[i]);
      buffer := r.buffer;
      if r.sentence.Some? {
        sentences := sentences + [r.sentence.value];
      }
    }
    assert deltas[..|deltas|] == deltas;
  }

  /** The full reply at end of stream: the sentences joined by single spaces, left to right. */
  method JoinSentences(sentences: seq<string>) returns (newStr: string)
    ensures newStr == Join(sentences, " ")
  {
    if |sentences| == 0 {
      return [];
    }
    newStr := sentences[0];
    for i := 1 to |sentences|
      invariant newStr == Join(sentences[..i], " ")
    {
      JoinSnoc(sentences[..i], sentences[i], " ");
      assert sentences[..i + 1] == sentences[..i] + [sentences[i]];
      newStr := newStr + " " + sentences[i];
    }
    assert sentences[..|sentences|] == sentences;
  }

  // ---------------------------------------------------------------------
  // Knowledge-graph speech

  /** The texts the speech loop sends for `textToSay`: every piece between `". "` marks, with a
      full stop put back. */
  function Utterances(textToSay: string): (r: seq<string>)
    ensures |r| == |Split(textToSay, ". ")|
    ensures forall k :: 0 <= k < |r| ==> r[k] == Split(textToSay, ". ")[k] + "."
  {
    var pieces := Split(textToSay, ". ");
    seq(|pieces|, k requires 0 <= k < |pieces| => pieces[k] + ".")
  }

  /** Removing the put-back full stops and joining with `". "` gives the text back. */
  lemma UtterancesRecover(textToSay: string)
    ensures var u := Utterances(textToSay);
      Join(seq(|u|, k requires 0 <= k < |u| => u[k][..|u[k]| - 1]), ". ") == textToSay
  {
    var u := Utterances(textToSay);
    var pieces := Split(textToSay, ". ");
    assert seq(|u|, k requires 0 <= k < |u| => u[k][..|u[k]| - 1]) == pieces by {
      forall k | 0 <= k < |u| ensures u[k][..|u[k]| - 1] == pieces[k] {
        assert u[k] == pieces[k] + ".";
      }
    }
    JoinSplit(textToSay, ". ");
  }

  /** The speech loop: the utterances are said in order and the loop stops after the first one
      the robot fails on; `fails(k)` is the robot's answer to the `k`-th request. */
  method SpeakChunks(textToSay: string, fails: nat -> bool) returns (said: seq<string>)
    ensures 1 <= |said| <= |Utterances(textToSay)|
    ensures said == Utterances(textToSay)[..|said|]
    ensures forall k :: 0 <= k < |said| - 1 ==> !fails(k)
    ensures |said| < |Utterances(textToSay)| ==> fails(|said| - 1)
  {
    var textToSaySplit := Split(textToSay, ". ");
    var u := Utterances(textToSay);
    said := [];
    var i := 0;
    while i < |textToSaySplit|
      invariant 0 <= i <= |textToSaySplit|
      invariant said == u[..i]
      invariant forall k :: 0 <= k < i ==> !fails(k)
    {
      said := said + [textToSaySplit[i] + "."];
      assert u[..i + 1] == u[..i] + [u[i]];
      if fails(i) {
        return;
      }
      i := i + 1;
    }
  }
}
