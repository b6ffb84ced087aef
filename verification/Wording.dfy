/** Counting and cutting words, with ASCII white space. A word is a maximal run of other characters. */
module Wording {
  predicate Space(c: char) {
    c == ' ' || c == '\t' || c == '\n' || c == '\r' || c == '\U{000B}' || c == '\U{000C}'
  }

  /** How many words start in the text. */
  function Words(text: string): nat {
    if text == "" then 0
    else
      var n := |text| - 1;
      Words(text[..n]) + if !Space(text[n]) && (n == 0 || Space(text[n - 1])) then 1 else 0
  }

  predicate Solid(text: string) {
    forall i | 0 <= i < |text| :: !Space(text[i])
  }

  /** The last word of one text and the first of the next grow together. */
  predicate Glued(a: string, b: string) {
    a != "" && b != "" && !Space(a[|a| - 1]) && !Space(b[0])
  }

  lemma {:induction false} WordsConcat(a: string, b: string)
    ensures Words(a + b) + (if Glued(a, b) then 1 else 0) == Words(a) + Words(b)
  {
    if b == "" {
      assert a + b == a;
    } else {
      var n := |b| - 1;
      WordsConcat(a, b[..n]);
      assert (a + b)[..|a + b| - 1] == a + b[..n];
      if n == 0 { assert a + b[..n] == a; }
    }
  }

  lemma {:induction false} SolidWords(text: string)
    requires Solid(text)
    ensures Words(text) == if text == "" then 0 else 1
  {
    if |text| > 0 { SolidWords(text[..|text| - 1]); }
  }

  lemma {:induction false} BlankWords(text: string)
    requires forall i | 0 <= i < |text| :: Space(text[i])
    ensures Words(text) == 0
  {
    if text != "" { BlankWords(text[..|text| - 1]); }
  }

  function SolidLength(text: string): (n: nat)
    ensures n <= |text| && Solid(text[..n]) && (n < |text| ==> Space(text[n]))
  {
    if text == "" || Space(text[0]) then 0
    else
      var n := SolidLength(text[1..]);
      assert text[..n + 1] == [text[0]] + text[1..][..n];
      n + 1
  }

  predicate AllSolid(words: seq<string>) {
    forall i | 0 <= i < |words| :: words[i] != "" && Solid(words[i])
  }

  /** `split()`. */
  function SplitWords(text: string): (words: seq<string>)
    ensures AllSolid(words)
    decreases |text|
  {
    if text == "" then []
    else if Space(text[0]) then SplitWords(text[1..])
    else
      var n := SolidLength(text);
      [text[..n]] + SplitWords(text[n..])
  }

  /** Counting words is splitting and taking the length. */
  lemma {:induction false} WordsAreSplit(text: string)
    ensures Words(text) == |SplitWords(text)|
    decreases |text|
  {
    if text != "" {
      if Space(text[0]) {
        WordsAreSplit(text[1..]);
        WordsConcat([text[0]], text[1..]);
        BlankWords([text[0]]);
        assert text == [text[0]] + text[1..];
      } else {
        var n := SolidLength(text);
        WordsAreSplit(text[n..]);
        SolidWords(text[..n]);
        WordsConcat(text[..n], text[n..]);
        assert text == text[..n] + text[n..];
      }
    }
  }

  function JoinWith(parts: seq<string>, separator: string): string {
    if parts == [] then ""
    else if |parts| == 1 then parts[0]
    else parts[0] + separator + JoinWith(parts[1..], separator)
  }

  /** A text made of single words. */
  function Phrase(words: seq<string>): string {
    JoinWith(words, " ")
  }

  function WordSum(parts: seq<string>): nat {
    if parts == [] then 0 else Words(parts[0]) + WordSum(parts[1..])
  }

  predicate Blank(text: string) {
    forall i | 0 <= i < |text| :: Space(text[i])
  }

  /** Parts joined by white space keep their words apart. */
  lemma {:induction false} JoinedWords(parts: seq<string>, separator: string)
    requires separator != "" && Blank(separator)
    ensures Words(JoinWith(parts, separator)) == WordSum(parts)
  {
    if |parts| > 1 {
      var rest := JoinWith(parts[1..], separator);
      JoinedWords(parts[1..], separator);
      BlankWords(separator);
      WordsConcat(parts[0], separator);
      WordsConcat(parts[0] + separator, rest);
    } else if |parts| == 1 {
      assert WordSum(parts[1..]) == 0;
    }
  }

  lemma {:induction false} SolidSum(words: seq<string>)
    requires AllSolid(words)
    ensures WordSum(words) == |words|
  {
    if words != [] {
      SolidWords(words[0]);
      SolidSum(words[1..]);
    }
  }

  lemma PhraseWords(words: seq<string>)
    requires AllSolid(words)
    ensures Words(Phrase(words)) == |words|
  {
    JoinedWords(words, " ");
    SolidSum(words);
  }

  // ---------- trimming and sentences ----------

  predicate Trimmed(text: string) {
    text == "" || (!Space(text[0]) && !Space(text[|text| - 1]))
  }

  function TrimLeft(text: string): (r: string)
    ensures r == "" || !Space(r[0])
    ensures |r| <= |text| && r == text[|text| - |r|..]
  {
    if text == "" || !Space(text[0]) then text else TrimLeft(text[1..])
  }

  function TrimRight(text: string): (r: string)
    ensures r == "" || !Space(r[|r| - 1])
    ensures r <= text
  {
    if text == "" || !Space(text[|text| - 1]) then text else TrimRight(text[..|text| - 1])
  }

  /** `strip()`. */
  function Strip(text: string): (r: string)
    ensures Trimmed(r)
  {
    TrimRight(TrimLeft(text))
  }

  /** A trailing ellipsis becomes a full stop. */
  function EndSentence(text: string): (r: string)
    ensures Trimmed(text) ==> Trimmed(r)
  {
    var n := |text|;
    if n >= 3 && text[n - 3..] == "..." then text[..n - 3] + "."
    else if n >= 1 && text[n - 1] == '…' then text[..n - 1] + "."
    else text
  }

  function SpaceLength(text: string): (n: nat)
    ensures n <= |text| && Blank(text[..n]) && (n < |text| ==> !Space(text[n]))
  {
    if text == "" || !Space(text[0]) then 0
    else
      var n := SpaceLength(text[1..]);
      assert text[..n + 1] == [text[0]] + text[1..][..n];
      n + 1
  }

  function NewlineLength(text: string): (n: nat)
    ensures n <= |text| && (forall i | 0 <= i < n :: text[i] == '\n') && (n < |text| ==> text[n] != '\n')
  {
    if text == "" || text[0] != '\n' then 0 else 1 + NewlineLength(text[1..])
  }

  predicate EndsSentence(c: char) {
    c == '.' || c == '!' || c == '?'
  }

  /** The length of the separator that starts here: white space after the end of a sentence, or, where
      lines count as well, a run of line breaks. */
  function CutLength(text: string, i: nat, lines: bool): (n: nat)
    requires i <= |text|
    ensures i + n <= |text| && Blank(text[i..i + n])
    ensures n > 0 ==> i < |text| && Space(text[i])
    ensures n > 0 && !lines ==> 0 < i && EndsSentence(text[i - 1]) && (i + n < |text| ==> !Space(text[i + n]))
  {
    if i < |text| && Space(text[i]) && 0 < i && EndsSentence(text[i - 1]) then
      var n := SpaceLength(text[i..]);
      assert text[i..i + n] == text[i..][..n];
      n
    else if lines then
      var n := NewlineLength(text[i..]);
      assert forall k | i <= k < i + n :: text[k] == text[i..][k - i];
      n
    else 0
  }

  /** The pieces between separators, scanning from position `i`. */
  function Pieces(text: string, i: nat, lines: bool): (r: seq<string>)
    requires i <= |text|
    ensures r != []
    decreases |text|, |text| - i
  {
    if i == |text| then [text]
    else
      var n := CutLength(text, i, lines);
      if n == 0 then Pieces(text, i + 1, lines) else [text[..i]] + Pieces(text[i + n..], 0, lines)
  }

  lemma GapWords(front: string, gap: string, back: string)
    requires gap != "" && Blank(gap)
    ensures Words(front + gap + back) == Words(front) + Words(back)
  {
    BlankWords(gap);
    WordsConcat(front, gap);
    WordsConcat(front + gap, back);
  }

  lemma SumCons(part: string, parts: seq<string>)
    ensures WordSum([part] + parts) == Words(part) + WordSum(parts)
  {
    assert ([part] + parts)[1..] == parts;
  }

  /** Cutting a text into pieces loses no word. */
  lemma {:induction false} PiecesKeepWords(text: string, i: nat, lines: bool)
    requires i <= |text|
    ensures WordSum(Pieces(text, i, lines)) == Words(text)
    decreases |text|, |text| - i
  {
    hide Words, WordSum, CutLength;
    if i == |text| {
      OneSum(text);
    } else {
      var n := CutLength(text, i, lines);
      if n == 0 {
        PiecesKeepWords(text, i + 1, lines);
      } else {
        var front, gap, back := text[..i], text[i..i + n], text[i + n..];
        PiecesKeepWords(back, 0, lines);
        SumCons(front, Pieces(back, 0, lines));
        assert text == front + gap + back;
        GapWords(front, gap, back);
      }
    }
  }

  /** The sentences of a trimmed text are trimmed themselves, and none is empty. */
  lemma {:induction false} SentencesTrimmed(text: string, i: nat)
    requires i <= |text| && text != "" && Trimmed(text)
    ensures forall k | 0 <= k < |Pieces(text, i, false)| ::
              Pieces(text, i, false)[k] != "" && Trimmed(Pieces(text, i, false)[k])
    decreases |text|, |text| - i
  {
    if i < |text| {
      var n := CutLength(text, i, false);
      if n == 0 {
        SentencesTrimmed(text, i + 1);
      } else {
        assert text[i] == text[i..i + n][0];
        assert i + n < |text| by {
          assert text[i..i + n][n - 1] == text[i + n - 1];
          assert Space(text[i..i + n][n - 1]) && !Space(text[|text| - 1]);
        }
        SentencesTrimmed(text[i + n..], 0);
      }
    }
  }

  // ---------- the longest prefix that fits ----------

  /** How many pieces, taken from the front, stay within the limit. */
  function Fits(pieces: seq<string>, limit: nat): (n: nat)
    ensures n <= |pieces|
  {
    if pieces == [] || Words(pieces[0]) > limit then 0
    else 1 + Fits(pieces[1..], limit - Words(pieces[0]))
  }

  /** It is the longest prefix that does: a prefix fits exactly when it is no longer. */
  lemma {:induction false} FitsLongest(pieces: seq<string>, limit: nat, k: nat)
    requires k <= |pieces|
    ensures WordSum(pieces[..k]) <= limit <==> k <= Fits(pieces, limit)
  {
    if k > 0 {
      assert pieces[..k][0] == pieces[0] && pieces[..k][1..] == pieces[1..][..k - 1];
      if Words(pieces[0]) <= limit { FitsLongest(pieces[1..], limit - Words(pieces[0]), k - 1); }
    }
  }

  lemma {:induction false} WordSumConcat(a: seq<string>, b: seq<string>)
    ensures WordSum(a + b) == WordSum(a) + WordSum(b)
  {
    if a == [] {
      assert a + b == b;
    } else {
      WordSumConcat(a[1..], b);
      assert (a + b)[1..] == a[1..] + b;
    }
  }

  // ---------- clipping ----------

  function PendingDetail(): string {
    "Detalle pendiente."
  }

  function Prepare(value: string): (r: string)
    ensures Trimmed(r)
  {
    EndSentence(Strip(value))
  }

  function Orelse(text: string, other: string): string {
    if text == "" then other else text
  }

  /** The whole text if it is short enough, otherwise as many whole sentences as fit. */
  function Clipped(value: string, limit: nat): string {
    var text := Prepare(value);
    if Words(text) <= limit then Strip(text)
    else
      var sentences := Pieces(Strip(text), 0, false);
      Orelse(JoinWith(sentences[..Fits(sentences, limit)], " "), PendingDetail())
  }

  lemma FitsAt(pieces: seq<string>, limit: nat, n: nat)
    requires n <= |pieces| && WordSum(pieces[..n]) <= limit
    requires n < |pieces| ==> WordSum(pieces[..n + 1]) > limit
    ensures n == Fits(pieces, limit)
  {
    hide Words, WordSum, Fits;
    FitsLongest(pieces, limit, n);
    if n < |pieces| { FitsLongest(pieces, limit, n + 1); }
  }

  /** The sentences of a clipped text: the joined text is counted again for each one. */
  method SelectSentences(sentences: seq<string>, limit: nat) returns (selected: seq<string>)
    ensures selected == sentences[..Fits(sentences, limit)]
  {
    hide Words, Fits, JoinWith;
    selected := [];
    while |selected| < |sentences|
      invariant |selected| <= |sentences| && selected == sentences[..|selected|]
      invariant WordSum(selected) <= limit
    {
      var next := selected + [sentences[|selected|]];
      assert next == sentences[..|selected| + 1];
      JoinedWords(next, " ");
      if Words(JoinWith(next, " ")) > limit {
        break;
      }
      selected := next;
    }
    FitsAt(sentences, limit, |selected|);
  }

  /** `_clip_words`. */
  method ClipWords(value: string, limit: nat) returns (clipped: string)
    ensures clipped == Clipped(value, limit)
  {
    hide Words, Pieces, Prepare, JoinWith, Fits, PendingDetail, Strip;
    var text := Prepare(value);
    if Words(text) <= limit {
      return Strip(text);
    }
    var selected := SelectSentences(Pieces(Strip(text), 0, false), limit);
    clipped := Orelse(JoinWith(selected, " "), PendingDetail());
  }

  lemma PendingWords()
    ensures Words(PendingDetail()) == 2 && Trimmed(PendingDetail())
  {
    hide Words;
    assert PendingDetail() == Phrase(["Detalle", "pendiente."]);
    PhraseWords(["Detalle", "pendiente."]);
  }

  lemma {:induction false} JoinedTrimmed(parts: seq<string>)
    requires forall k | 0 <= k < |parts| :: parts[k] != "" && Trimmed(parts[k])
    ensures Trimmed(JoinWith(parts, " "))
    ensures parts != [] ==> JoinWith(parts, " ") != ""
  {
    if |parts| > 1 { JoinedTrimmed(parts[1..]); }
  }

  lemma SentencesBounds(text: string, limit: nat)
    requires text != "" && Trimmed(text)
    ensures var joined := JoinWith(Pieces(text, 0, false)[..Fits(Pieces(text, 0, false), limit)], " ");
            Words(joined) <= limit && Trimmed(joined)
  {
    hide Words, Pieces, Fits, Trimmed, JoinWith;
    var sentences := Pieces(text, 0, false);
    var n := Fits(sentences, limit);
    SentencesTrimmed(text, 0);
    FitsLongest(sentences, limit, n);
    JoinedWords(sentences[..n], " ");
    JoinedTrimmed(sentences[..n]);
  }

  /** A clipped text is trimmed and within its limit. */
  lemma ClippedBounds(value: string, limit: nat)
    requires limit >= 2
    ensures Words(Clipped(value, limit)) <= limit && Trimmed(Clipped(value, limit))
  {
    var text := Prepare(value);
    EmptyWords();
    hide Words, Pieces, Fits, Trimmed, JoinWith, Prepare, PendingDetail, Strip;
    StripTrimmed(text);
    PendingWords();
    if Words(text) > limit { SentencesBounds(text, limit); }
  }

  /** The first `n` sentences are the longest run from the front within the limit. */
  predicate LongestRun(sentences: seq<string>, limit: nat, n: nat) {
    && n <= |sentences|
    && forall k | 0 <= k <= |sentences| :: WordSum(sentences[..k]) <= limit <==> k <= n
  }

  /** What clipping keeps: a text within the limit is kept whole; a longer one is cut to the longest run of
      whole sentences from its front that fits, or replaced when not even the first one does. */
  lemma ClippedLongest(value: string, limit: nat) returns (n: nat)
    ensures var text := Prepare(value);
            if Words(text) <= limit then Clipped(value, limit) == text
            else
              && LongestRun(Pieces(text, 0, false), limit, n)
              && Clipped(value, limit)
                 == if n == 0 then PendingDetail() else JoinWith(Pieces(text, 0, false)[..n], " ")
  {
    var text := Prepare(value);
    EmptyWords();
    hide Words, Fits, Trimmed, Prepare, PendingDetail, Strip, WordSum;
    StripTrimmed(text);
    n := 0;
    if Words(text) > limit {
      var sentences := Pieces(text, 0, false);
      n := Fits(sentences, limit);
      forall k | 0 <= k <= |sentences|
        ensures WordSum(sentences[..k]) <= limit <==> k <= n
      {
        FitsLongest(sentences, limit, k);
      }
      SentencesTrimmed(text, 0);
      SentencesJoined(sentences, n);
    }
  }

  lemma SentencesJoined(sentences: seq<string>, n: nat)
    requires n <= |sentences| && forall k | 0 <= k < |sentences| :: sentences[k] != "" && Trimmed(sentences[k])
    ensures JoinWith(sentences[..n], " ") == "" <==> n == 0
  {
    hide Trimmed;
    JoinedTrimmed(sentences[..n]);
  }

  lemma {:induction false} StripTrimmed(text: string)
    requires Trimmed(text)
    ensures Strip(text) == text
  {
    assert TrimLeft(text) == text;
    assert TrimRight(text) == text;
  }

  // ---------- whole answers ----------

  const TOO_MUCH := ["Mi", "respuesta", "excedió", "el", "formato", "breve", "de", "Slack."]
  const ASK_LESS := ["Pídeme", "que", "la", "divida", "y", "desplegaré", "el", "resto", "de", "mi", "intelecto."]

  function TooLong(): string {
    Phrase(TOO_MUCH + ASK_LESS)
  }

  function NonBlank(pieces: seq<string>): seq<string> {
    if pieces == [] then []
    else (if Strip(pieces[0]) != "" then [Strip(pieces[0])] else []) + NonBlank(pieces[1..])
  }

  function Units(answer: string): seq<string> {
    NonBlank(Pieces(answer, 0, true))
  }

  /** What is kept of an answer: everything, the longest prefix of whole units, or the notice. */
  function Kept(answer: string, available: nat): seq<string> {
    if Words(answer) <= available then [answer]
    else
      var units := Units(answer);
      var n := Fits(units, available);
      if n == 0 then [TooLong()] else units[..n]
  }

  function Available(limit: nat, suffix: string): nat {
    if limit > Words(suffix) then limit - Words(suffix) else 1
  }

  function Limited(value: string, limit: nat, suffix: string): string {
    JoinWith(Kept(Prepare(value), Available(limit, suffix)) + if suffix != "" then [suffix] else [], "\n")
  }

  /** The units of a cut answer, with a running count of their words. */
  method SelectUnits(units: seq<string>, available: nat) returns (parts: seq<string>)
    ensures parts == units[..Fits(units, available)]
  {
    hide Words, Fits;
    parts := [];
    var used := 0;
    while |parts| < |units|
      invariant |parts| <= |units| && parts == units[..|parts|]
      invariant used == WordSum(parts) <= available
    {
      var unit := units[|parts|];
      assert parts + [unit] == units[..|parts| + 1];
      WordSumConcat(parts, [unit]);
      assert WordSum([unit]) == Words(unit) + WordSum([]);
      if used + Words(unit) > available {
        break;
      }
      parts, used := parts + [unit], used + Words(unit);
    }
    FitsAt(units, available, |parts|);
  }

  /** `_limit_complete_answer`; an absent suffix is the empty one. */
  method LimitCompleteAnswer(value: string, limit: nat, suffix: string) returns (answer: string)
    ensures answer == Limited(value, limit, suffix)
  {
    hide Words, Units, Prepare, JoinWith, Fits, TooLong;
    var text := Prepare(value);
    var available := Available(limit, suffix);
    var parts := [text];
    if Words(text) > available {
      parts := SelectUnits(Units(text), available);
      if parts == [] {
        parts := [TooLong()];
      }
    }
    if suffix != "" {
      parts := parts + [suffix];
    }
    assert parts == Kept(text, available) + if suffix != "" then [suffix] else [];
    answer := JoinWith(parts, "\n");
  }

  lemma TooMuchSolid()
    ensures AllSolid(TOO_MUCH)
  {
  }

  lemma AskLessSolid()
    ensures AllSolid(ASK_LESS)
  {
  }

  lemma TooLongWords()
    ensures Words(TooLong()) == 19
  {
    hide Words, Solid, Phrase;
    TooMuchSolid();
    AskLessSolid();
    PhraseWords(TOO_MUCH + ASK_LESS);
  }

  /** General answers: with any limit that leaves room for the notice and the suffix, the answer stays
      within the limit; nothing is cut from an answer that fits, and otherwise exactly the units that fit
      are kept, from the front. */
  lemma LimitedBounds(value: string, limit: nat, suffix: string)
    requires 19 + Words(suffix) <= limit
    ensures Words(Limited(value, limit, suffix)) <= limit
    ensures var kept := Kept(Prepare(value), Available(limit, suffix));
            var units := Units(Prepare(value));
            if Words(Prepare(value)) + Words(suffix) <= limit then kept == [Prepare(value)]
            else if units == [] || Words(units[0]) + Words(suffix) > limit then kept == [TooLong()]
            else kept <= units
                 && forall k | 0 <= k <= |units| :: WordSum(units[..k]) + Words(suffix) <= limit <==> k <= |kept|
  {
    hide Units, Prepare, Words, Fits, TooLong, JoinWith;
    var text := Prepare(value);
    var available := Available(limit, suffix);
    var kept := Kept(text, available);
    var end := if suffix != "" then [suffix] else [];
    KeptBounds(text, available);
    JoinedWords(kept + end, "\n");
    WordSumConcat(kept, end);
    EmptyWords();
    assert WordSum(end) == Words(suffix) by {
      assert suffix != "" ==> WordSum([suffix]) == Words(suffix) + WordSum([]);
    }
    forall k | 0 <= k <= |Units(text)|
      ensures WordSum(Units(text)[..k]) <= available <==> k <= Fits(Units(text), available)
    {
      FitsLongest(Units(text), available, k);
    }
    if Units(text) != [] { OneSum(Units(text)[0]); assert Units(text)[..1] == [Units(text)[0]]; }
  }

  lemma EmptyWords()
    ensures Words("") == 0
  {
  }

  lemma OneSum(part: string)
    ensures WordSum([part]) == Words(part)
  {
    assert WordSum([part][1..]) == 0;
  }

  lemma KeptBounds(answer: string, available: nat)
    requires available >= 19
    ensures WordSum(Kept(answer, available)) <= available
  {
    hide Units, Words, WordSum, Fits, TooLong;
    TooLongWords();
    var units := Units(answer);
    FitsLongest(units, available, Fits(units, available));
    OneSum(answer);
    OneSum(TooLong());
  }

  /** The units of an answer hold all its words, so a cut loses nothing before the cut. */
  lemma UnitsKeepWords(answer: string)
    ensures WordSum(Units(answer)) == Words(answer)
  {
    PiecesKeepWords(answer, 0, true);
    NonBlankKeepsWords(Pieces(answer, 0, true));
  }

  lemma NonBlankSum(pieces: seq<string>)
    requires pieces != []
    ensures WordSum(NonBlank(pieces)) == Words(Strip(pieces[0])) + WordSum(NonBlank(pieces[1..]))
    ensures WordSum(pieces) == Words(pieces[0]) + WordSum(pieces[1..])
  {
    EmptyWords();
    hide Strip, Words;
    var rest := NonBlank(pieces[1..]);
    if Strip(pieces[0]) == "" {
      assert NonBlank(pieces) == rest;
    } else {
      assert NonBlank(pieces) == [Strip(pieces[0])] + rest;
      SumCons(Strip(pieces[0]), rest);
    }
  }

  lemma {:induction false} NonBlankKeepsWords(pieces: seq<string>)
    ensures WordSum(NonBlank(pieces)) == WordSum(pieces)
  {
    if pieces != [] {
      NonBlankSum(pieces);
      hide Words, WordSum, NonBlank, Strip;
      NonBlankKeepsWords(pieces[1..]);
      StripKeepsWords(pieces[0]);
    }
  }

  lemma StripKeepsWords(text: string)
    ensures Words(Strip(text)) == Words(text)
  {
    TrimLeftKeepsWords(text);
    TrimRightKeepsWords(TrimLeft(text));
  }

  lemma {:induction false} TrimLeftKeepsWords(text: string)
    ensures Words(TrimLeft(text)) == Words(text)
  {
    if text != "" && Space(text[0]) {
      TrimLeftKeepsWords(text[1..]);
      BlankWords([text[0]]);
      WordsConcat([text[0]], text[1..]);
      assert text == [text[0]] + text[1..];
    }
  }

  lemma {:induction false} TrimRightKeepsWords(text: string)
    ensures Words(TrimRight(text)) == Words(text)
  {
    if text != "" && Space(text[|text| - 1]) { TrimRightKeepsWords(text[..|text| - 1]); }
  }

  // ---------- where a text is cut ----------

  /** Between the characters before and at position `i` one sentence ends and white space begins; where lines count,
      a line break cuts as well. */
  predicate CutsAt(text: string, i: nat, lines: bool) {
    && i < |text|
    && ((0 < i && Space(text[i]) && (text[i - 1] == '.' || text[i - 1] == '!' || text[i - 1] == '?'))
        || (lines && text[i] == '\n'))
  }

  lemma CutsExactly(text: string, i: nat, lines: bool)
    requires i <= |text|
    ensures CutLength(text, i, lines) > 0 <==> CutsAt(text, i, lines)
  {
    if i < |text| { assert text[i..][0] == text[i]; }
  }

  /** A piece in which nothing is left to cut. */
  predicate Uncut(piece: string, lines: bool) {
    forall j: nat | j < |piece| :: !CutsAt(piece, j, lines)
  }

  predicate Ended(piece: string) {
    piece != "" && EndsSentence(piece[|piece| - 1])
  }

  /** No piece can be cut further, and where only sentences count, every piece but the last ends one. */
  predicate AllCut(pieces: seq<string>, lines: bool) {
    && (forall k | 0 <= k < |pieces| :: Uncut(pieces[k], lines))
    && (!lines ==> forall k | 0 <= k < |pieces| - 1 :: Ended(pieces[k]))
  }

  lemma CutOff(front: string, rest: seq<string>, lines: bool)
    requires Uncut(front, lines) && (!lines ==> Ended(front)) && AllCut(rest, lines)
    ensures AllCut([front] + rest, lines)
  {
    hide Uncut, Ended;
  }

  /** A text is cut wherever it can be: white space after the end of a sentence always ends a piece, and so does
      the end of a line where lines count; and where only sentences count, nothing else ends one. */
  lemma {:induction false} PiecesExactly(text: string, i: nat, lines: bool)
    requires i <= |text| && forall j: nat | j < i :: !CutsAt(text, j, lines)
    ensures AllCut(Pieces(text, i, lines), lines)
    decreases |text|, |text| - i
  {
    if i < |text| {
      var n := CutLength(text, i, lines);
      CutsExactly(text, i, lines);
      hide AllCut, CutsAt, Uncut, CutLength, Space;
      if n == 0 {
        PiecesExactly(text, i + 1, lines);
      } else {
        PiecesExactly(text[i + n..], 0, lines);
        FrontUncut(text, i, lines);
        assert !lines ==> text[..i][i - 1] == text[i - 1];
        CutOff(text[..i], Pieces(text[i + n..], 0, lines), lines);
      }
    }
  }

  lemma FrontUncut(text: string, i: nat, lines: bool)
    requires i <= |text| && forall j: nat | j < i :: !CutsAt(text, j, lines)
    ensures Uncut(text[..i], lines)
  {
    forall j: nat | j < i
      ensures !CutsAt(text[..i], j, lines)
    {
      assert !CutsAt(text, j, lines);
    }
  }

  lemma {:induction false} NonBlankFrom(pieces: seq<string>, unit: string)
    requires unit in NonBlank(pieces)
    ensures unit != "" && exists k | 0 <= k < |pieces| :: unit == Strip(pieces[k])
  {
    hide Strip;
    if unit in NonBlank(pieces[1..]) {
      NonBlankFrom(pieces[1..], unit);
      var k :| 0 <= k < |pieces[1..]| && unit == Strip(pieces[1..][k]);
      assert pieces[k + 1] == pieces[1..][k];
    } else {
      assert unit == Strip(pieces[0]);
    }
  }

  /** A unit of an answer is not empty, has no white space around it, and is within one line. */
  lemma UnitsExactly(answer: string, unit: string)
    requires unit in Units(answer)
    ensures unit != "" && Trimmed(unit) && '\n' !in unit
  {
    var pieces := Pieces(answer, 0, true);
    PiecesExactly(answer, 0, true);
    NonBlankFrom(pieces, unit);
    hide Pieces, NonBlank, Strip, Uncut, Trimmed, Blank;
    var k :| 0 <= k < |pieces| && unit == Strip(pieces[k]);
    StripExactly(pieces[k]);
    var a, b :| Blank(a) && Blank(b) && pieces[k] == a + unit + b;
    UncutOneLine(pieces[k]);
    forall i | 0 <= i < |unit|
      ensures unit[i] != '\n'
    {
      assert pieces[k][|a| + i] == unit[i];
    }
  }

  lemma UncutOneLine(piece: string)
    requires Uncut(piece, true)
    ensures '\n' !in piece
  {
    if i :| 0 <= i < |piece| && piece[i] == '\n' {
      assert CutsAt(piece, i, true);
    }
  }

  lemma DotsEnded(text: string)
    ensures EndSentence(text + "...") == text + "."
  {
    var dots := text + "...";
    assert dots[|dots| - 3..] == "..." && dots[..|dots| - 3] == text;
  }

  lemma EllipsisEnded(text: string)
    ensures EndSentence(text + "…") == text + "."
  {
    var all, n := text + "…", |text|;
    assert all[..n] == text && all[n] == '…';
    if n >= 2 { assert all[n - 2..][2] == '…'; }
  }

  lemma OthersUnended(text: string)
    requires EndSentence(text) != text
    ensures exists front :: text == front + "..." || text == front + "…"
  {
    var n := |text|;
    if n >= 3 && text[n - 3..] == "..." {
      assert text == text[..n - 3] + "...";
    } else {
      assert text == text[..n - 1] + "…";
    }
  }

  /** A trailing ellipsis, as three dots or as one character, becomes a full stop, and no other text changes. */
  lemma EllipsisExactly(text: string)
    ensures EndSentence(text + "...") == text + "." && EndSentence(text + "…") == text + "."
    ensures EndSentence(text) != text ==> exists front :: text == front + "..." || text == front + "…"
  {
    DotsEnded(text);
    EllipsisEnded(text);
    if EndSentence(text) != text { OthersUnended(text); }
  }

  /** All white space around a text is removed, and nothing else. */
  lemma StripExactly(text: string)
    ensures Trimmed(Strip(text))
    ensures exists a, b :: Blank(a) && Blank(b) && text == a + Strip(text) + b
  {
    var rest := TrimLeft(text);
    LeftBlank(text);
    RightBlank(rest);
    Surrounded(text, rest, Strip(text));
  }

  lemma Surrounded(text: string, rest: string, core: string)
    requires |rest| <= |text| && rest == text[|text| - |rest|..] && core <= rest
    requires Blank(text[..|text| - |rest|]) && Blank(rest[|core|..])
    ensures exists a, b :: Blank(a) && Blank(b) && text == a + core + b
  {
    hide Blank;
    var a, b := text[..|text| - |rest|], rest[|core|..];
    assert text == a + rest && rest == core + b;
    assert a + core + b == a + (core + b);
  }

  lemma {:induction false} LeftBlank(text: string)
    ensures Blank(text[..|text| - |TrimLeft(text)|])
  {
    if text != "" && Space(text[0]) {
      LeftBlank(text[1..]);
      var n := |text| - |TrimLeft(text)|;
      assert text[..n] == [text[0]] + text[1..][..n - 1];
    }
  }

  lemma {:induction false} RightBlank(text: string)
    ensures Blank(text[|TrimRight(text)|..])
  {
    if text != "" && Space(text[|text| - 1]) {
      var front := text[..|text| - 1];
      RightBlank(front);
      assert text[|TrimRight(text)|..] == front[|TrimRight(text)|..] + [text[|text| - 1]];
    }
  }
}
