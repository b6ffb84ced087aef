/** The auditor's whole length check: words and lines of a rendered identification. */
module Layout {
  import opened Records
  import opened Wording
  import opened Decision
  import opened Rendering
  import Ledger
  import Candidates

  /** Where `splitlines()` ends a line. */
  predicate LineBreak(c: char) {
    c == '\n' || c == '\r' || c == '\U{000B}' || c == '\U{000C}' || ('\U{001C}' <= c <= '\U{001E}')
    || c == '\U{0085}' || c == '\U{2028}' || c == '\U{2029}'
  }

  predicate Unbroken(text: string) {
    forall i | 0 <= i < |text| :: !LineBreak(text[i])
  }

  predicate AllUnbroken(texts: seq<string>) {
    forall i | 0 <= i < |texts| :: Unbroken(texts[i])
  }

  function Breaks(text: string): nat {
    if text == "" then 0 else (if LineBreak(text[0]) then 1 else 0) + Breaks(text[1..])
  }

  /** The lines with something on them; `started` says that the current one already has. */
  function FilledLines(text: string, started: bool): nat {
    if text == "" then 0
    else if LineBreak(text[0]) then FilledLines(text[1..], false)
    else if !started && !Space(text[0]) then 1 + FilledLines(text[1..], true)
    else FilledLines(text[1..], started)
  }

  /** `_response_length_error`. */
  predicate ResponseTooLong(r: Identification, body: string) {
    var lines, words := FilledLines(body, false), Words(body);
    if r.outcome == Matched then lines > 6 || words > (if r.alternatives != [] then 130 else 110)
    else if r.outcome == OutOfScope then lines > 2 || words > 40
    else lines > 4 || words > (if r.alternatives != [] then 130 else 75)
  }

  lemma {:induction false} FilledByBreaks(text: string, started: bool)
    ensures FilledLines(text, started) <= Breaks(text) + if started then 0 else 1
  {
    if text != "" {
      FilledByBreaks(text[1..], false);
      FilledByBreaks(text[1..], true);
    }
  }

  lemma {:induction false} BreaksConcat(a: string, b: string)
    ensures Breaks(a + b) == Breaks(a) + Breaks(b)
  {
    if a == "" {
      assert a + b == b;
    } else {
      BreaksConcat(a[1..], b);
      assert (a + b)[1..] == a[1..] + b;
    }
  }

  lemma {:induction false} NoBreaks(text: string)
    requires Unbroken(text)
    ensures Breaks(text) == 0
  {
    if text != "" { NoBreaks(text[1..]); }
  }

  /** Joining unbroken lines makes as many lines as there are. */
  lemma {:induction false} JoinedBreaks(lines: seq<string>)
    requires AllUnbroken(lines) && lines != []
    ensures Breaks(JoinWith(lines, "\n")) == |lines| - 1
  {
    NoBreaks(lines[0]);
    if |lines| > 1 {
      JoinedBreaks(lines[1..]);
      BreaksConcat(lines[0], "\n");
      BreaksConcat(lines[0] + "\n", JoinWith(lines[1..], "\n"));
      assert "\n"[1..] == "";
    }
  }

  // ---------- nothing in the rendering breaks a line ----------

  lemma {:induction false} JoinUnbroken(parts: seq<string>, separator: string)
    requires AllUnbroken(parts) && Unbroken(separator)
    ensures Unbroken(JoinWith(parts, separator))
  {
    if |parts| > 1 { JoinUnbroken(parts[1..], separator); }
  }

  lemma {:induction false} PiecesUnbroken(text: string, i: nat)
    requires i <= |text| && Unbroken(text)
    ensures AllUnbroken(Pieces(text, i, false))
    decreases |text|, |text| - i
  {
    if i < |text| {
      var n := CutLength(text, i, false);
      if n == 0 { PiecesUnbroken(text, i + 1); } else { PiecesUnbroken(text[i + n..], 0); }
    }
  }

  lemma {:induction false} SplitUnbroken(text: string)
    requires Unbroken(text)
    ensures AllUnbroken(SplitWords(text))
    decreases |text|
  {
    if text != "" {
      if Space(text[0]) { SplitUnbroken(text[1..]); } else { SplitUnbroken(text[SolidLength(text)..]); }
    }
  }

  lemma StripUnbroken(text: string)
    requires Unbroken(text)
    ensures Unbroken(Strip(text))
  {
  }

  lemma EndUnbroken(text: string)
    requires Unbroken(text)
    ensures Unbroken(EndSentence(text))
  {
  }

  lemma PrepareUnbroken(value: string)
    requires Unbroken(value)
    ensures Unbroken(Prepare(value)) && Unbroken(Strip(Prepare(value)))
  {
    hide LineBreak, Space, Unbroken, Strip, EndSentence, Trimmed;
    StripUnbroken(value);
    EndUnbroken(Strip(value));
    StripUnbroken(Prepare(value));
  }

  lemma ClippedUnbroken(value: string, limit: nat)
    requires Unbroken(value)
    ensures Unbroken(Clipped(value, limit))
  {
    hide LineBreak, Space, Unbroken, Words, Pieces, Strip, EndSentence, Trimmed, Prepare, PendingDetail, JoinWith, Fits;
    PrepareUnbroken(value);
    PendingUnbroken();
    var text := Strip(Prepare(value));
    PiecesUnbroken(text, 0);
    var sentences := Pieces(text, 0, false);
    JoinUnbroken(sentences[..Fits(sentences, limit)], " ");
  }

  lemma PendingUnbroken()
    ensures Unbroken(PendingDetail()) && Unbroken(" ")
  {
  }

  lemma {:induction false} NatTextUnbroken(n: nat)
    ensures Unbroken(NatText(n))
  {
    if n >= 10 { NatTextUnbroken(n / 10); }
  }

  lemma NoteUnbroken(images: Option<Images>)
    ensures Unbroken(ImageNote(images))
  {
    if images.Some? && images.value.unprocessed > 0 {
      NatTextUnbroken(images.value.unprocessed);
      NatTextUnbroken(images.value.requested);
      var words := [NatText(images.value.unprocessed) + "/" + NatText(images.value.requested),
                    "capturas", "no", "procesadas"];
      JoinUnbroken(words, " ");
    }
  }

  lemma {:induction false} ExceptUnbroken(items: seq<string>, item: string)
    requires AllUnbroken(items)
    ensures AllUnbroken(Except(items, item))
  {
    if items != [] { ExceptUnbroken(items[1..], item); }
  }

  lemma PendingTextUnbroken(unable: seq<string>, note: string)
    requires AllUnbroken(unable) && Unbroken(note)
    ensures Unbroken(PendingText(unable, note))
  {
    hide LineBreak, Clipped;
    ExceptUnbroken(unable, note);
    var details := Details(unable, note);
    var items := ClipAll(details, 5);
    forall i | 0 <= i < |items|
      ensures Unbroken(items[i])
    {
      ClippedUnbroken(details[i], 5);
    }
    CommaUnbroken();
    JoinUnbroken(items, ", ");
  }

  lemma CommaUnbroken()
    ensures Unbroken(", ") && Unbroken("; ") && Unbroken(" · ") && Unbroken(" — ") && Unbroken(" ")
    ensures Unbroken("<") && Unbroken("|") && Unbroken(">")
  {
  }

  lemma LinkUnbroken(name: string, url: string, maxWords: nat)
    requires Unbroken(name) && Unbroken(url)
    ensures Unbroken(CustomerLink(name, url, maxWords))
  {
    SplitUnbroken(name);
    CommaUnbroken();
    hide LineBreak, SplitWords;
    JoinUnbroken(Take(SplitWords(name), maxWords), " ");
  }

  lemma PhraseUnbroken(words: seq<string>)
    requires AllUnbroken(words)
    ensures Unbroken(Phrase(words))
  {
    CommaUnbroken();
    JoinUnbroken(words, " ");
  }

  lemma AddressLabelsUnbroken(kind: Candidates.EvidenceKind)
    requires kind == Candidates.ExactAddressKind || kind == Candidates.PartialAddressKind
             || kind == Candidates.CustomerName
    ensures AllUnbroken(Label(kind))
  {
  }

  lemma NameLabelsUnbroken(kind: Candidates.EvidenceKind)
    requires kind == Candidates.SigneeName || kind == Candidates.NameFragment
    ensures AllUnbroken(Label(kind))
  {
  }

  lemma IdentityLabelsUnbroken(kind: Candidates.EvidenceKind)
    requires kind == Candidates.Rut || kind == Candidates.Email || kind == Candidates.Phone
             || kind == Candidates.BankName || kind == Candidates.BankAccount
    ensures AllUnbroken(Label(kind))
  {
  }

  lemma OtherLabelsUnbroken(kind: Candidates.EvidenceKind)
    requires kind == Candidates.ExactOutstanding || kind == Candidates.PartialPayment
             || kind == Candidates.VambeContext || Label(kind) == []
    ensures AllUnbroken(Label(kind))
  {
  }

  lemma LabelUnbroken(kind: Candidates.EvidenceKind)
    ensures AllUnbroken(Label(kind))
  {
    hide AllUnbroken;
    if kind.ExactAddressKind? || kind.PartialAddressKind? || kind.CustomerName? {
      AddressLabelsUnbroken(kind);
    } else if kind.SigneeName? || kind.NameFragment? {
      NameLabelsUnbroken(kind);
    } else if kind.Rut? || kind.Email? || kind.Phone? || kind.BankName? || kind.BankAccount? {
      IdentityLabelsUnbroken(kind);
    } else {
      OtherLabelsUnbroken(kind);
    }
  }

  lemma ReasonsUnbroken(ids: seq<nat>, evidence: seq<Candidates.Signal>)
    ensures AllUnbroken(ReasonWords(Reasons(ids, evidence)))
  {
    var reasons := Reasons(ids, evidence);
    FallbackUnbroken();
    hide Label, Unbroken;
    forall i | 0 <= i < |reasons|
      ensures AllUnbroken(reasons[i])
    {
      var kind :| reasons[i] == Label(kind);
      LabelUnbroken(kind);
    }
  }

  lemma FallbackUnbroken()
    ensures AllUnbroken(["evidencia", "por", "verificar"]) && AllUnbroken(["+"])
  {
  }

  predicate OneLine(r: Identification, prose: Prose) {
    && Unbroken(prose.summary) && AllUnbroken(prose.unable) && Unbroken(prose.clarification)
    && (r.arSummary.Some? ==> Unbroken(r.arSummary.value))
    && (r.recommended.Some? ==> CustomerUnbroken(r.recommended.value, prose.url))
    && forall i | 0 <= i < |r.alternatives| :: CustomerUnbroken(r.alternatives[i], prose.url)
  }

  predicate CustomerUnbroken(c: Customer, url: string -> string) {
    Unbroken(c.name) && Unbroken(url(c.orderId))
  }

  lemma AlternativesUnbroken(r: Identification, prose: Prose)
    requires OneLine(r, prose)
    ensures Unbroken(AlternativesText(r, prose.url))
  {
    CommaUnbroken();
    hide LineBreak, CustomerLink, Phrase, ReasonWords, Reasons;
    var texts := AlternativeTexts(r, prose.url);
    forall i | 0 <= i < |texts|
      ensures Unbroken(texts[i])
    {
      var c := r.alternatives[i];
      assert CustomerUnbroken(c, prose.url);
      LinkUnbroken(c.name, prose.url(c.orderId), 5);
      ReasonsUnbroken(c.evidenceIds, r.evidence);
      PhraseUnbroken(ReasonWords(Reasons(c.evidenceIds, r.evidence)));
    }
    JoinUnbroken(texts, "; ");
  }

  lemma LabelledUnbroken(heading: seq<string>, text: string)
    requires AllUnbroken(heading) && Unbroken(text)
    ensures Unbroken(Labelled(heading, text))
  {
    PhraseUnbroken(heading);
    CommaUnbroken();
  }

  lemma ResultUnbroken()
    ensures AllUnbroken(["*Resultado:*"]) && AllUnbroken(["*Cliente:*"])
  {
  }

  lemma WhyHeadingsUnbroken()
    ensures AllUnbroken(["*Cuenta:*"]) && AllUnbroken(["*Por", "qué:*"])
  {
  }

  lemma PendingHeadingsUnbroken()
    ensures AllUnbroken(CANNOT_VERIFY) && AllUnbroken(["*Falta:*"])
  {
  }

  lemma HeadingsUnbroken()
    ensures AllUnbroken(["*Resultado:*"]) && AllUnbroken(["*Cliente:*"]) && AllUnbroken(["*Cuenta:*"])
    ensures AllUnbroken(["*Por", "qué:*"]) && AllUnbroken(CANNOT_VERIFY) && AllUnbroken(["*Falta:*"])
  {
    hide AllUnbroken;
    ResultUnbroken();
    WhyHeadingsUnbroken();
    PendingHeadingsUnbroken();
  }

  lemma MoreHeadingsUnbroken()
    ensures AllUnbroken(["*Alternativas:*"]) && AllUnbroken(["*Opciones:*"])
  {
  }

  lemma NoCustomerLineUnbroken()
    ensures AllUnbroken(["*Resultado:*", "no", "encontré", "un", "cliente."])
  {
  }

  lemma MatchLineUnbroken(c: Confidence)
    ensures Unbroken(Phrase(["*Resultado:*", "coincidencia", "—", "confianza"] + ConfidenceText(c)))
  {
    StartUnbroken();
    ConfidenceUnbroken(c);
    hide LineBreak, Unbroken, ConfidenceText;
    var start := ["*Resultado:*", "coincidencia", "—", "confianza"];
    ConcatUnbroken(start, ConfidenceText(c));
    PhraseUnbroken(start + ConfidenceText(c));
  }

  lemma StartUnbroken()
    ensures AllUnbroken(["*Resultado:*", "coincidencia", "—", "confianza"])
  {
  }

  lemma ConfidenceUnbroken(c: Confidence)
    ensures AllUnbroken(ConfidenceText(c))
  {
  }

  lemma AmbiguousLineUnbroken()
    ensures AllUnbroken(["*Resultado:*", "no", "sé;", "FinOps", "debe", "revisar", "el", "pago."])
  {
  }

  lemma ConcatUnbroken(a: seq<string>, b: seq<string>)
    requires AllUnbroken(a) && AllUnbroken(b)
    ensures AllUnbroken(a + b)
  {
    hide Unbroken;
  }

  lemma PairUnbroken(a: string, b: string)
    requires Unbroken(a) && Unbroken(b)
    ensures Unbroken(JoinWith(NonEmpty([a, b]), " · "))
  {
    CommaUnbroken();
    hide LineBreak;
    assert [a, b][1..] == [b] && [b][1..] == [];
    assert NonEmpty([b]) == if b != "" then [b] else [];
    JoinUnbroken(NonEmpty([a, b]), " · ");
  }

  lemma QuestionUnbroken(clarification: string)
    requires Unbroken(clarification)
    ensures Unbroken(QuestionLine(clarification))
  {
    SplitUnbroken(clarification);
    PhraseUnbroken(SplitWords(clarification));
    ClippedUnbroken(Phrase(SplitWords(clarification)), 20);
  }

  lemma AccountUnbroken(r: Identification)
    requires r.arSummary.Some? ==> Unbroken(r.arSummary.value)
    ensures r.arSummary.Some? ==> Unbroken(Labelled(["*Cuenta:*"], Clipped(r.arSummary.value, 16)))
  {
    HeadingsUnbroken();
    hide LineBreak, Clipped, Labelled;
    if r.arSummary.Some? {
      ClippedUnbroken(r.arSummary.value, 16);
      LabelledUnbroken(["*Cuenta:*"], Clipped(r.arSummary.value, 16));
    }
  }

  lemma ClientUnbroken(c: Customer, url: string -> string)
    requires CustomerUnbroken(c, url)
    ensures Unbroken(Labelled(["*Cliente:*"], CustomerLink(c.name, url(c.orderId), 8)))
  {
    HeadingsUnbroken();
    hide LineBreak, Labelled, CustomerLink;
    LinkUnbroken(c.name, url(c.orderId), 8);
    LabelledUnbroken(["*Cliente:*"], CustomerLink(c.name, url(c.orderId), 8));
  }

  lemma WhyUnbroken(summary: string, limit: nat)
    requires Unbroken(summary)
    ensures Unbroken(Labelled(["*Por", "qué:*"], Clipped(summary, limit)))
  {
    HeadingsUnbroken();
    hide LineBreak, Labelled, Clipped;
    ClippedUnbroken(summary, limit);
    LabelledUnbroken(["*Por", "qué:*"], Clipped(summary, limit));
  }

  lemma MatchTailUnbroken(r: Identification, prose: Prose, pending: string)
    requires OneLine(r, prose) && Unbroken(pending)
    ensures Unbroken(JoinWith(NonEmpty([When(pending != "", Labelled(CANNOT_VERIFY, pending)),
                                        When(r.alternatives != [],
                                             Labelled(["*Alternativas:*"], AlternativesText(r, prose.url)))]), " · "))
  {
    HeadingsUnbroken();
    MoreHeadingsUnbroken();
    EmptyUnbroken();
    hide LineBreak, AlternativesText, Labelled, NonEmpty, JoinWith;
    AlternativesUnbroken(r, prose);
    LabelledUnbroken(CANNOT_VERIFY, pending);
    LabelledUnbroken(["*Alternativas:*"], AlternativesText(r, prose.url));
    PairUnbroken(When(pending != "", Labelled(CANNOT_VERIFY, pending)),
                 When(r.alternatives != [], Labelled(["*Alternativas:*"], AlternativesText(r, prose.url))));
  }

  lemma AmbiguousTailUnbroken(r: Identification, prose: Prose, pending: string)
    requires OneLine(r, prose) && Unbroken(pending)
    ensures Unbroken(JoinWith(NonEmpty([When(r.alternatives != [],
                                             Labelled(["*Opciones:*"], AlternativesText(r, prose.url))),
                                        When(pending != "", Labelled(["*Falta:*"], pending))]), " · "))
  {
    HeadingsUnbroken();
    MoreHeadingsUnbroken();
    EmptyUnbroken();
    hide LineBreak, AlternativesText, Labelled, NonEmpty, JoinWith;
    AlternativesUnbroken(r, prose);
    LabelledUnbroken(["*Falta:*"], pending);
    LabelledUnbroken(["*Opciones:*"], AlternativesText(r, prose.url));
    PairUnbroken(When(r.alternatives != [], Labelled(["*Opciones:*"], AlternativesText(r, prose.url))),
                 When(pending != "", Labelled(["*Falta:*"], pending)));
  }

  lemma OneLineParts(r: Identification, prose: Prose)
    requires OneLine(r, prose)
    ensures Unbroken(prose.summary) && Unbroken(prose.clarification) && AllUnbroken(prose.unable)
    ensures r.arSummary.Some? ==> Unbroken(r.arSummary.value)
    ensures r.recommended.Some? ==> CustomerUnbroken(r.recommended.value, prose.url)
  {
  }

  lemma MatchUnbroken(r: Identification, prose: Prose, pending: string)
    requires r.recommended.Some? && OneLine(r, prose) && Unbroken(pending)
    ensures AllUnbroken(MatchLines(r, prose, pending)) && 1 <= |MatchLines(r, prose, pending)| <= 5
  {
    hide OneLine, Unbroken, Phrase, CustomerLink, AlternativesText, Clipped, Labelled, NonEmpty, JoinWith, Trimmed;
    OneLineParts(r, prose);
    MatchLineUnbroken(r.confidence);
    AccountUnbroken(r);
    ClientUnbroken(r.recommended.value, prose.url);
    WhyUnbroken(prose.summary, 34);
    MatchTailUnbroken(r, prose, pending);
  }

  lemma EmptyUnbroken()
    ensures Unbroken("")
  {
  }

  lemma NoCustomerUnbroken(prose: Prose, pending: string)
    requires Unbroken(prose.summary) && Unbroken(prose.clarification) && Unbroken(pending)
    ensures AllUnbroken(NoCustomerLines(prose, pending)) && 1 <= |NoCustomerLines(prose, pending)| <= 4
  {
    hide LineBreak, Unbroken, Phrase, Clipped, Labelled, QuestionLine, Trimmed;
    HeadingsUnbroken();
    NoCustomerLineUnbroken();
    PhraseUnbroken(["*Resultado:*", "no", "encontré", "un", "cliente."]);
    WhyUnbroken(prose.summary, 24);
    LabelledUnbroken(CANNOT_VERIFY, pending);
    QuestionUnbroken(prose.clarification);
  }

  lemma AmbiguousUnbroken(r: Identification, prose: Prose, pending: string)
    requires OneLine(r, prose) && Unbroken(pending)
    ensures AllUnbroken(AmbiguousLines(r, prose, pending)) && 1 <= |AmbiguousLines(r, prose, pending)| <= 4
  {
    hide OneLine, Unbroken, Phrase, AlternativesText, Clipped, Labelled, NonEmpty, JoinWith, QuestionLine, Trimmed;
    OneLineParts(r, prose);
    AmbiguousLineUnbroken();
    PhraseUnbroken(["*Resultado:*", "no", "sé;", "FinOps", "debe", "revisar", "el", "pago."]);
    WhyUnbroken(prose.summary, 24);
    AmbiguousTailUnbroken(r, prose, pending);
    QuestionUnbroken(prose.clarification);
  }

  lemma ScopeUnbroken(prose: Prose)
    requires Unbroken(prose.summary)
    ensures AllUnbroken([Labelled(["*Resultado:*"], Clipped(prose.summary, 25))])
  {
    HeadingsUnbroken();
    hide LineBreak, Clipped, Labelled;
    ClippedUnbroken(prose.summary, 25);
    LabelledUnbroken(["*Resultado:*"], Clipped(prose.summary, 25));
  }

  lemma LinesUnbroken(r: Identification, prose: Prose, images: Option<Images>)
    requires OutcomeConsistent(r) && OneLine(r, prose)
    ensures AllUnbroken(Lines(r, prose, images))
    ensures 1 <= |Lines(r, prose, images)|
            <= if r.outcome == OutOfScope then 1 else if r.outcome == Matched then 5 else 4
  {
    NoteUnbroken(images);
    PendingTextUnbroken(prose.unable, ImageNote(images));
    var pending := PendingText(prose.unable, ImageNote(images));
    hide Unbroken, AllUnbroken, PendingText, MatchLines, NoCustomerLines, AmbiguousLines, Labelled, Clipped;
    if r.outcome == OutOfScope {
      ScopeUnbroken(prose);
    } else if r.outcome == Matched {
      MatchUnbroken(r, prose, pending);
    } else if r.outcome == NoCustomerFound {
      NoCustomerUnbroken(prose, pending);
    } else {
      AmbiguousUnbroken(r, prose, pending);
    }
  }

  /** Rendering meets its auditor: when the CRM addresses hold no white space and the fields no line
      break, no rendered identification is too long, in words or in lines. */
  lemma RenderedNeverTooLong(r: Identification, prose: Prose, images: Option<Images>)
    requires OutcomeConsistent(r) && SolidUrls(r, prose.url) && OneLine(r, prose)
    ensures !ResponseTooLong(r, RenderIdentification(r, prose, images))
  {
    RenderedWords(r, prose, images);
    LinesUnbroken(r, prose, images);
    hide Words, Lines, LineBreak, SolidUrls, OneLine, Breaks;
    JoinedBreaks(Lines(r, prose, images));
    FilledByBreaks(RenderIdentification(r, prose, images), false);
  }

  /** So no mapped answer, from any ledger, is ever rendered too long. */
  lemma MappedNeverTooLong(answer: ModelAnswer, l: Ledger.Ledger, prose: Prose, images: Option<Images>)
    requires SolidUrls(MapOutput(answer, l), prose.url) && OneLine(MapOutput(answer, l), prose)
    ensures !ResponseTooLong(MapOutput(answer, l), RenderIdentification(MapOutput(answer, l), prose, images))
  {
    MapOutputConsistent(answer, l);
    hide MapOutput;
    RenderedNeverTooLong(MapOutput(answer, l), prose, images);
  }
}
