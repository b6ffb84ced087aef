/** What a rendered reply must say: the customer of a match, every alternative, and the notice about
    capture images that were not processed. */
module Content {
  import opened Records
  import opened Wording
  import opened Candidates
  import opened Decision
  import opened Rendering
  import M = Matching

  lemma Within(a: string, text: string, b: string, part: string)
    requires M.Contains(text, part)
    ensures M.Contains(a + text + b, part)
  {
    var k: nat :| k <= |text| && M.OccursAt(text, part, k);
    assert (a + text + b)[|a| + k..|a| + k + |part|] == text[k..k + |part|];
    assert M.OccursAt(a + text + b, part, |a| + k);
  }

  lemma {:induction false} InJoin(parts: seq<string>, separator: string, i: nat, part: string)
    requires i < |parts| && M.Contains(parts[i], part)
    ensures M.Contains(JoinWith(parts, separator), part)
  {
    hide M.Contains;
    if |parts| > 1 {
      var rest := JoinWith(parts[1..], separator);
      if i == 0 {
        Within("", parts[0], separator + rest, part);
        assert "" + parts[0] + (separator + rest) == parts[0] + separator + rest;
      } else {
        InJoin(parts[1..], separator, i - 1, part);
        Within(parts[0] + separator, rest, "", part);
        assert parts[0] + separator + rest + "" == parts[0] + separator + rest;
      }
    }
  }

  lemma Itself(text: string)
    ensures M.Contains(text, text)
  {
    assert M.OccursAt(text, text, 0);
  }

  lemma InLabelled(heading: seq<string>, text: string, part: string)
    requires M.Contains(text, part)
    ensures M.Contains(Labelled(heading, text), part)
  {
    hide M.Contains;
    Within(Phrase(heading) + " ", text, "", part);
    assert Phrase(heading) + " " + text + "" == Labelled(heading, text);
  }

  lemma LinkOpens(name: string, url: string, maxWords: nat)
    ensures M.Contains(CustomerLink(name, url, maxWords), "<" + url + "|")
  {
    var opening, rest := "<" + url + "|", Phrase(Take(SplitWords(name), maxWords)) + ">";
    Itself(opening);
    Within("", opening, rest, opening);
    assert CustomerLink(name, url, maxWords) == "" + opening + rest;
  }

  lemma CustomerShows(r: Identification, prose: Prose, images: Option<Images>, part: string)
    requires r.outcome == Matched && r.recommended.Some?
    requires var c := r.recommended.value; M.Contains(CustomerLink(c.name, prose.url(c.orderId), 8), part)
    ensures M.Contains(RenderIdentification(r, prose, images), part)
  {
    hide M.Contains, CustomerLink, Labelled, JoinWith, Phrase, AlternativesText, PendingText, Clipped, NonEmpty;
    var c := r.recommended.value;
    InLabelled(["*Cliente:*"], CustomerLink(c.name, prose.url(c.orderId), 8), part);
    InJoin(Lines(r, prose, images), "\n", 1, part);
  }

  /** A match names its customer and links to its order. */
  lemma MatchShowsCustomer(r: Identification, prose: Prose, images: Option<Images>)
    requires r.outcome == Matched && r.recommended.Some?
    ensures var c := r.recommended.value;
            && M.Contains(RenderIdentification(r, prose, images), CustomerLink(c.name, prose.url(c.orderId), 8))
            && M.Contains(RenderIdentification(r, prose, images), "<" + prose.url(c.orderId) + "|")
  {
    var c := r.recommended.value;
    LinkOpens(c.name, prose.url(c.orderId), 8);
    Itself(CustomerLink(c.name, prose.url(c.orderId), 8));
    hide M.Contains, CustomerLink, RenderIdentification;
    CustomerShows(r, prose, images, CustomerLink(c.name, prose.url(c.orderId), 8));
    CustomerShows(r, prose, images, "<" + prose.url(c.orderId) + "|");
  }

  // ---------- the image notice ----------

  lemma NoteKept(images: Option<Images>)
    requires ImageNote(images) != ""
    ensures Clipped(ImageNote(images), 5) == ImageNote(images)
  {
    var words := [NatText(images.value.unprocessed) + "/" + NatText(images.value.requested),
                  "capturas", "no", "procesadas"];
    NoteSolid(images);
    hide Words, Phrase, Strip, NatText, Solid, EndSentence, ImageNote, Pieces;
    PhraseWords(words);
    PhraseEnds(words);
    NoteEnd(words[0]);
    StripTrimmed(Phrase(words));
  }

  lemma NoteSolid(images: Option<Images>)
    requires ImageNote(images) != ""
    ensures var words := [NatText(images.value.unprocessed) + "/" + NatText(images.value.requested),
                          "capturas", "no", "procesadas"];
            AllSolid(words) && ImageNote(images) == Phrase(words)
  {
    hide Phrase, NatText;
    SolidJoined(NatText(images.value.unprocessed), NatText(images.value.requested));
    assert Solid("capturas") && Solid("no") && Solid("procesadas");
  }

  lemma SolidJoined(a: string, b: string)
    requires Solid(a) && Solid(b) && a != ""
    ensures Solid(a + "/" + b) && a + "/" + b != ""
  {
  }

  lemma {:induction false} JoinEnds(parts: seq<string>, last: string)
    requires parts != [] && parts[|parts| - 1] == last && last != ""
    ensures var joined := JoinWith(parts, " ");
            |joined| >= |last| && joined[|joined| - |last|..] == last
  {
    if |parts| > 1 {
      JoinEnds(parts[1..], last);
      var rest := JoinWith(parts[1..], " ");
      var joined := JoinWith(parts, " ");
      assert joined == parts[0] + " " + rest;
      assert joined[|joined| - |last|..] == rest[|rest| - |last|..];
    }
  }

  /** The note ends with a word, not with an ellipsis. */
  lemma NoteEnd(first: string)
    ensures var note := Phrase([first, "capturas", "no", "procesadas"]); EndSentence(note) == note
  {
    var note := Phrase([first, "capturas", "no", "procesadas"]);
    JoinEnds([first, "capturas", "no", "procesadas"], "procesadas");
    hide JoinWith, Phrase;
    assert note[|note| - 1] == note[|note| - 10..][9] == 's';
    assert note[|note| - 3..][2] == note[|note| - 1];
  }

  lemma NotePending(unable: seq<string>, images: Option<Images>)
    requires ImageNote(images) != ""
    ensures M.Contains(PendingText(unable, ImageNote(images)), ImageNote(images))
  {
    var note := ImageNote(images);
    var details := Details(unable, note);
    var n := |details| - 1;
    assert details[n] == note;
    NoteKept(images);
    Itself(note);
    hide M.Contains, Clipped, Details, ImageNote;
    InJoin(ClipAll(details, 5), ", ", n, note);
  }

  lemma ContainsSomething(text: string, part: string)
    requires M.Contains(text, part) && part != ""
    ensures text != ""
  {
  }

  lemma InFirst(first: string, second: string, part: string)
    requires M.Contains(first, part) && part != ""
    ensures NonEmpty([first, second]) != [] && M.Contains(JoinWith(NonEmpty([first, second]), " · "), part)
  {
    ContainsSomething(first, part);
    hide M.Contains;
    assert [first, second][1..] == [second] && [second][1..] == [];
    assert NonEmpty([first, second])[0] == first;
    InJoin(NonEmpty([first, second]), " · ", 0, part);
  }

  lemma InSecond(first: string, second: string, part: string)
    requires M.Contains(second, part) && part != ""
    ensures NonEmpty([first, second]) != [] && M.Contains(JoinWith(NonEmpty([first, second]), " · "), part)
  {
    ContainsSomething(second, part);
    hide M.Contains;
    assert [first, second][1..] == [second] && [second][1..] == [];
    var parts := NonEmpty([first, second]);
    assert NonEmpty([second]) == [second];
    assert parts[|parts| - 1] == second;
    InJoin(parts, " · ", |parts| - 1, part);
  }

  lemma MatchShowsPending(r: Identification, prose: Prose, pending: string, note: string)
    requires r.recommended.Some? && M.Contains(pending, note) && note != ""
    ensures M.Contains(JoinWith(MatchLines(r, prose, pending), "\n"), note)
  {
    ContainsSomething(pending, note);
    hide M.Contains, CustomerLink, Labelled, JoinWith, Phrase, AlternativesText, Clipped, NonEmpty;
    InLabelled(CANNOT_VERIFY, pending, note);
    InFirst(Labelled(CANNOT_VERIFY, pending),
            When(r.alternatives != [], Labelled(["*Alternativas:*"], AlternativesText(r, prose.url))), note);
    var lines := MatchLines(r, prose, pending);
    InJoin(lines, "\n", |lines| - 1, note);
  }

  lemma ThirdLine(a: string, b: string, c: string, d: seq<string>, part: string)
    requires M.Contains(c, part)
    ensures M.Contains(JoinWith([a, b] + [c] + d, "\n"), part)
  {
    hide M.Contains, JoinWith;
    InJoin([a, b] + [c] + d, "\n", 2, part);
  }

  lemma NoCustomerShowsPending(prose: Prose, pending: string, note: string)
    requires M.Contains(pending, note) && note != ""
    ensures M.Contains(JoinWith(NoCustomerLines(prose, pending), "\n"), note)
  {
    ContainsSomething(pending, note);
    hide M.Contains, Labelled, JoinWith, Phrase, Clipped, QuestionLine;
    InLabelled(CANNOT_VERIFY, pending, note);
    ThirdLine(Phrase(["*Resultado:*", "no", "encontré", "un", "cliente."]),
              Labelled(["*Por", "qué:*"], Clipped(prose.summary, 24)), Labelled(CANNOT_VERIFY, pending),
              if prose.clarification != "" then [QuestionLine(prose.clarification)] else [], note);
  }

  /** Whatever the details of an ambiguous answer contain, the answer shows. */
  lemma AmbiguousShows(r: Identification, prose: Prose, pending: string, part: string)
    requires var details := NonEmpty([When(r.alternatives != [],
                                           Labelled(["*Opciones:*"], AlternativesText(r, prose.url))),
                                      When(pending != "", Labelled(["*Falta:*"], pending))]);
             details != [] && M.Contains(JoinWith(details, " · "), part)
    ensures M.Contains(JoinWith(AmbiguousLines(r, prose, pending), "\n"), part)
  {
    hide M.Contains, Labelled, JoinWith, Phrase, AlternativesText, Clipped, NonEmpty, QuestionLine, When;
    var details := NonEmpty([When(r.alternatives != [], Labelled(["*Opciones:*"], AlternativesText(r, prose.url))),
                             When(pending != "", Labelled(["*Falta:*"], pending))]);
    ThirdLine(Phrase(["*Resultado:*", "no", "sé;", "FinOps", "debe", "revisar", "el", "pago."]),
              Labelled(["*Por", "qué:*"], Clipped(prose.summary, 24)), JoinWith(details, " · "),
              if prose.clarification != "" then [QuestionLine(prose.clarification)] else [], part);
  }

  lemma AmbiguousShowsPending(r: Identification, prose: Prose, pending: string, note: string)
    requires M.Contains(pending, note) && note != ""
    ensures M.Contains(JoinWith(AmbiguousLines(r, prose, pending), "\n"), note)
  {
    ContainsSomething(pending, note);
    hide M.Contains, Labelled, JoinWith, Phrase, AlternativesText, NonEmpty, AmbiguousLines;
    InLabelled(["*Falta:*"], pending, note);
    InSecond(When(r.alternatives != [], Labelled(["*Opciones:*"], AlternativesText(r, prose.url))),
             When(pending != "", Labelled(["*Falta:*"], pending)), note);
    AmbiguousShows(r, prose, pending, note);
  }

  /** Unprocessed captures are always reported, however much else could not be verified. */
  lemma ImageNoteShown(r: Identification, prose: Prose, images: Option<Images>)
    requires r.outcome != OutOfScope && ImageNote(images) != ""
    ensures M.Contains(RenderIdentification(r, prose, images), ImageNote(images))
  {
    var note := ImageNote(images);
    NotePending(prose.unable, images);
    hide M.Contains, MatchLines, NoCustomerLines, AmbiguousLines, JoinWith, PendingText, ImageNote;
    var pending := PendingText(prose.unable, note);
    if r.outcome == Matched && r.recommended.Some? {
      MatchShowsPending(r, prose, pending, note);
    } else if r.outcome == NoCustomerFound {
      NoCustomerShowsPending(prose, pending, note);
    } else {
      AmbiguousShowsPending(r, prose, pending, note);
    }
  }

  lemma AlternativeShows(c: Customer, r: Identification, url: string)
    ensures M.Contains(AlternativeText(c, r.evidence, url), CustomerLink(c.name, url, 5))
  {
    hide M.Contains, CustomerLink, Phrase, ReasonWords, Reasons;
    var link := CustomerLink(c.name, url, 5);
    var reasons := Phrase(ReasonWords(Reasons(c.evidenceIds, r.evidence)));
    Itself(link);
    Within("", link, " — " + reasons, link);
    assert "" + link + (" — " + reasons) == AlternativeText(c, r.evidence, url);
  }

  lemma AmbiguousShowsText(r: Identification, prose: Prose, pending: string, part: string)
    requires M.Contains(AlternativesText(r, prose.url), part) && part != "" && r.alternatives != []
    ensures M.Contains(JoinWith(AmbiguousLines(r, prose, pending), "\n"), part)
  {
    hide M.Contains, Labelled, JoinWith, Phrase, AlternativesText, NonEmpty, AmbiguousLines;
    InLabelled(["*Opciones:*"], AlternativesText(r, prose.url), part);
    InFirst(When(r.alternatives != [], Labelled(["*Opciones:*"], AlternativesText(r, prose.url))),
            When(pending != "", Labelled(["*Falta:*"], pending)), part);
    AmbiguousShows(r, prose, pending, part);
  }

  lemma LinkNotEmpty(name: string, url: string)
    ensures CustomerLink(name, url, 5) != ""
  {
    hide Phrase, SplitWords;
  }

  lemma AlternativesShow(r: Identification, url: string -> string, i: nat)
    requires i < |r.alternatives| <= 3
    ensures var c := r.alternatives[i]; M.Contains(AlternativesText(r, url), CustomerLink(c.name, url(c.orderId), 5))
  {
    var c := r.alternatives[i];
    AlternativeShows(c, r, url(c.orderId));
    hide M.Contains, CustomerLink, JoinWith, AlternativeText;
    assert AlternativeTexts(r, url)[i] == AlternativeText(c, r.evidence, url(c.orderId));
    InJoin(AlternativeTexts(r, url), "; ", i, CustomerLink(c.name, url(c.orderId), 5));
  }

  /** Every alternative of an ambiguous answer is shown, with its link. */
  lemma AlternativesShown(r: Identification, prose: Prose, images: Option<Images>, i: nat)
    requires r.outcome == Ambiguous && i < |r.alternatives| <= 3
    ensures var c := r.alternatives[i];
            M.Contains(RenderIdentification(r, prose, images), CustomerLink(c.name, prose.url(c.orderId), 5))
  {
    hide M.Contains, CustomerLink, JoinWith, AmbiguousLines, AlternativesText, PendingText, ImageNote;
    var c := r.alternatives[i];
    LinkNotEmpty(c.name, prose.url(c.orderId));
    AlternativesShow(r, prose.url, i);
    AmbiguousShowsText(r, prose, PendingText(prose.unable, ImageNote(images)),
                       CustomerLink(c.name, prose.url(c.orderId), 5));
  }

  lemma {:induction false} JoinTail(parts: seq<string>, separator: string) returns (front: string)
    requires parts != []
    ensures JoinWith(parts, separator) == front + parts[|parts| - 1]
  {
    if |parts| == 1 {
      front := "";
    } else {
      var rest := JoinTail(parts[1..], separator);
      front := parts[0] + separator + rest;
      var last := parts[|parts| - 1];
      assert parts[1..][|parts| - 2] == last;
      assert JoinWith(parts, separator) == parts[0] + separator + (rest + last) == front + last;
    }
  }

  /** A general answer always ends with the notice it was given. */
  lemma SuffixKept(value: string, limit: nat, suffix: string) returns (front: string)
    requires suffix != ""
    ensures Limited(value, limit, suffix) == front + suffix
  {
    hide Kept, Prepare, Words;
    front := JoinTail(Kept(Prepare(value), Available(limit, suffix)) + [suffix], "\n");
  }

  /** The number a decimal numeral stands for. */
  function Number(text: string): int {
    if text == "" then 0 else 10 * Number(text[..|text| - 1]) + (text[|text| - 1] as int - '0' as int)
  }

  lemma {:induction false} NatTextReads(n: nat)
    ensures Number(NatText(n)) == n
  {
    if n < 10 {
      assert NatText(n)[..0] == "";
    } else {
      NatTextReads(n / 10);
      assert NatText(n)[..|NatText(n)| - 1] == NatText(n / 10);
    }
  }

  /** Unprocessed captures are counted: a reply says how many of how many, and nothing when all were processed. */
  lemma NoteCounts(r: Identification, prose: Prose, images: Option<Images>)
    requires r.outcome != OutOfScope
    ensures images.None? || images.value.unprocessed == 0 ==> ImageNote(images) == ""
    ensures images.Some? && images.value.unprocessed > 0 ==>
              exists some, all ::
                && Number(some) == images.value.unprocessed && Number(all) == images.value.requested
                && M.Contains(RenderIdentification(r, prose, images), some + "/" + all + " capturas no procesadas")
  {
    if images.Some? && images.value.unprocessed > 0 {
      var some, all := NatText(images.value.unprocessed), NatText(images.value.requested);
      NatTextReads(images.value.unprocessed);
      NatTextReads(images.value.requested);
      assert ImageNote(images) == some + "/" + all + " capturas no procesadas" by { FourWords(some + "/" + all); }
      hide ImageNote, NatText, Number, M.Contains, RenderIdentification;
      ImageNoteShown(r, prose, images);
    }
  }

  lemma FourWords(first: string)
    ensures Phrase([first, "capturas", "no", "procesadas"]) == first + " capturas no procesadas"
  {
    assert ["no", "procesadas"][1..] == ["procesadas"];
    assert JoinWith(["no", "procesadas"], " ") == "no procesadas";
    assert ["capturas", "no", "procesadas"][1..] == ["no", "procesadas"];
    assert JoinWith(["capturas", "no", "procesadas"], " ") == "capturas no procesadas";
    assert [first, "capturas", "no", "procesadas"][1..] == ["capturas", "no", "procesadas"];
  }

  /** A general answer ends with the same counts. */
  lemma NoticeCounts(answer: string, limit: nat, images: Option<Images>)
    returns (front: string, some: string, all: string)
    requires images.Some? && images.value.unprocessed > 0
    ensures Number(some) == images.value.unprocessed && Number(all) == images.value.requested
    ensures Limited(answer, limit, ImageNotice(images))
            == front + ("No pude procesar " + some + " de " + all + " capturas.")
  {
    some, all := NatText(images.value.unprocessed), NatText(images.value.requested);
    NatTextReads(images.value.unprocessed);
    NatTextReads(images.value.requested);
    SevenWords(some, all);
    front := SuffixKept(answer, limit, ImageNotice(images));
  }

  lemma PhraseStep(word: string, words: seq<string>)
    requires words != []
    ensures Phrase([word] + words) == word + " " + Phrase(words)
  {
    assert ([word] + words)[1..] == words;
  }

  lemma SevenWords(some: string, all: string)
    ensures Phrase(["No", "pude", "procesar", some, "de", all, "capturas."])
            == "No pude procesar " + some + " de " + all + " capturas."
  {
    PhraseStep(all, ["capturas."]);
    PhraseStep("de", [all, "capturas."]);
    PhraseStep(some, ["de", all, "capturas."]);
    PhraseStep("procesar", [some, "de", all, "capturas."]);
    PhraseStep("pude", ["procesar", some, "de", all, "capturas."]);
    PhraseStep("No", ["pude", "procesar", some, "de", all, "capturas."]);
    assert Phrase(["capturas."]) == "capturas.";
    hide Phrase, JoinWith;
    SevenJoined(some, all);
    assert ["de"] + [all, "capturas."] == ["de", all, "capturas."];
    assert [some] + ["de", all, "capturas."] == [some, "de", all, "capturas."];
    assert ["procesar"] + [some, "de", all, "capturas."] == ["procesar", some, "de", all, "capturas."];
    assert ["pude"] + ["procesar", some, "de", all, "capturas."] == ["pude", "procesar", some, "de", all, "capturas."];
  }

  lemma SevenJoined(some: string, all: string)
    ensures "No" + " " + ("pude" + " " + ("procesar" + " " + (some + " " + ("de" + " " + (all + " " + "capturas.")))))
            == "No pude procesar " + some + " de " + all + " capturas."
  {
  }

  // ---------- every part of a reply ----------

  lemma LineShown(r: Identification, prose: Prose, images: Option<Images>, i: nat, part: string)
    requires i < |Lines(r, prose, images)| && M.Contains(Lines(r, prose, images)[i], part)
    ensures M.Contains(RenderIdentification(r, prose, images), part)
  {
    hide M.Contains, Lines;
    InJoin(Lines(r, prose, images), "\n", i, part);
  }

  /** A match says how sure it is, and why; and it shows the account, if there is one. */
  lemma MatchShowsVerdict(r: Identification, prose: Prose, images: Option<Images>)
    requires r.outcome == Matched && r.recommended.Some? && (r.confidence == High || r.confidence == Medium)
    ensures var body := RenderIdentification(r, prose, images);
            && M.Contains(body, Phrase(["*Resultado:*", "coincidencia", "—", "confianza",
                                        if r.confidence == High then "alta." else "media."]))
            && M.Contains(body, Labelled(["*Por", "qué:*"], Clipped(prose.summary, 34)))
            && (r.arSummary.Some? && r.arSummary.value != "" ==>
                  M.Contains(body, Labelled(["*Cuenta:*"], Clipped(r.arSummary.value, 16))))
  {
    hide M.Contains, CustomerLink, Labelled, JoinWith, Phrase, AlternativesText, PendingText, Clipped, NonEmpty;
    var lines := Lines(r, prose, images);
    Itself(lines[0]);
    LineShown(r, prose, images, 0, lines[0]);
    assert ["*Resultado:*", "coincidencia", "—", "confianza"] + ConfidenceText(r.confidence)
        == ["*Resultado:*", "coincidencia", "—", "confianza", if r.confidence == High then "alta." else "media."];
    Itself(lines[2]);
    LineShown(r, prose, images, 2, lines[2]);
    if r.arSummary.Some? && r.arSummary.value != "" {
      Itself(lines[3]);
      LineShown(r, prose, images, 3, lines[3]);
    }
  }

  /** An answer without a match says so, and why, and asks its question, if it has one. */
  lemma OthersShowVerdict(r: Identification, prose: Prose, images: Option<Images>)
    requires r.outcome == NoCustomerFound || r.outcome == Ambiguous
    ensures var body := RenderIdentification(r, prose, images);
            && M.Contains(body, if r.outcome == NoCustomerFound
                                then Phrase(["*Resultado:*", "no", "encontré", "un", "cliente."])
                                else Phrase(["*Resultado:*", "no", "sé;", "FinOps", "debe", "revisar", "el", "pago."]))
            && M.Contains(body, Labelled(["*Por", "qué:*"], Clipped(prose.summary, 24)))
            && (prose.clarification != "" ==>
                  M.Contains(body, Clipped(Phrase(SplitWords(prose.clarification)), 20)))
  {
    hide M.Contains, CustomerLink, Labelled, JoinWith, Phrase, AlternativesText, PendingText, Clipped, NonEmpty,
         SplitWords;
    var lines := Lines(r, prose, images);
    Itself(lines[0]);
    LineShown(r, prose, images, 0, lines[0]);
    Itself(lines[1]);
    LineShown(r, prose, images, 1, lines[1]);
    if prose.clarification != "" {
      Itself(lines[|lines| - 1]);
      LineShown(r, prose, images, |lines| - 1, lines[|lines| - 1]);
    }
  }

  /** An answer to something else says only why. */
  lemma OutOfScopeShowsReason(r: Identification, prose: Prose, images: Option<Images>)
    requires r.outcome == OutOfScope
    ensures RenderIdentification(r, prose, images) == Labelled(["*Resultado:*"], Clipped(prose.summary, 25))
  {
    hide Labelled, Clipped;
  }

  /** The words by which evidence is called in a reply. */
  function ReasonName(kind: EvidenceKind): seq<string> {
    match kind
    case ExactAddressKind => ["dirección", "exacta"]
    case PartialAddressKind => ["dirección", "parcial"]
    case CustomerName => ["nombre", "del", "cliente"]
    case SigneeName => ["nombre", "de", "firmante"]
    case NameFragment => ["fragmento", "de", "nombre"]
    case Rut => ["RUT"]
    case Email => ["correo"]
    case Phone => ["teléfono"]
    case BankName => ["titular", "bancario"]
    case BankAccount => ["cuenta", "bancaria"]
    case ExactOutstanding => ["saldo", "exacto"]
    case PartialPayment => ["abono", "posible"]
    case VambeContext => ["contexto", "de", "Vambe"]
    case _ => []
  }

  lemma NameIsLabel(kind: EvidenceKind)
    ensures Label(kind) == ReasonName(kind)
  {
  }

  /** The identifier is that of a supporting signal whose kind goes by these words. */
  predicate NamedBy(id: nat, evidence: seq<Signal>, words: seq<string>) {
    var found := Find(evidence, id);
    found.Some? && found.value.polarity == Supporting && ReasonName(found.value.kind) == words && words != []
  }

  /** The customer cites a supporting signal that goes by these words in replies. */
  predicate CitesNamed(ids: seq<nat>, evidence: seq<Signal>, words: seq<string>) {
    exists i | 0 <= i < |ids| :: NamedBy(ids[i], evidence, words)
  }

  lemma ReasonAdded(ids: seq<nat>, id: nat, evidence: seq<Signal>)
    ensures var front, all := Reasons(ids, evidence), Reasons(ids + [id], evidence);
            || all == front
            || (all == front + [all[|front|]] && all[|front|] !in front && NamedBy(id, evidence, all[|front|]))
    ensures forall words | NamedBy(id, evidence, words) :: words in Reasons(ids + [id], evidence)
  {
    assert (ids + [id])[..|ids|] == ids;
    var found := Find(evidence, id);
    if found.Some? { NameIsLabel(found.value.kind); }
    hide Label, ReasonName, Find;
  }

  /** The reasons are the names of the cited supporting evidence, all of them and each once. */
  lemma {:induction false} ReasonsExactly(ids: seq<nat>, evidence: seq<Signal>)
    ensures forall words :: words in Reasons(ids, evidence) <==> CitesNamed(ids, evidence, words)
    ensures forall i, j | 0 <= i < j < |Reasons(ids, evidence)| ::
              Reasons(ids, evidence)[i] != Reasons(ids, evidence)[j]
  {
    if ids != [] {
      var n := |ids| - 1;
      ReasonsExactly(ids[..n], evidence);
      ReasonAdded(ids[..n], ids[n], evidence);
      assert ids[..n] + [ids[n]] == ids;
      hide Reasons, NamedBy;
      assert forall i | 0 <= i < n :: ids[..n][i] == ids[i];
    }
  }

  lemma FirstWords(words: seq<string>, more: seq<string>)
    requires words != []
    ensures M.Contains(Phrase(words + more), Phrase(words))
    decreases |words|
  {
    PhrasePrefix(words, more);
    hide JoinWith;
    var rest := Phrase(words + more)[|Phrase(words)|..];
    Itself(Phrase(words));
    Within("", Phrase(words), rest, Phrase(words));
    assert "" + Phrase(words) + rest == Phrase(words + more);
  }

  lemma {:induction false} PhrasePrefix(words: seq<string>, more: seq<string>)
    requires words != []
    ensures Phrase(words) <= Phrase(words + more)
    decreases |words|
  {
    if |words| == 1 {
      assert words + more == [words[0]] + more;
    } else {
      PhrasePrefix(words[1..], more);
      assert (words + more)[1..] == words[1..] + more;
    }
  }

  lemma {:induction false} PhraseSuffix(words: seq<string>, more: seq<string>)
    requires more != []
    ensures |Phrase(more)| <= |Phrase(words + more)|
    ensures Phrase(words + more)[|Phrase(words + more)| - |Phrase(more)|..] == Phrase(more)
    decreases |words|
  {
    if words == [] {
      assert words + more == more;
    } else {
      PhraseSuffix(words[1..], more);
      assert (words + more)[1..] == words[1..] + more;
      var rest := Phrase(words[1..] + more);
      assert Phrase(words + more) == words[0] + " " + rest;
    }
  }

  lemma LastWords(words: seq<string>, more: seq<string>)
    requires more != []
    ensures M.Contains(Phrase(words + more), Phrase(more))
  {
    PhraseSuffix(words, more);
    hide JoinWith;
    var whole := Phrase(words + more);
    var front := whole[..|whole| - |Phrase(more)|];
    Itself(Phrase(more));
    Within(front, Phrase(more), "", Phrase(more));
    assert front + Phrase(more) + "" == whole;
  }

  lemma ReasonWordsShown(reasons: seq<seq<string>>, i: nat)
    requires i < |reasons| && i < 2 && forall k | 0 <= k < |reasons| :: reasons[k] != []
    ensures M.Contains(Phrase(ReasonWords(reasons)), Phrase(reasons[i]))
  {
    hide M.Contains, Phrase;
    if |reasons| == 1 {
      Itself(Phrase(reasons[0]));
    } else if i == 0 {
      FirstWords(reasons[0], ["+"] + reasons[1]);
      assert reasons[0] + (["+"] + reasons[1]) == ReasonWords(reasons);
    } else {
      LastWords(reasons[0] + ["+"], reasons[1]);
    }
  }

  /** An alternative shows its first two reasons, or that its evidence is to be verified when there is none. */
  lemma ReasonsShown(c: Customer, evidence: seq<Signal>, url: string)
    ensures var reasons := Reasons(c.evidenceIds, evidence);
            var text := AlternativeText(c, evidence, url);
            && (reasons == [] ==> M.Contains(text, Phrase(["evidencia", "por", "verificar"])))
            && (forall i | 0 <= i < |reasons| && i < 2 :: M.Contains(text, Phrase(reasons[i])))
  {
    var reasons := Reasons(c.evidenceIds, evidence);
    var words := ReasonWords(reasons);
    assert reasons == [] ==> words == ["evidencia", "por", "verificar"];
    hide M.Contains, CustomerLink, Phrase, ReasonWords, Reasons;
    var front := CustomerLink(c.name, url, 5) + " — ";
    assert AlternativeText(c, evidence, url) == front + Phrase(words) + "";
    Itself(Phrase(words));
    Within(front, Phrase(words), "", Phrase(words));
    forall i | 0 <= i < |reasons| && i < 2
      ensures M.Contains(AlternativeText(c, evidence, url), Phrase(reasons[i]))
    {
      ReasonWordsShown(reasons, i);
      Within(front, Phrase(words), "", Phrase(reasons[i]));
    }
  }

  // ---------- what could not be verified ----------

  /** The first items that could not be verified are named: two when capture images went unprocessed, three
      otherwise. */
  lemma UnverifiedShown(unable: seq<string>, note: string, i: nat)
    requires i < |unable| && i < (if note != "" then 2 else 3)
    requires forall k | 0 <= k <= i :: unable[k] != note
    ensures M.Contains(PendingText(unable, note), Clipped(unable[i], 5))
  {
    ExceptKeeps(unable, note, i);
    var details := Details(unable, note);
    assert details[i] == unable[i];
    Itself(Clipped(unable[i], 5));
    hide M.Contains, Clipped, Details;
    InJoin(ClipAll(details, 5), ", ", i, Clipped(unable[i], 5));
  }

  lemma {:induction false} ExceptKeeps(items: seq<string>, item: string, i: nat)
    requires i < |items| && forall k | 0 <= k <= i :: items[k] != item
    ensures i < |Except(items, item)| && Except(items, item)[i] == items[i]
  {
    if i > 0 {
      assert forall k | 0 <= k <= i - 1 :: items[1..][k] == items[k + 1];
      ExceptKeeps(items[1..], item, i - 1);
    }
  }

  /** Whatever could not be verified is shown, whatever the outcome, unless the request was out of scope. */
  lemma PendingShown(r: Identification, prose: Prose, images: Option<Images>, part: string)
    requires r.outcome != OutOfScope && part != "" && M.Contains(PendingText(prose.unable, ImageNote(images)), part)
    ensures M.Contains(RenderIdentification(r, prose, images), part)
  {
    hide M.Contains, MatchLines, NoCustomerLines, AmbiguousLines, JoinWith, PendingText, ImageNote;
    var pending := PendingText(prose.unable, ImageNote(images));
    if r.outcome == Matched && r.recommended.Some? {
      MatchShowsPending(r, prose, pending, part);
    } else if r.outcome == NoCustomerFound {
      NoCustomerShowsPending(prose, pending, part);
    } else {
      AmbiguousShowsPending(r, prose, pending, part);
    }
  }
}
