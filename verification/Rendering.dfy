/** The Slack text of an identification, and the length the auditor allows it. */
module Rendering {
  import opened Records
  import opened Wording
  import opened Candidates
  import opened Decision
  import opened Ledger

  /** How many capture images were requested and not processed; nothing is said when all were. */
  datatype Images = Images(unprocessed: nat, requested: nat)

  /** The parts of a reply the decision does not determine: prose, and the CRM address of an order. */
  datatype Prose = Prose(summary: string, unable: seq<string>, clarification: string, url: string -> string)

  function NatText(n: nat): (text: string)
    ensures text != "" && Solid(text)
  {
    if n < 10 then [('0' as int + n) as char] else NatText(n / 10) + [('0' as int + n % 10) as char]
  }

  function ImageNote(images: Option<Images>): string {
    if images.Some? && images.value.unprocessed > 0
    then Phrase([NatText(images.value.unprocessed) + "/" + NatText(images.value.requested),
                 "capturas", "no", "procesadas"])
    else ""
  }

  /** The notice a general answer must end with. */
  function ImageNotice(images: Option<Images>): string {
    if images.Some? && images.value.unprocessed > 0
    then Phrase(["No", "pude", "procesar", NatText(images.value.unprocessed), "de",
                 NatText(images.value.requested), "capturas."])
    else ""
  }

  function Except(items: seq<string>, item: string): seq<string> {
    if items == [] then [] else (if items[0] != item then [items[0]] else []) + Except(items[1..], item)
  }

  function Take<T>(items: seq<T>, n: nat): (r: seq<T>)
    ensures |r| <= n && r <= items
  {
    if |items| <= n then items else items[..n]
  }

  /** What could not be verified: at most three items, and always the image note. */
  function Details(unable: seq<string>, note: string): (r: seq<string>)
    ensures |r| <= 3
  {
    Take(Except(unable, note), if note != "" then 2 else 3) + if note != "" then [note] else []
  }

  function ClipAll(items: seq<string>, limit: nat): (r: seq<string>)
    ensures |r| == |items| && forall i | 0 <= i < |r| :: r[i] == Clipped(items[i], limit)
  {
    seq(|items|, i requires 0 <= i < |items| => Clipped(items[i], limit))
  }

  function PendingText(unable: seq<string>, note: string): string {
    JoinWith(ClipAll(Details(unable, note), 5), ", ")
  }

  function CustomerLink(name: string, url: string, maxWords: nat): string {
    "<" + url + "|" + Phrase(Take(SplitWords(name), maxWords)) + ">"
  }

  function Label(kind: EvidenceKind): seq<string> {
    match kind
    case ExactAddressKind => ["dirección", "exacta"]
    case PartialAddressKind => ["dirección", "parcial"]
    case CustomerName => ["nombre", "del", "cliente"]
    case SigneeName => ["nombre", "de", "firmante"]
    case NameFragment => ["fragmento", "de", "nombre"]
    case Rut => ["RUT"]
    case Email => ["correo"]
    case Phone => ["teléfono"]
    case BankName => ["titular", "bancario"]
    case BankAccount => ["cuenta", "bancaria"]
    case ExactOutstanding => ["saldo", "exacto"]
    case PartialPayment => ["abono", "posible"]
    case VambeContext => ["contexto", "de", "Vambe"]
    case _ => []
  }

  /** The labels of the supporting signals the customer cites, each once, in citation order. */
  function Reasons(ids: seq<nat>, evidence: seq<Signal>): (r: seq<seq<string>>)
    ensures forall i | 0 <= i < |r| :: r[i] != [] && exists kind :: r[i] == Label(kind)
  {
    if ids == [] then []
    else
      var front := Reasons(ids[..|ids| - 1], evidence);
      var found := Find(evidence, ids[|ids| - 1]);
      if found.Some? && found.value.polarity == Supporting && Label(found.value.kind) != []
         && Label(found.value.kind) !in front
      then front + [Label(found.value.kind)] else front
  }

  /** The first two reasons, as words. */
  function ReasonWords(reasons: seq<seq<string>>): seq<string> {
    if reasons == [] then ["evidencia", "por", "verificar"]
    else if |reasons| == 1 then reasons[0]
    else reasons[0] + ["+"] + reasons[1]
  }

  function AlternativeText(c: Customer, evidence: seq<Signal>, url: string): string {
    CustomerLink(c.name, url, 5) + " — " + Phrase(ReasonWords(Reasons(c.evidenceIds, evidence)))
  }

  function AlternativeTexts(r: Identification, url: string -> string): (texts: seq<string>)
    ensures |texts| <= 3
  {
    var shown := Take(r.alternatives, 3);
    seq(|shown|, i requires 0 <= i < |shown| => AlternativeText(shown[i], r.evidence, url(shown[i].orderId)))
  }

  function AlternativesText(r: Identification, url: string -> string): string {
    JoinWith(AlternativeTexts(r, url), "; ")
  }

  function ConfidenceText(c: Confidence): seq<string> {
    match c
    case High => ["alta."]
    case Medium => ["media."]
    case Low => ["baja."]
    case Unknown => ["no", "sé."]
  }

  function Labelled(heading: seq<string>, text: string): string {
    Phrase(heading) + " " + text
  }

  function NonEmpty(texts: seq<string>): seq<string> {
    if texts == [] then [] else (if texts[0] != "" then [texts[0]] else []) + NonEmpty(texts[1..])
  }

  function When(condition: bool, line: string): string {
    if condition then line else ""
  }

  const CANNOT_VERIFY := ["*No", "pude", "verificar:*"]

  function QuestionLine(clarification: string): string {
    Clipped(Phrase(SplitWords(clarification)), 20)
  }

  /** The lines of a match. */
  function MatchLines(r: Identification, prose: Prose, pending: string): seq<string>
    requires r.recommended.Some?
  {
    var c := r.recommended.value;
    var tail := NonEmpty([When(pending != "", Labelled(CANNOT_VERIFY, pending)),
                          When(r.alternatives != [], Labelled(["*Alternativas:*"], AlternativesText(r, prose.url)))]);
    [Phrase(["*Resultado:*", "coincidencia", "—", "confianza"] + ConfidenceText(r.confidence)),
     Labelled(["*Cliente:*"], CustomerLink(c.name, prose.url(c.orderId), 8))]
    + (if r.arSummary.Some? && r.arSummary.value != ""
       then [Labelled(["*Cuenta:*"], Clipped(r.arSummary.value, 16))] else [])
    + [Labelled(["*Por", "qué:*"], Clipped(prose.summary, 34))]
    + (if tail != [] then [JoinWith(tail, " · ")] else [])
  }

  function NoCustomerLines(prose: Prose, pending: string): seq<string> {
    [Phrase(["*Resultado:*", "no", "encontré", "un", "cliente."]),
     Labelled(["*Por", "qué:*"], Clipped(prose.summary, 24))]
    + (if pending != "" then [Labelled(CANNOT_VERIFY, pending)] else [])
    + (if prose.clarification != "" then [QuestionLine(prose.clarification)] else [])
  }

  function AmbiguousLines(r: Identification, prose: Prose, pending: string): seq<string> {
    var details := NonEmpty([When(r.alternatives != [], Labelled(["*Opciones:*"], AlternativesText(r, prose.url))),
                             When(pending != "", Labelled(["*Falta:*"], pending))]);
    [Phrase(["*Resultado:*", "no", "sé;", "FinOps", "debe", "revisar", "el", "pago."]),
     Labelled(["*Por", "qué:*"], Clipped(prose.summary, 24))]
    + (if details != [] then [JoinWith(details, " · ")] else [])
    + (if prose.clarification != "" then [QuestionLine(prose.clarification)] else [])
  }

  function Lines(r: Identification, prose: Prose, images: Option<Images>): seq<string> {
    var pending := PendingText(prose.unable, ImageNote(images));
    if r.outcome == OutOfScope then [Labelled(["*Resultado:*"], Clipped(prose.summary, 25))]
    else if r.outcome == Matched && r.recommended.Some? then MatchLines(r, prose, pending)
    else if r.outcome == NoCustomerFound then NoCustomerLines(prose, pending)
    else AmbiguousLines(r, prose, pending)
  }

  /** `render_identification`. */
  function RenderIdentification(r: Identification, prose: Prose, images: Option<Images>): string {
    JoinWith(Lines(r, prose, images), "\n")
  }

  /** `render_identification` line by line. */
  method RenderReply(r: Identification, prose: Prose, images: Option<Images>) returns (body: string)
    ensures body == RenderIdentification(r, prose, images)
  {
    hide Clipped, Labelled, AlternativesText, PendingText, CustomerLink, Phrase, JoinWith, NonEmpty, QuestionLine;
    if r.outcome == OutOfScope {
      return JoinWith([Labelled(["*Resultado:*"], Clipped(prose.summary, 25))], "\n");
    }
    var pending := PendingText(prose.unable, ImageNote(images));
    var lines: seq<string>;
    if r.outcome == Matched && r.recommended.Some? {
      var c := r.recommended.value;
      lines := [Phrase(["*Resultado:*", "coincidencia", "—", "confianza"] + ConfidenceText(r.confidence)),
                Labelled(["*Cliente:*"], CustomerLink(c.name, prose.url(c.orderId), 8))];
      if r.arSummary.Some? && r.arSummary.value != "" {
        lines := lines + [Labelled(["*Cuenta:*"], Clipped(r.arSummary.value, 16))];
      }
      lines := lines + [Labelled(["*Por", "qué:*"], Clipped(prose.summary, 34))];
      var tail := NonEmpty([When(pending != "", Labelled(CANNOT_VERIFY, pending)),
                            When(r.alternatives != [],
                                 Labelled(["*Alternativas:*"], AlternativesText(r, prose.url)))]);
      if tail != [] {
        lines := lines + [JoinWith(tail, " · ")];
      }
      assert lines == MatchLines(r, prose, pending);
    } else if r.outcome == NoCustomerFound {
      lines := [Phrase(["*Resultado:*", "no", "encontré", "un", "cliente."]),
                Labelled(["*Por", "qué:*"], Clipped(prose.summary, 24))];
      if pending != "" {
        lines := lines + [Labelled(CANNOT_VERIFY, pending)];
      }
      if prose.clarification != "" {
        lines := lines + [QuestionLine(prose.clarification)];
      }
      assert lines == NoCustomerLines(prose, pending);
    } else {
      lines := [Phrase(["*Resultado:*", "no", "sé;", "FinOps", "debe", "revisar", "el", "pago."]),
                Labelled(["*Por", "qué:*"], Clipped(prose.summary, 24))];
      var details := NonEmpty([When(r.alternatives != [],
                                    Labelled(["*Opciones:*"], AlternativesText(r, prose.url))),
                               When(pending != "", Labelled(["*Falta:*"], pending))]);
      if details != [] {
        lines := lines + [JoinWith(details, " · ")];
      }
      if prose.clarification != "" {
        lines := lines + [QuestionLine(prose.clarification)];
      }
      assert lines == AmbiguousLines(r, prose, pending);
    }
    body := JoinWith(lines, "\n");
  }

  // ---------- word bounds ----------

  lemma GluedWords(a: string, b: string)
    requires Solid(b) && b != "" && a != "" && !Space(a[|a| - 1])
    ensures Words(a + b) == Words(a)
  {
    WordsConcat(a, b);
    SolidWords(b);
  }

  lemma LinkWords(name: string, url: string, maxWords: nat)
    requires Solid(url) && maxWords >= 1
    ensures Words(CustomerLink(name, url, maxWords)) <= maxWords
  {
    var names := Take(SplitWords(name), maxWords);
    var front := "<" + url + "|";
    var middle := Phrase(names);
    SolidWords(front);
    PhraseWords(names);
    WordsConcat(front, middle);
    PhraseEnds(names);
    hide Words;
    GluedWords(front + middle, ">");
    assert CustomerLink(name, url, maxWords) == front + middle + ">";
  }

  lemma {:induction false} PhraseEnds(words: seq<string>)
    requires AllSolid(words)
    ensures words != [] ==>
              Phrase(words) != "" && !Space(Phrase(words)[0]) && !Space(Phrase(words)[|Phrase(words)| - 1])
  {
    if |words| > 1 { PhraseEnds(words[1..]); }
  }

  lemma LabelledWords(heading: seq<string>, text: string)
    requires AllSolid(heading)
    ensures Words(Labelled(heading, text)) == |heading| + Words(text)
  {
    PhraseWords(heading);
    hide Words, Phrase;
    BlankWords(" ");
    GapWords(Phrase(heading), " ", text);
  }

  lemma AddressLabels(kind: EvidenceKind)
    requires kind == ExactAddressKind || kind == PartialAddressKind || kind == CustomerName || kind == SigneeName
    ensures AllSolid(Label(kind)) && |Label(kind)| <= 3
  {
  }

  lemma IdentityLabels(kind: EvidenceKind)
    requires kind == NameFragment || kind == Rut || kind == Email || kind == Phone || kind == BankName
    ensures AllSolid(Label(kind)) && |Label(kind)| <= 3
  {
  }

  lemma PaymentLabels(kind: EvidenceKind)
    requires kind == BankAccount || kind == ExactOutstanding || kind == PartialPayment || kind == VambeContext
    ensures AllSolid(Label(kind)) && |Label(kind)| <= 3
  {
  }

  lemma LabelSolid(kind: EvidenceKind)
    ensures AllSolid(Label(kind)) && |Label(kind)| <= 3
  {
    hide Solid;
    match kind
    case ExactAddressKind => AddressLabels(kind);
    case PartialAddressKind => AddressLabels(kind);
    case CustomerName => AddressLabels(kind);
    case SigneeName => AddressLabels(kind);
    case NameFragment => IdentityLabels(kind);
    case Rut => IdentityLabels(kind);
    case Email => IdentityLabels(kind);
    case Phone => IdentityLabels(kind);
    case BankName => IdentityLabels(kind);
    case BankAccount => PaymentLabels(kind);
    case ExactOutstanding => PaymentLabels(kind);
    case PartialPayment => PaymentLabels(kind);
    case VambeContext => PaymentLabels(kind);
    case _ => assert Label(kind) == [];
  }

  lemma ReasonsBounds(ids: seq<nat>, evidence: seq<Signal>)
    ensures var words := ReasonWords(Reasons(ids, evidence)); AllSolid(words) && 1 <= |words| <= 7
  {
    var reasons := Reasons(ids, evidence);
    hide Label, Solid;
    forall i | 0 <= i < |reasons|
      ensures AllSolid(reasons[i]) && |reasons[i]| <= 3 && reasons[i] != []
    {
      var kind :| reasons[i] == Label(kind);
      LabelSolid(kind);
    }
    FallbackSolid();
  }

  lemma FallbackSolid()
    ensures AllSolid(["evidencia", "por", "verificar"]) && AllSolid(["+"])
  {
  }

  /** A mark between two spaces is one more word. */
  lemma MarkWords(a: string, mark: string, b: string)
    requires Solid(mark) && mark != ""
    ensures Words(a + (" " + mark + " ") + b) == Words(a) + 1 + Words(b)
  {
    SolidWords(mark);
    hide Words;
    GapWords(a, " ", mark + " " + b);
    GapWords(mark, " ", b);
    assert a + (" " + mark + " ") + b == a + " " + (mark + " " + b);
  }

  predicate Ends(text: string) {
    text != "" && !Space(text[|text| - 1])
  }

  lemma AlternativeWords(c: Customer, evidence: seq<Signal>, url: string)
    requires Solid(url)
    ensures Words(AlternativeText(c, evidence, url)) <= 13 && Ends(AlternativeText(c, evidence, url))
  {
    var words := ReasonWords(Reasons(c.evidenceIds, evidence));
    ReasonsBounds(c.evidenceIds, evidence);
    PhraseWords(words);
    PhraseEnds(words);
    LinkWords(c.name, url, 5);
    hide Words, Phrase, CustomerLink, ReasonWords, Reasons;
    var link := CustomerLink(c.name, url, 5);
    MarkWords(link, "—", Phrase(words));
    assert " — " == " " + "—" + " ";
  }

  /** A mark that hangs on the part before it adds no word, unless that part is empty. */
  lemma HungWords(part: string, mark: string, rest: string)
    requires Solid(mark) && mark != "" && (part == "" || Ends(part))
    ensures Words(part + (mark + " ") + rest) <= (if part == "" then 1 else Words(part)) + Words(rest)
  {
    SolidWords(mark);
    hide Words;
    GapWords(part + mark, " ", rest);
    assert part + (mark + " ") + rest == part + mark + " " + rest;
    if part == "" {
      assert part + mark == mark;
    } else {
      GluedWords(part, mark);
    }
  }

  lemma {:induction false} HungSum(parts: seq<string>, mark: string, most: nat)
    requires Solid(mark) && mark != "" && most >= 1
    requires forall i | 0 <= i < |parts| :: Words(parts[i]) <= most && (parts[i] == "" || Ends(parts[i]))
    ensures Words(JoinWith(parts, mark + " ")) <= |parts| * most
  {
    EmptyWords();
    hide Words, Solid, Ends;
    if |parts| > 1 {
      HungSum(parts[1..], mark, most);
      HungWords(parts[0], mark, JoinWith(parts[1..], mark + " "));
      assert |parts| * most == most + |parts[1..]| * most;
    }
  }

  lemma PendingBounds(unable: seq<string>, note: string)
    ensures Words(PendingText(unable, note)) <= 15
  {
    var items := ClipAll(Details(unable, note), 5);
    hide Words, Clipped, Details, Trimmed;
    forall i | 0 <= i < |items|
      ensures Words(items[i]) <= 5 && (items[i] == "" || Ends(items[i]))
    {
      ClippedBounds(Details(unable, note)[i], 5);
      TrimmedEnds(items[i]);
    }
    SolidMarks();
    HungSum(items, ",", 5);
    assert ", " == "," + " ";
  }

  lemma TrimmedEnds(text: string)
    requires Trimmed(text)
    ensures text == "" || Ends(text)
  {
  }

  lemma SolidMarks()
    ensures Solid(",") && Solid(";") && Solid("·") && Solid("—")
  {
  }

  predicate SolidUrls(r: Identification, url: string -> string) {
    && (r.recommended.Some? ==> Solid(url(r.recommended.value.orderId)))
    && forall i | 0 <= i < |r.alternatives| :: Solid(url(r.alternatives[i].orderId))
  }

  lemma AlternativesBounds(r: Identification, url: string -> string)
    requires SolidUrls(r, url)
    ensures Words(AlternativesText(r, url)) <= 39
  {
    var texts := AlternativeTexts(r, url);
    hide Words, AlternativeText, Ends, Solid;
    forall i | 0 <= i < |texts|
      ensures Words(texts[i]) <= 13 && (texts[i] == "" || Ends(texts[i]))
    {
      AlternativeWords(r.alternatives[i], r.evidence, url(r.alternatives[i].orderId));
    }
    SolidMarks();
    HungSum(texts, ";", 13);
    assert "; " == ";" + " ";
  }

  /** Two texts, either possibly absent, joined by a dot between spaces. */
  lemma PairWords(first: string, second: string)
    ensures var parts := NonEmpty([first, second]);
            && |parts| <= 2
            && Words(JoinWith(parts, " · "))
               <= Words(first) + Words(second) + (if first != "" && second != "" then 1 else 0)
            && (parts == [] ==> first == "" && second == "")
  {
    EmptyWords();
    SolidMarks();
    hide Words, Solid;
    MarkWords(first, "·", second);
    assert " · " == " " + "·" + " ";
    assert [first, second][1..] == [second] && [second][1..] == [];
    assert NonEmpty([second]) == if second != "" then [second] else [];
    var parts := NonEmpty([first, second]);
    if first != "" && second != "" {
      assert parts == [first, second];
      assert JoinWith([second], " · ") == second;
    } else if first != "" {
      assert parts == [first];
    }
  }

  lemma FixedHeadings()
    ensures AllSolid(["*Resultado:*"]) && AllSolid(["*Cliente:*"]) && AllSolid(["*Cuenta:*"])
    ensures AllSolid(["*Por", "qué:*"]) && AllSolid(CANNOT_VERIFY) && AllSolid(["*Falta:*"])
  {
  }

  lemma ChoiceHeadings()
    ensures AllSolid(["*Alternativas:*"]) && AllSolid(["*Opciones:*"])
    ensures AllSolid(["*Resultado:*", "no", "encontré", "un", "cliente."])
  {
  }

  lemma MatchHeading(c: Confidence)
    requires c == High || c == Medium
    ensures AllSolid(["*Resultado:*", "coincidencia", "—", "confianza"] + ConfidenceText(c))
    ensures |ConfidenceText(c)| == 1
  {
  }

  lemma AmbiguousHeading()
    ensures AllSolid(["*Resultado:*", "no", "sé;", "FinOps", "debe", "revisar", "el", "pago."])
  {
  }

  lemma PartsSum(a: string, b: string, rest: seq<string>)
    ensures WordSum([a, b] + rest) == Words(a) + Words(b) + WordSum(rest)
  {
    assert ([a, b] + rest)[1..] == [b] + rest && ([b] + rest)[1..] == rest;
  }

  lemma TailBounds(r: Identification, prose: Prose, pending: string, first: seq<string>, second: seq<string>)
    requires AllSolid(first) && AllSolid(second) && SolidUrls(r, prose.url) && Words(pending) <= 15
    ensures var a := When(pending != "", Labelled(first, pending));
            var b := When(r.alternatives != [], Labelled(second, AlternativesText(r, prose.url)));
            && Words(a) <= |first| + 15
            && Words(b) <= (if r.alternatives != [] then |second| + 39 else 0)
            && (r.alternatives == [] ==> b == "")
  {
    EmptyWords();
    AlternativesBounds(r, prose.url);
    hide Words, Solid, AlternativesText, SolidUrls;
    LabelledWords(first, pending);
    LabelledWords(second, AlternativesText(r, prose.url));
  }

  lemma MatchWords(r: Identification, prose: Prose, pending: string)
    requires r.recommended.Some? && (r.confidence == High || r.confidence == Medium)
    requires SolidUrls(r, prose.url) && Words(pending) <= 15
    ensures WordSum(MatchLines(r, prose, pending)) <= if r.alternatives != [] then 126 else 85
  {
    var c := r.recommended.value;
    var a := When(pending != "", Labelled(CANNOT_VERIFY, pending));
    var b := When(r.alternatives != [], Labelled(["*Alternativas:*"], AlternativesText(r, prose.url)));
    FixedHeadings();
    ChoiceHeadings();
    MatchHeading(r.confidence);
    LinkWords(c.name, prose.url(c.orderId), 8);
    PhraseWords(["*Resultado:*", "coincidencia", "—", "confianza"] + ConfidenceText(r.confidence));
    hide Words, Solid, Phrase, AlternativesText, SolidUrls, CustomerLink, Clipped, Trimmed, NonEmpty;
    TailBounds(r, prose, pending, CANNOT_VERIFY, ["*Alternativas:*"]);
    PairWords(a, b);
    LabelledWords(["*Cliente:*"], CustomerLink(c.name, prose.url(c.orderId), 8));
    ClippedBounds(prose.summary, 34);
    LabelledWords(["*Por", "qué:*"], Clipped(prose.summary, 34));
    if r.arSummary.Some? {
      ClippedBounds(r.arSummary.value, 16);
      LabelledWords(["*Cuenta:*"], Clipped(r.arSummary.value, 16));
    }
    MatchSum(r, prose, pending);
  }

  lemma MatchSum(r: Identification, prose: Prose, pending: string)
    requires r.recommended.Some?
    ensures var c := r.recommended.value;
            var a := When(pending != "", Labelled(CANNOT_VERIFY, pending));
            var b := When(r.alternatives != [], Labelled(["*Alternativas:*"], AlternativesText(r, prose.url)));
            WordSum(MatchLines(r, prose, pending))
            == Words(Phrase(["*Resultado:*", "coincidencia", "—", "confianza"] + ConfidenceText(r.confidence)))
               + Words(Labelled(["*Cliente:*"], CustomerLink(c.name, prose.url(c.orderId), 8)))
               + (if r.arSummary.Some? && r.arSummary.value != ""
                  then Words(Labelled(["*Cuenta:*"], Clipped(r.arSummary.value, 16))) else 0)
               + Words(Labelled(["*Por", "qué:*"], Clipped(prose.summary, 34)))
               + (if NonEmpty([a, b]) != [] then Words(JoinWith(NonEmpty([a, b]), " · ")) else 0)
  {
    hide Words, Phrase, AlternativesText, CustomerLink, Clipped, NonEmpty, JoinWith, Labelled;
    var c := r.recommended.value;
    var a := When(pending != "", Labelled(CANNOT_VERIFY, pending));
    var b := When(r.alternatives != [], Labelled(["*Alternativas:*"], AlternativesText(r, prose.url)));
    var head := [Phrase(["*Resultado:*", "coincidencia", "—", "confianza"] + ConfidenceText(r.confidence)),
                 Labelled(["*Cliente:*"], CustomerLink(c.name, prose.url(c.orderId), 8))];
    var account := if r.arSummary.Some? && r.arSummary.value != ""
                   then [Labelled(["*Cuenta:*"], Clipped(r.arSummary.value, 16))] else [];
    var why := [Labelled(["*Por", "qué:*"], Clipped(prose.summary, 34))];
    var tail := if NonEmpty([a, b]) != [] then [JoinWith(NonEmpty([a, b]), " · ")] else [];
    WordSumConcat(head, account);
    WordSumConcat(head + account, why);
    WordSumConcat(head + account + why, tail);
    PartsSum(head[0], head[1], []);
    assert [head[0], head[1]] + [] == head;
    SumOfOne(account);
    SumOfOne(why);
    SumOfOne(tail);
  }

  lemma SumOfOne(parts: seq<string>)
    requires |parts| <= 1
    ensures WordSum(parts) == if parts == [] then 0 else Words(parts[0])
  {
    if parts != [] { OneSum(parts[0]); assert parts == [parts[0]]; }
  }

  lemma QuestionBounds(clarification: string)
    ensures Words(QuestionLine(clarification)) <= 20
  {
    ClippedBounds(Phrase(SplitWords(clarification)), 20);
  }

  /** The two middle parts of a reply without a match: optional lines after the two fixed ones. */
  lemma TwoAndTwo(a: string, b: string, c: seq<string>, d: seq<string>)
    requires |c| <= 1 && |d| <= 1
    ensures WordSum([a, b] + c + d)
            == Words(a) + Words(b) + (if c == [] then 0 else Words(c[0])) + (if d == [] then 0 else Words(d[0]))
  {
    hide Words;
    WordSumConcat([a, b] + c, d);
    PartsSum(a, b, c);
    SumOfOne(c);
    SumOfOne(d);
  }

  lemma NoCustomerWords(prose: Prose, pending: string)
    requires Words(pending) <= 15
    ensures WordSum(NoCustomerLines(prose, pending)) <= 69
  {
    FixedHeadings();
    ChoiceHeadings();
    var first := Phrase(["*Resultado:*", "no", "encontré", "un", "cliente."]);
    PhraseWords(["*Resultado:*", "no", "encontré", "un", "cliente."]);
    hide Words, Solid, Phrase, Clipped, Trimmed;
    ClippedBounds(prose.summary, 24);
    LabelledWords(["*Por", "qué:*"], Clipped(prose.summary, 24));
    LabelledWords(CANNOT_VERIFY, pending);
    QuestionBounds(prose.clarification);
    TwoAndTwo(first, Labelled(["*Por", "qué:*"], Clipped(prose.summary, 24)),
              if pending != "" then [Labelled(CANNOT_VERIFY, pending)] else [],
              if prose.clarification != "" then [QuestionLine(prose.clarification)] else []);
  }

  lemma AmbiguousWords(r: Identification, prose: Prose, pending: string)
    requires SolidUrls(r, prose.url) && Words(pending) <= 15
    ensures WordSum(AmbiguousLines(r, prose, pending)) <= if r.alternatives != [] then 111 else 70
  {
    FixedHeadings();
    ChoiceHeadings();
    AmbiguousHeading();
    var first := Phrase(["*Resultado:*", "no", "sé;", "FinOps", "debe", "revisar", "el", "pago."]);
    PhraseWords(["*Resultado:*", "no", "sé;", "FinOps", "debe", "revisar", "el", "pago."]);
    hide Words, Solid, Phrase, AlternativesText, SolidUrls, Clipped, Trimmed, NonEmpty;
    var a := When(r.alternatives != [], Labelled(["*Opciones:*"], AlternativesText(r, prose.url)));
    var b := When(pending != "", Labelled(["*Falta:*"], pending));
    TailBounds(r, prose, pending, ["*Falta:*"], ["*Opciones:*"]);
    PairWords(a, b);
    ClippedBounds(prose.summary, 24);
    LabelledWords(["*Por", "qué:*"], Clipped(prose.summary, 24));
    QuestionBounds(prose.clarification);
    var details := NonEmpty([a, b]);
    TwoAndTwo(first, Labelled(["*Por", "qué:*"], Clipped(prose.summary, 24)),
              if details != [] then [JoinWith(details, " · ")] else [],
              if prose.clarification != "" then [QuestionLine(prose.clarification)] else []);
  }

  /** The words the auditor allows. */
  function WordLimit(r: Identification): nat {
    if r.outcome == Matched then (if r.alternatives != [] then 130 else 110)
    else if r.outcome == OutOfScope then 40
    else if r.alternatives != [] then 130 else 75
  }

  /** The words a reply can really have. */
  function WordBound(r: Identification): nat {
    if r.outcome == Matched then (if r.alternatives != [] then 126 else 85)
    else if r.outcome == OutOfScope then 26
    else if r.outcome == NoCustomerFound then 69
    else if r.alternatives != [] then 111 else 70
  }

  /** Rendering meets its auditor, in words: whatever the prose, the names, the notes and the evidence, a
      valid identification is rendered within the auditor's word limit, with the slack shown. */
  lemma RenderedWords(r: Identification, prose: Prose, images: Option<Images>)
    requires OutcomeConsistent(r) && SolidUrls(r, prose.url)
    ensures Words(RenderIdentification(r, prose, images)) <= WordBound(r) <= WordLimit(r)
  {
    var pending := PendingText(prose.unable, ImageNote(images));
    PendingBounds(prose.unable, ImageNote(images));
    BlankNewline();
    hide Words, PendingText, MatchLines, NoCustomerLines, AmbiguousLines, Clipped, Labelled, SolidUrls, Blank;
    JoinedWords(Lines(r, prose, images), "\n");
    if r.outcome == OutOfScope {
      ScopeWords(prose);
    } else if r.outcome == Matched {
      MatchWords(r, prose, pending);
    } else if r.outcome == NoCustomerFound {
      NoCustomerWords(prose, pending);
    } else {
      AmbiguousWords(r, prose, pending);
    }
  }

  lemma BlankNewline()
    ensures Blank("\n")
  {
  }

  lemma ScopeWords(prose: Prose)
    ensures WordSum([Labelled(["*Resultado:*"], Clipped(prose.summary, 25))]) <= 26
  {
    FixedHeadings();
    hide Words, Solid, Clipped, Trimmed;
    ClippedBounds(prose.summary, 25);
    LabelledWords(["*Resultado:*"], Clipped(prose.summary, 25));
    OneSum(Labelled(["*Resultado:*"], Clipped(prose.summary, 25)));
  }

  /** The suffix a general answer may carry has seven words, so every configured limit leaves room for it
      and for the notice. */
  lemma NoticeWords(images: Option<Images>)
    ensures Words(ImageNotice(images)) <= 7
  {
    EmptyWords();
    if images.Some? && images.value.unprocessed > 0 {
      var words := ["No", "pude", "procesar", NatText(images.value.unprocessed), "de",
                    NatText(images.value.requested), "capturas."];
      PhraseWords(words);
    }
  }

  /** General answers stay within any configured limit. */
  lemma GeneralWithinLimit(answer: string, limit: nat, images: Option<Images>)
    requires 40 <= limit <= 500
    ensures Words(Limited(answer, limit, ImageNotice(images))) <= limit
  {
    NoticeWords(images);
    hide Words, Limited, ImageNotice;
    LimitedBounds(answer, limit, ImageNotice(images));
  }
}
