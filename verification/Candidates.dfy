/** Evidence about one candidate: what a row of the replica supports or contradicts in a request. */
module Candidates {
  import opened Records
  import opened Matching

  datatype EvidenceKind =
    | ExactAddressKind | PartialAddressKind | CustomerName | SigneeName | NameFragment | BankName
    | ExactOutstanding | PartialPayment | Rut | BankAccount | Email | Phone
    | VambeContext | VambeMention | IdentityConflict | AmountExceedsOutstanding | CurrencyMismatch

  datatype Polarity = Supporting | Contradicting
  datatype Source = PaymentCandidates | CandidateVerification | VambeSource

  /** A source link of a verification request: a known record and a foreign-key path from it. */
  datatype Link = Link(reference: nat, path: seq<string>)

  /** Empty texts are absent ones. */
  datatype Query =
    | SearchQuery(glosa: string, transferor: string, rut: string, account: string, email: string,
                  phone: string, amount: Option<real>, currency: Option<string>)
    | VerifyQuery(orderId: string, arId: Option<string>, transferor: string, address: string,
                  amount: Option<real>, currency: Option<string>, links: seq<Link>)

  /** Who an order belongs to. Columns that aggregate several values are lists. */
  datatype Person = Person(orderId: string, name: string, signees: seq<string>, address: string,
                           ruts: seq<string>, emails: seq<string>, phones: seq<string>)

  datatype Bank = Bank(holder: string, ruts: seq<string>, account: string)

  /** An eligible account receivable with its person and the two bank accounts stored for it. */
  datatype Row = Row(person: Person, arId: string, arSummary: string, outstanding: real, currency: string,
                     legacyBank: Bank, normalizedBank: Bank)

  datatype Mark = Mark(kind: EvidenceKind, polarity: Polarity)

  /** `id` is zero until the run's ledger registers the signal. */
  datatype Signal = Signal(id: nat, kind: EvidenceKind, polarity: Polarity, source: Source,
                           orderId: string, arId: Option<string>, reference: Option<nat>)

  datatype Candidate = Candidate(name: string, orderId: string, arId: Option<string>,
                                 arSummary: Option<string>, verified: bool)

  datatype Observed = Observed(candidate: Candidate, signals: seq<Signal>)

  function RequestedAddress(q: Query): string {
    if q.SearchQuery? then q.glosa else q.address
  }

  function Digits(text: string): string {
    if text == "" then "" else (if Digit(text[0]) then [text[0]] else "") + Digits(text[1..])
  }

  lemma {:induction false} DigitsJoined(a: string, b: string)
    ensures Digits(a + b) == Digits(a) + Digits(b)
  {
    if a == "" {
      assert a + b == b;
    } else {
      DigitsJoined(a[1..], b);
      assert (a + b)[1..] == a[1..] + b;
    }
  }

  lemma {:induction false} DigitsOnly(text: string)
    ensures (forall i | 0 <= i < |text| :: '0' <= text[i] <= '9') ==> Digits(text) == text
    ensures (forall i | 0 <= i < |text| :: !('0' <= text[i] <= '9')) ==> Digits(text) == ""
  {
    if text != "" { DigitsOnly(text[1..]); }
  }

  /** Comparing digits passes over everything else and nothing but that: the digits of a text are those of its
      parts in turn, a text of digits is kept, one without any leaves nothing. */
  lemma DigitsExactly(a: string, b: string)
    ensures Digits(a + b) == Digits(a) + Digits(b)
    ensures (forall i | 0 <= i < |a| :: '0' <= a[i] <= '9') ==> Digits(a) == a
    ensures (forall i | 0 <= i < |a| :: !('0' <= a[i] <= '9')) ==> Digits(a) == ""
  {
    DigitsJoined(a, b);
    DigitsOnly(a);
  }

  predicate MatchesDigits(value: string, candidates: seq<string>) {
    Digits(value) != "" && exists i | 0 <= i < |candidates| :: Digits(candidates[i]) == Digits(value)
  }

  predicate MatchesText(value: string, candidates: seq<string>) {
    value != "" && value in candidates
  }

  /** The transferor's normalized name is a substring of a stored bank account holder's. */
  predicate InBankName(transferor: string, row: Row) {
    || Contains(Plain(row.legacyBank.holder), Plain(transferor))
    || Contains(Plain(row.normalizedBank.holder), Plain(transferor))
  }

  function Names(person: Person): seq<string> {
    [person.name] + person.signees
  }

  function Support(kind: EvidenceKind): seq<Mark> {
    [Mark(kind, Supporting)]
  }

  /** What the payment text says about the person; a shared name fragment counts only for eligible rows. */
  function AddressMarks(glosa: string, person: Person, fragments: bool): seq<Mark> {
    if glosa == "" then []
    else if ExactAddress(glosa, person.address) then Support(ExactAddressKind)
    else if PartialAddress(glosa, person.address) then Support(PartialAddressKind)
    else if StrongNameMatch(glosa, person.name) then Support(CustomerName)
    else if AnyStrongNameMatch(glosa, person.signees) then Support(SigneeName)
    else if fragments && NameFragments(glosa, Names(person)) != {} then Support(NameFragment)
    else []
  }

  function TransferorMarks(transferor: string, row: Row): seq<Mark> {
    if transferor == "" then []
    else if StrongNameMatch(transferor, row.person.name) then Support(CustomerName)
    else if AnyStrongNameMatch(transferor, row.person.signees) then Support(SigneeName)
    else if InBankName(transferor, row) then Support(BankName)
    else if NameFragments(transferor, Names(row.person)) != {} then Support(NameFragment)
    else [Mark(IdentityConflict, Contradicting)]
  }

  function AmountMarks(q: Query, row: Row): seq<Mark> {
    if q.amount.None? then []
    else if (if q.currency.Some? then q.currency.value else "CLP") != row.currency
    then [Mark(CurrencyMismatch, Contradicting)]
    else if q.amount.value == row.outstanding then Support(ExactOutstanding)
    else if q.amount.value < row.outstanding then Support(PartialPayment)
    else [Mark(AmountExceedsOutstanding, Contradicting)]
  }

  function IdentityMarks(q: Query, person: Person, bankRuts: seq<string>, bankAccounts: seq<string>): seq<Mark> {
    if !q.SearchQuery? then []
    else
      (if MatchesDigits(q.rut, person.ruts + bankRuts) then Support(Rut) else [])
      + (if MatchesDigits(q.account, bankAccounts) then Support(BankAccount) else [])
      + (if MatchesText(q.email, person.emails) then Support(Email) else [])
      + (if MatchesDigits(q.phone, person.phones) then Support(Phone) else [])
  }

  function BankRuts(row: Row): seq<string> {
    row.legacyBank.ruts + row.normalizedBank.ruts
  }

  function BankAccounts(row: Row): seq<string> {
    [row.legacyBank.account, row.normalizedBank.account]
  }

  function RowMarks(row: Row, q: Query): seq<Mark> {
    AddressMarks(RequestedAddress(q), row.person, true) + TransferorMarks(q.transferor, row)
    + AmountMarks(q, row) + IdentityMarks(q, row.person, BankRuts(row), BankAccounts(row))
  }

  function PersonTransferorMarks(transferor: string, person: Person): seq<Mark> {
    if transferor == "" then []
    else if StrongNameMatch(transferor, person.name) then Support(CustomerName)
    else if AnyStrongNameMatch(transferor, person.signees) then Support(SigneeName)
    else if NameFragments(transferor, Names(person)) != {} then Support(NameFragment)
    else []
  }

  function PersonMarks(person: Person, q: Query): seq<Mark> {
    PersonTransferorMarks(q.transferor, person) + AddressMarks(RequestedAddress(q), person, false)
    + IdentityMarks(q, person, [], [])
  }

  function SourceOf(verified: bool): Source {
    if verified then CandidateVerification else PaymentCandidates
  }

  function Sign(mark: Mark, verified: bool, orderId: string, arId: Option<string>): Signal {
    Signal(0, mark.kind, mark.polarity, SourceOf(verified), orderId, arId, None)
  }

  function SignAll(marks: seq<Mark>, verified: bool, orderId: string, arId: Option<string>): (signals: seq<Signal>)
    ensures |signals| == |marks|
    ensures forall i | 0 <= i < |marks| :: signals[i] == Sign(marks[i], verified, orderId, arId)
  {
    seq(|marks|, i requires 0 <= i < |marks| => Sign(marks[i], verified, orderId, arId))
  }

  /** The candidate an eligible row stands for, with all the evidence the request finds in it. */
  function RowCandidate(row: Row, q: Query, verified: bool): Observed {
    var orderId, arId := row.person.orderId, Some(row.arId);
    Observed(Candidate(row.person.name, orderId, arId, Some(row.arSummary), verified),
             SignAll(RowMarks(row, q), verified, orderId, arId))
  }

  function PersonCandidate(person: Person, q: Query, verified: bool): Observed {
    Observed(Candidate(person.name, person.orderId, None, None, verified),
             SignAll(PersonMarks(person, q), verified, person.orderId, None))
  }

  /** `_candidate`: the evidence list grows check by check. */
  method BuildRowCandidate(row: Row, q: Query, verified: bool) returns (observed: Observed)
    ensures observed == RowCandidate(row, q, verified)
  {
    var evidence: seq<Mark> := AddressMarks(RequestedAddress(q), row.person, true);
    if q.transferor != "" {
      if StrongNameMatch(q.transferor, row.person.name) {
        evidence := evidence + [Mark(CustomerName, Supporting)];
      } else if AnyStrongNameMatch(q.transferor, row.person.signees) {
        evidence := evidence + [Mark(SigneeName, Supporting)];
      } else if InBankName(q.transferor, row) {
        evidence := evidence + [Mark(BankName, Supporting)];
      } else if NameFragments(q.transferor, Names(row.person)) != {} {
        evidence := evidence + [Mark(NameFragment, Supporting)];
      } else {
        evidence := evidence + [Mark(IdentityConflict, Contradicting)];
      }
    }
    if q.amount.Some? {
      var currency := if q.currency.Some? then q.currency.value else "CLP";
      if currency != row.currency {
        evidence := evidence + [Mark(CurrencyMismatch, Contradicting)];
      } else if q.amount.value == row.outstanding {
        evidence := evidence + [Mark(ExactOutstanding, Supporting)];
      } else if q.amount.value < row.outstanding {
        evidence := evidence + [Mark(PartialPayment, Supporting)];
      } else {
        evidence := evidence + [Mark(AmountExceedsOutstanding, Contradicting)];
      }
    }
    assert evidence == AddressMarks(RequestedAddress(q), row.person, true) + TransferorMarks(q.transferor, row)
                       + AmountMarks(q, row);
    var identity := BuildIdentityMarks(q, row.person, BankRuts(row), BankAccounts(row));
    var orderId, arId := row.person.orderId, Some(row.arId);
    observed := Observed(Candidate(row.person.name, orderId, arId, Some(row.arSummary), verified),
                         SignAll(evidence + identity, verified, orderId, arId));
  }

  /** `_identity_candidate`: the same list without amounts and bank accounts. */
  method BuildPersonCandidate(person: Person, q: Query, verified: bool) returns (observed: Observed)
    ensures observed == PersonCandidate(person, q, verified)
  {
    var evidence: seq<Mark> := [];
    if q.transferor != "" {
      if StrongNameMatch(q.transferor, person.name) {
        evidence := evidence + [Mark(CustomerName, Supporting)];
      } else if AnyStrongNameMatch(q.transferor, person.signees) {
        evidence := evidence + [Mark(SigneeName, Supporting)];
      } else if NameFragments(q.transferor, Names(person)) != {} {
        evidence := evidence + [Mark(NameFragment, Supporting)];
      }
    }
    assert evidence == PersonTransferorMarks(q.transferor, person);
    evidence := evidence + AddressMarks(RequestedAddress(q), person, false);
    var identity := BuildIdentityMarks(q, person, [], []);
    observed := Observed(Candidate(person.name, person.orderId, None, None, verified),
                         SignAll(evidence + identity, verified, person.orderId, None));
  }

  method BuildIdentityMarks(q: Query, person: Person, bankRuts: seq<string>, bankAccounts: seq<string>)
    returns (evidence: seq<Mark>)
    ensures evidence == IdentityMarks(q, person, bankRuts, bankAccounts)
  {
    evidence := [];
    if q.SearchQuery? {
      if MatchesDigits(q.rut, person.ruts + bankRuts) {
        evidence := evidence + [Mark(Rut, Supporting)];
      }
      if MatchesDigits(q.account, bankAccounts) {
        evidence := evidence + [Mark(BankAccount, Supporting)];
      }
      if MatchesText(q.email, person.emails) {
        evidence := evidence + [Mark(Email, Supporting)];
      }
      if MatchesDigits(q.phone, person.phones) {
        evidence := evidence + [Mark(Phone, Supporting)];
      }
    }
  }

  predicate Has(marks: seq<Mark>, kind: EvidenceKind) {
    exists i | 0 <= i < |marks| :: marks[i].kind == kind
  }

  lemma HasInSum(a: seq<Mark>, b: seq<Mark>, kind: EvidenceKind)
    ensures Has(a + b, kind) <==> Has(a, kind) || Has(b, kind)
  {
    assert forall i | 0 <= i < |a| :: (a + b)[i] == a[i];
    assert forall i | 0 <= i < |b| :: (a + b)[|a| + i] == b[i];
  }

  // ---------- exactly which evidence a row gives ----------

  /** The whole address is asked for: its tokens occur next to each other in the payment text. */
  predicate AsksAddress(glosa: string, person: Person) {
    glosa != "" && Tokens(person.address) != [] && Sublist(Tokens(glosa), Tokens(person.address))
  }

  predicate AsksPartOfAddress(glosa: string, person: Person) {
    glosa != "" && !AsksAddress(glosa, person) && PartialAddress(glosa, person.address)
  }

  predicate AsksOther(glosa: string, person: Person) {
    glosa != "" && !AsksAddress(glosa, person) && !PartialAddress(glosa, person.address)
  }

  predicate NamesSignee(text: string, person: Person) {
    exists i | 0 <= i < |person.signees| :: StrongNameMatch(text, person.signees[i])
  }

  /** The text strongly matches a signee, and not the customer. */
  predicate NamesSigneeOnly(text: string, person: Person) {
    !StrongNameMatch(text, person.name) && NamesSignee(text, person)
  }

  predicate NamesNobody(text: string, person: Person) {
    !StrongNameMatch(text, person.name) && !NamesSignee(text, person)
  }

  /** The text shares a token of at least four letters with the customer or a signee. */
  predicate SharesName(text: string, person: Person) {
    SharesToken(text, person.name) || exists i | 0 <= i < |person.signees| :: SharesToken(text, person.signees[i])
  }

  /** The normalized text is part of one of the two stored bank holders. */
  predicate HoldsAccount(text: string, row: Row) {
    Contains(Plain(row.legacyBank.holder), Plain(text)) || Contains(Plain(row.normalizedBank.holder), Plain(text))
  }

  lemma FragmentsShared(text: string, person: Person)
    ensures NameFragments(text, Names(person)) != {} <==> SharesName(text, person)
  {
    FragmentsExactly(text, Names(person));
    hide NameFragments, SharesToken;
    assert Names(person)[0] == person.name;
    assert forall i | 0 <= i < |person.signees| :: Names(person)[i + 1] == person.signees[i];
  }

  lemma HasOne(kind: EvidenceKind, asked: EvidenceKind)
    ensures Has(Support(kind), asked) <==> kind == asked
    ensures !Has([], asked)
  {
    assert Support(kind)[0].kind == kind;
  }

  /** A payment text gives at most one kind of evidence. */
  function AddressKind(glosa: string, person: Person, fragments: bool): Option<EvidenceKind> {
    if AsksAddress(glosa, person) then Some(ExactAddressKind)
    else if AsksPartOfAddress(glosa, person) then Some(PartialAddressKind)
    else if !AsksOther(glosa, person) then None
    else if StrongNameMatch(glosa, person.name) then Some(CustomerName)
    else if NamesSignee(glosa, person) then Some(SigneeName)
    else if fragments && SharesName(glosa, person) then Some(NameFragment)
    else None
  }

  lemma AddressMarksExact(glosa: string, person: Person, fragments: bool)
    ensures |AddressMarks(glosa, person, fragments)| <= 1
    ensures forall kind :: Has(AddressMarks(glosa, person, fragments), kind)
                           <==> AddressKind(glosa, person, fragments) == Some(kind)
    ensures Polarized(AddressMarks(glosa, person, fragments))
  {
    ExactAddressIsSublist(glosa, person.address);
    FragmentsShared(glosa, person);
    hide ExactAddress, PartialAddress, StrongNameMatch, NameFragments, SharesName, Sublist, Tokens;
    forall kind
      ensures Has(AddressMarks(glosa, person, fragments), kind) <==> AddressKind(glosa, person, fragments) == Some(kind)
    {
      HasOne(ExactAddressKind, kind);
      HasOne(PartialAddressKind, kind);
      HasOne(CustomerName, kind);
      HasOne(SigneeName, kind);
      HasOne(NameFragment, kind);
    }
  }

  /** What the transferor's name says: the customer, a signee, a bank holder, a shared fragment, or, when it is
      none of these, a conflict with the customer. */
  predicate TransferorSays(transferor: string, row: Row, kind: EvidenceKind) {
    && transferor != ""
    && var nobody := NamesNobody(transferor, row.person);
       match kind
       case CustomerName => StrongNameMatch(transferor, row.person.name)
       case SigneeName => NamesSigneeOnly(transferor, row.person)
       case BankName => nobody && HoldsAccount(transferor, row)
       case NameFragment => nobody && !HoldsAccount(transferor, row) && SharesName(transferor, row.person)
       case IdentityConflict => nobody && !HoldsAccount(transferor, row) && !SharesName(transferor, row.person)
       case _ => false
  }

  predicate Conflicting(kind: EvidenceKind) {
    kind == CurrencyMismatch || kind == AmountExceedsOutstanding || kind == IdentityConflict
  }

  /** Every mark contradicts exactly if its kind is a conflict. */
  predicate Polarized(marks: seq<Mark>) {
    forall mark | mark in marks :: mark.polarity == Contradicting <==> Conflicting(mark.kind)
  }

  lemma TransferorMarksExact(transferor: string, row: Row)
    ensures forall kind :: Has(TransferorMarks(transferor, row), kind) <==> TransferorSays(transferor, row, kind)
    ensures Polarized(TransferorMarks(transferor, row))
  {
    FragmentsShared(transferor, row.person);
    hide StrongNameMatch, NameFragments, SharesName, Contains, Plain;
    var marks := TransferorMarks(transferor, row);
    if marks != [] { assert Has(marks, marks[0].kind); }
  }

  predicate AnyDigitsIn(value: string, candidates: seq<string>) {
    exists i | 0 <= i < |candidates| :: Digits(candidates[i]) == Digits(value)
  }

  /** What a search by numbers and mail finds: the same digits, at least one, or the same address. */
  predicate IdentitySays(q: Query, person: Person, bankRuts: seq<string>, bankAccounts: seq<string>,
                         kind: EvidenceKind) {
    && q.SearchQuery?
    && match kind
       case Rut => Digits(q.rut) != "" && (AnyDigitsIn(q.rut, person.ruts) || AnyDigitsIn(q.rut, bankRuts))
       case BankAccount => Digits(q.account) != "" && AnyDigitsIn(q.account, bankAccounts)
       case Email => q.email != "" && q.email in person.emails
       case Phone => Digits(q.phone) != "" && AnyDigitsIn(q.phone, person.phones)
       case _ => false
  }

  lemma HasIf(condition: bool, kind: EvidenceKind, asked: EvidenceKind)
    ensures Has(if condition then Support(kind) else [], asked) <==> condition && kind == asked
  {
    HasOne(kind, asked);
  }

  lemma MatchesExactly(value: string, candidates: seq<string>)
    ensures MatchesDigits(value, candidates) <==> Digits(value) != "" && AnyDigitsIn(value, candidates)
    ensures MatchesText(value, candidates) <==> value != "" && value in candidates
  {
  }

  lemma DigitsInEither(value: string, a: seq<string>, b: seq<string>)
    ensures AnyDigitsIn(value, a + b) <==> AnyDigitsIn(value, a) || AnyDigitsIn(value, b)
  {
    hide Digits;
    assert forall i | 0 <= i < |a| :: (a + b)[i] == a[i];
    assert forall i | 0 <= i < |b| :: (a + b)[|a| + i] == b[i];
  }

  lemma HasInFour(a: seq<Mark>, b: seq<Mark>, c: seq<Mark>, d: seq<Mark>, kind: EvidenceKind)
    ensures Has(a + b + c + d, kind) <==> Has(a, kind) || Has(b, kind) || Has(c, kind) || Has(d, kind)
  {
    hide Has;
    HasInSum(a, b, kind);
    HasInSum(a + b, c, kind);
    HasInSum(a + b + c, d, kind);
  }

  lemma FourIfs(rut: bool, account: bool, email: bool, phone: bool, kind: EvidenceKind)
    ensures Has((if rut then Support(Rut) else []) + (if account then Support(BankAccount) else [])
                + (if email then Support(Email) else []) + (if phone then Support(Phone) else []), kind)
            <==> (rut && kind == Rut) || (account && kind == BankAccount) || (email && kind == Email)
                 || (phone && kind == Phone)
  {
    hide Has, Support;
    HasIf(rut, Rut, kind);
    HasIf(account, BankAccount, kind);
    HasIf(email, Email, kind);
    HasIf(phone, Phone, kind);
    HasInFour(if rut then Support(Rut) else [], if account then Support(BankAccount) else [],
              if email then Support(Email) else [], if phone then Support(Phone) else [], kind);
  }

  lemma IdentityHas(q: Query, person: Person, bankRuts: seq<string>, bankAccounts: seq<string>, kind: EvidenceKind)
    ensures Has(IdentityMarks(q, person, bankRuts, bankAccounts), kind)
            <==> IdentitySays(q, person, bankRuts, bankAccounts, kind)
  {
    HasOne(Rut, kind);
    if q.SearchQuery? {
      MatchesExactly(q.rut, person.ruts + bankRuts);
      MatchesExactly(q.account, bankAccounts);
      MatchesExactly(q.email, person.emails);
      MatchesExactly(q.phone, person.phones);
      DigitsInEither(q.rut, person.ruts, bankRuts);
      hide Digits, Has, MatchesDigits, MatchesText, AnyDigitsIn, Support;
      FourIfs(MatchesDigits(q.rut, person.ruts + bankRuts), MatchesDigits(q.account, bankAccounts),
              MatchesText(q.email, person.emails), MatchesDigits(q.phone, person.phones), kind);
    }
  }

  lemma IdentityMarksExact(q: Query, person: Person, bankRuts: seq<string>, bankAccounts: seq<string>)
    ensures forall kind :: Has(IdentityMarks(q, person, bankRuts, bankAccounts), kind)
                           <==> IdentitySays(q, person, bankRuts, bankAccounts, kind)
    ensures Polarized(IdentityMarks(q, person, bankRuts, bankAccounts))
  {
    forall kind
      ensures Has(IdentityMarks(q, person, bankRuts, bankAccounts), kind)
              <==> IdentitySays(q, person, bankRuts, bankAccounts, kind)
    {
      IdentityHas(q, person, bankRuts, bankAccounts, kind);
    }
    IdentityPolarized(q, person, bankRuts, bankAccounts);
    hide IdentityMarks, IdentitySays, Has, Polarized;
  }

  lemma IdentityPolarized(q: Query, person: Person, bankRuts: seq<string>, bankAccounts: seq<string>)
    ensures Polarized(IdentityMarks(q, person, bankRuts, bankAccounts))
  {
    hide MatchesDigits, MatchesText;
  }

  /** A given amount is exactly one of four cases; without a currency it is in Chilean pesos. */
  predicate AmountSays(q: Query, row: Row, kind: EvidenceKind) {
    && q.amount.Some?
    && var same := row.currency == if q.currency.Some? then q.currency.value else "CLP";
       match kind
       case CurrencyMismatch => !same
       case AmountExceedsOutstanding => same && q.amount.value > row.outstanding
       case ExactOutstanding => same && q.amount.value == row.outstanding
       case PartialPayment => same && q.amount.value < row.outstanding
       case _ => false
  }

  lemma AmountMarksExact(q: Query, row: Row)
    ensures forall kind :: Has(AmountMarks(q, row), kind) <==> AmountSays(q, row, kind)
    ensures Polarized(AmountMarks(q, row))
  {
    var marks := AmountMarks(q, row);
    if marks != [] { assert Has(marks, marks[0].kind); }
  }

  lemma PolarizedSum(a: seq<Mark>, b: seq<Mark>)
    requires Polarized(a) && Polarized(b)
    ensures Polarized(a + b)
  {
  }

  /** What a row says about a payment. */
  predicate RowSays(row: Row, q: Query, kind: EvidenceKind) {
    || AddressKind(RequestedAddress(q), row.person, true) == Some(kind)
    || TransferorSays(q.transferor, row, kind)
    || AmountSays(q, row, kind)
    || IdentitySays(q, row.person, row.legacyBank.ruts + row.normalizedBank.ruts,
                    [row.legacyBank.account, row.normalizedBank.account], kind)
  }

  /** A row's evidence, kind by kind and in both directions. In the payment text the address is read before
      names, the customer's name before a signee's, and a shared fragment last; a transferor is the customer, a
      signee, a bank holder or shares a fragment, and conflicts with the customer exactly when none of these; a
      given amount is exactly one of four cases; numbers are compared by their digits. Only a conflict of
      identity, of currency or of the amount contradicts. */
  lemma RowMarksExact(row: Row, q: Query)
    ensures forall kind :: Has(RowMarks(row, q), kind) <==> RowSays(row, q, kind)
    ensures Polarized(RowMarks(row, q))
  {
    var a, t := AddressMarks(RequestedAddress(q), row.person, true), TransferorMarks(q.transferor, row);
    var m, i := AmountMarks(q, row), IdentityMarks(q, row.person, BankRuts(row), BankAccounts(row));
    AddressMarksExact(RequestedAddress(q), row.person, true);
    TransferorMarksExact(q.transferor, row);
    AmountMarksExact(q, row);
    IdentityMarksExact(q, row.person, BankRuts(row), BankAccounts(row));
    hide Has, Polarized, AddressMarks, TransferorMarks, AmountMarks, IdentityMarks, AddressKind, TransferorSays,
         AmountSays, IdentitySays;
    PolarizedSum(a, t);
    PolarizedSum(a + t, m);
    PolarizedSum(a + t + m, i);
    forall kind
      ensures Has(RowMarks(row, q), kind) <==> RowSays(row, q, kind)
    {
      HasInFour(a, t, m, i, kind);
    }
  }

  /** A row conflicts with a payment at most once in each way, so contradictions are not counted twice. */
  lemma ConflictsOnce(row: Row, q: Query, i: nat, j: nat)
    requires i < j < |RowMarks(row, q)| && Conflicting(RowMarks(row, q)[i].kind)
    ensures RowMarks(row, q)[j].kind != RowMarks(row, q)[i].kind
  {
    var a, t := AddressMarks(RequestedAddress(q), row.person, true), TransferorMarks(q.transferor, row);
    var m, d := AmountMarks(q, row), IdentityMarks(q, row.person, BankRuts(row), BankAccounts(row));
    hide AddressMarks, TransferorMarks, AmountMarks, IdentityMarks, Conflicting;
    AddressNeverConflicts(RequestedAddress(q), row.person, true);
    IdentityNeverConflicts(q, row.person, BankRuts(row), BankAccounts(row));
    OneMark(q, row);
    OneOfEach(a, t, m, d, i, j);
  }

  lemma AddressNeverConflicts(glosa: string, person: Person, fragments: bool)
    ensures var marks := AddressMarks(glosa, person, fragments);
            forall k | 0 <= k < |marks| :: !Conflicting(marks[k].kind)
  {
    hide ExactAddress, PartialAddress, StrongNameMatch, AnyStrongNameMatch, NameFragments;
  }

  lemma IdentityNeverConflicts(q: Query, person: Person, bankRuts: seq<string>, bankAccounts: seq<string>)
    ensures var marks := IdentityMarks(q, person, bankRuts, bankAccounts);
            forall k | 0 <= k < |marks| :: !Conflicting(marks[k].kind)
  {
    hide MatchesDigits, MatchesText;
  }

  lemma OneOfEach(a: seq<Mark>, t: seq<Mark>, m: seq<Mark>, d: seq<Mark>, i: nat, j: nat)
    requires forall k | 0 <= k < |a| :: !Conflicting(a[k].kind)
    requires forall k | 0 <= k < |d| :: !Conflicting(d[k].kind)
    requires |t| <= 1 && |m| <= 1
    requires t != [] ==> t[0].kind != CurrencyMismatch && t[0].kind != AmountExceedsOutstanding
    requires m != [] ==> m[0].kind != IdentityConflict
    requires i < j < |a + t + m + d| && Conflicting((a + t + m + d)[i].kind)
    ensures (a + t + m + d)[j].kind != (a + t + m + d)[i].kind
  {
    var all := a + t + m + d;
    assert forall k | 0 <= k < |a| :: all[k] == a[k];
    assert t != [] ==> all[|a|] == t[0];
    assert m != [] ==> all[|a| + |t|] == m[0];
    assert forall k | 0 <= k < |d| :: all[|a| + |t| + |m| + k] == d[k];
    if j >= |a| + |t| + |m| { assert all[j] == d[j - |a| - |t| - |m|]; }
  }

  lemma OneMark(q: Query, row: Row)
    ensures |TransferorMarks(q.transferor, row)| <= 1 && |AmountMarks(q, row)| <= 1
    ensures forall k | 0 <= k < |TransferorMarks(q.transferor, row)| ::
              TransferorMarks(q.transferor, row)[k].kind != CurrencyMismatch
              && TransferorMarks(q.transferor, row)[k].kind != AmountExceedsOutstanding
    ensures forall k | 0 <= k < |AmountMarks(q, row)| :: AmountMarks(q, row)[k].kind != IdentityConflict
  {
    hide StrongNameMatch, AnyStrongNameMatch, NameFragments, InBankName;
  }

  /** What an identity without an account receivable says: no amounts and no bank accounts, fragments only of the
      transferor, and never a conflict. */
  predicate PersonSays(person: Person, q: Query, kind: EvidenceKind) {
    || AddressKind(RequestedAddress(q), person, false) == Some(kind)
    || PersonTransferorSays(q.transferor, person, kind)
    || IdentitySays(q, person, [], [], kind)
  }

  predicate PersonTransferorSays(transferor: string, person: Person, kind: EvidenceKind) {
    && transferor != ""
    && match kind
       case CustomerName => StrongNameMatch(transferor, person.name)
       case SigneeName => NamesSigneeOnly(transferor, person)
       case NameFragment => NamesNobody(transferor, person) && SharesName(transferor, person)
       case _ => false
  }

  lemma PersonTransferorMarksExact(transferor: string, person: Person)
    ensures forall kind :: Has(PersonTransferorMarks(transferor, person), kind)
                           <==> PersonTransferorSays(transferor, person, kind)
    ensures Polarized(PersonTransferorMarks(transferor, person))
  {
    FragmentsShared(transferor, person);
    hide StrongNameMatch, NameFragments, SharesName;
    var marks := PersonTransferorMarks(transferor, person);
    if marks != [] { assert Has(marks, marks[0].kind); }
  }

  /** The evidence of an identity, kind by kind and in both directions; none of it contradicts. */
  lemma PersonMarksExact(person: Person, q: Query)
    ensures forall kind :: Has(PersonMarks(person, q), kind) <==> PersonSays(person, q, kind)
    ensures Polarized(PersonMarks(person, q)) && forall kind | PersonSays(person, q, kind) :: !Conflicting(kind)
  {
    var a, i := AddressMarks(RequestedAddress(q), person, false), IdentityMarks(q, person, [], []);
    var t := PersonTransferorMarks(q.transferor, person);
    AddressMarksExact(RequestedAddress(q), person, false);
    PersonTransferorMarksExact(q.transferor, person);
    IdentityMarksExact(q, person, [], []);
    PersonNeverConflicts(person, q);
    hide Has, Polarized, AddressMarks, PersonTransferorMarks, IdentityMarks, AddressKind, PersonTransferorSays,
         IdentitySays;
    PolarizedSum(t, a);
    PolarizedSum(t + a, i);
    forall kind
      ensures Has(PersonMarks(person, q), kind) <==> PersonSays(person, q, kind)
    {
      HasInSum(t, a, kind);
      HasInSum(t + a, i, kind);
    }
  }

  lemma PersonNeverConflicts(person: Person, q: Query)
    ensures forall kind | PersonSays(person, q, kind) :: !Conflicting(kind)
  {
    hide AsksAddress, AsksPartOfAddress, AsksOther, StrongNameMatch, NamesSignee, SharesName, NamesSigneeOnly,
         NamesNobody, Digits, AnyDigitsIn;
  }

  predicate Speaks(signals: seq<Signal>, kind: EvidenceKind) {
    exists i | 0 <= i < |signals| :: signals[i].kind == kind
  }

  predicate SignalsPolarized(signals: seq<Signal>) {
    forall s | s in signals :: s.polarity == Contradicting <==> Conflicting(s.kind)
  }

  lemma SignedKinds(marks: seq<Mark>, verified: bool, orderId: string, arId: Option<string>)
    requires Polarized(marks)
    ensures forall kind :: Speaks(SignAll(marks, verified, orderId, arId), kind) <==> Has(marks, kind)
    ensures SignalsPolarized(SignAll(marks, verified, orderId, arId))
  {
    var signals := SignAll(marks, verified, orderId, arId);
    forall s | s in signals
      ensures s.polarity == Contradicting <==> Conflicting(s.kind)
    {
      var i :| 0 <= i < |signals| && signals[i] == s;
      assert marks[i] in marks;
    }
    assert forall i | 0 <= i < |marks| :: signals[i].kind == marks[i].kind;
  }

  /** The signals of a candidate are exactly what its row says, and contradict exactly when they are conflicts. */
  lemma CandidateSpeaks(row: Row, person: Person, q: Query, verified: bool)
    ensures forall kind :: Speaks(RowCandidate(row, q, verified).signals, kind) <==> RowSays(row, q, kind)
    ensures SignalsPolarized(RowCandidate(row, q, verified).signals)
    ensures forall kind :: Speaks(PersonCandidate(person, q, verified).signals, kind) <==> PersonSays(person, q, kind)
    ensures SignalsPolarized(PersonCandidate(person, q, verified).signals)
  {
    RowMarksExact(row, q);
    PersonMarksExact(person, q);
    hide RowMarks, PersonMarks, RowSays, PersonSays, Has, Polarized, Speaks, SignalsPolarized;
    SignedKinds(RowMarks(row, q), verified, row.person.orderId, Some(row.arId));
    SignedKinds(PersonMarks(person, q), verified, person.orderId, None);
  }

  predicate MeaningfulKind(kind: EvidenceKind) {
    kind in {ExactAddressKind, PartialAddressKind, CustomerName, SigneeName, Rut, Email, Phone,
             BankName, BankAccount, ExactOutstanding, VambeContext}
  }

  predicate Meaningful(observed: Observed) {
    exists i | 0 <= i < |observed.signals| ::
      observed.signals[i].polarity == Supporting && MeaningfulKind(observed.signals[i].kind)
  }

  function RowCandidates(rows: seq<Row>, q: Query, verified: bool): seq<Observed> {
    seq(|rows|, i requires 0 <= i < |rows| => RowCandidate(rows[i], q, verified))
  }

  function PersonCandidates(people: seq<Person>, q: Query, verified: bool): seq<Observed> {
    seq(|people|, i requires 0 <= i < |people| => PersonCandidate(people[i], q, verified))
  }

  function KeepMeaningful(candidates: seq<Observed>, except: set<string>): seq<Observed> {
    if candidates == [] then []
    else
      (if Meaningful(candidates[0]) && candidates[0].candidate.orderId !in except then [candidates[0]] else [])
      + KeepMeaningful(candidates[1..], except)
  }

  function OrdersOf(candidates: seq<Observed>): set<string> {
    set i | 0 <= i < |candidates| :: candidates[i].candidate.orderId
  }

  predicate HasIdentityInput(q: Query) {
    q.SearchQuery? && (q.glosa != "" || q.transferor != "" || q.rut != "" || q.email != "" || q.phone != "")
  }

  /** The candidates of a search: meaningful eligible rows, then meaningful people of other orders. */
  function SearchCandidates(q: Query, rows: seq<Row>, people: seq<Person>): seq<Observed> {
    var eligible := KeepMeaningful(RowCandidates(rows, q, false), {});
    if HasIdentityInput(q)
    then eligible + KeepMeaningful(PersonCandidates(people, q, false), OrdersOf(eligible))
    else eligible
  }

  /** The candidates of a verification; people only count when the order has no eligible row at all. */
  function VerifyCandidates(q: Query, rows: seq<Row>, people: seq<Person>): seq<Observed> {
    if rows == [] && q.VerifyQuery? && q.arId.None? then PersonCandidates(people, q, true)
    else RowCandidates(rows, q, true)
  }

  /** The search looked for an identity by a unique feature and neither query returned a row. */
  predicate IdentitySearchComplete(q: Query, rows: seq<Row>, people: seq<Person>) {
    q.SearchQuery? && (q.rut != "" || q.email != "" || q.phone != "") && rows == [] && people == []
  }

  // ---------- where a signal comes from ----------

  /** The signal was read from this row or person, and an exact address really is one. */
  predicate ReadFrom(signal: Signal, person: Person, q: Query, verified: bool) {
    && signal.orderId == person.orderId
    && signal.source == SourceOf(verified)
    && signal.reference.None?
    && (signal.kind == ExactAddressKind ==>
          RequestedAddress(q) != "" && Tokens(person.address) != []
          && Sublist(Tokens(RequestedAddress(q)), Tokens(person.address)))
  }

  predicate ReadAll(observed: Observed, person: Person, arId: Option<string>, q: Query, verified: bool) {
    && observed.candidate.verified == verified
    && observed.candidate.name == person.name
    && observed.candidate.orderId == person.orderId
    && observed.candidate.arId == arId
    && forall k | 0 <= k < |observed.signals| ::
         observed.signals[k].arId == observed.candidate.arId && ReadFrom(observed.signals[k], person, q, verified)
  }

  /** A candidate's signals are about the candidate, and all were read from one row about its order and its
      account; an identity has no account. */
  predicate WellRead(observed: Observed, q: Query, rows: seq<Row>, people: seq<Person>, verified: bool) {
    || (exists i | 0 <= i < |rows| :: ReadAll(observed, rows[i].person, Some(rows[i].arId), q, verified))
    || (exists i | 0 <= i < |people| :: ReadAll(observed, people[i], None, q, verified))
  }

  lemma RowReadAll(row: Row, q: Query, verified: bool)
    ensures ReadAll(RowCandidate(row, q, verified), row.person, Some(row.arId), q, verified)
  {
    RowMarksExact(row, q);
    hide RowMarks, Sublist, Tokens, PartialAddress, StrongNameMatch, NamesSignee, SharesName;
    forall k | 0 <= k < |RowMarks(row, q)| && RowMarks(row, q)[k].kind == ExactAddressKind
      ensures AsksAddress(RequestedAddress(q), row.person)
    {
      assert Has(RowMarks(row, q), ExactAddressKind);
    }
  }

  lemma PersonReadAll(person: Person, q: Query, verified: bool)
    ensures ReadAll(PersonCandidate(person, q, verified), person, None, q, verified)
  {
    PersonMarksExact(person, q);
    hide PersonMarks, Sublist, Tokens, PartialAddress, StrongNameMatch, NamesSignee, SharesName;
    forall k | 0 <= k < |PersonMarks(person, q)| && PersonMarks(person, q)[k].kind == ExactAddressKind
      ensures AsksAddress(RequestedAddress(q), person)
    {
      assert Has(PersonMarks(person, q), ExactAddressKind);
    }
  }

  lemma {:induction false} KeptFrom(candidates: seq<Observed>, except: set<string>)
    ensures forall kept | kept in KeepMeaningful(candidates, except) ::
              kept in candidates && Meaningful(kept) && kept.candidate.orderId !in except
    ensures forall c | c in candidates && Meaningful(c) && c.candidate.orderId !in except ::
              c in KeepMeaningful(candidates, except)
  {
    if candidates != [] { KeptFrom(candidates[1..], except); }
  }

  /** Every candidate of a search or verification is well read. */
  lemma CandidatesWellRead(q: Query, rows: seq<Row>, people: seq<Person>)
    ensures forall c | c in SearchCandidates(q, rows, people) :: WellRead(c, q, rows, people, false)
    ensures forall c | c in VerifyCandidates(q, rows, people) :: WellRead(c, q, rows, people, true)
  {
    hide ReadAll, RowCandidate, PersonCandidate;
    forall i, verified | 0 <= i < |rows|
      ensures WellRead(RowCandidate(rows[i], q, verified), q, rows, people, verified)
    {
      RowReadAll(rows[i], q, verified);
    }
    forall i, verified | 0 <= i < |people|
      ensures WellRead(PersonCandidate(people[i], q, verified), q, rows, people, verified)
    {
      PersonReadAll(people[i], q, verified);
    }
    var eligible := KeepMeaningful(RowCandidates(rows, q, false), {});
    KeptFrom(RowCandidates(rows, q, false), {});
    KeptFrom(PersonCandidates(people, q, false), OrdersOf(eligible));
  }

  // ---------- exactly which candidates a tool returns ----------

  /** The row says more than a fragment of a name or a part of the amount. */
  predicate RowTells(row: Row, q: Query) {
    || RowSays(row, q, ExactAddressKind) || RowSays(row, q, PartialAddressKind)
    || RowSays(row, q, CustomerName) || RowSays(row, q, SigneeName) || RowSays(row, q, BankName)
    || RowSays(row, q, Rut) || RowSays(row, q, BankAccount) || RowSays(row, q, Email) || RowSays(row, q, Phone)
    || RowSays(row, q, ExactOutstanding) || RowSays(row, q, VambeContext)
  }

  predicate PersonTells(person: Person, q: Query) {
    || PersonSays(person, q, ExactAddressKind) || PersonSays(person, q, PartialAddressKind)
    || PersonSays(person, q, CustomerName) || PersonSays(person, q, SigneeName) || PersonSays(person, q, BankName)
    || PersonSays(person, q, Rut) || PersonSays(person, q, BankAccount) || PersonSays(person, q, Email)
    || PersonSays(person, q, Phone) || PersonSays(person, q, ExactOutstanding) || PersonSays(person, q, VambeContext)
  }

  lemma MeaningfulExactly(observed: Observed)
    requires SignalsPolarized(observed.signals)
    ensures Meaningful(observed)
            <==> var s := observed.signals;
                 || Speaks(s, ExactAddressKind) || Speaks(s, PartialAddressKind) || Speaks(s, CustomerName)
                 || Speaks(s, SigneeName) || Speaks(s, BankName) || Speaks(s, Rut) || Speaks(s, BankAccount)
                 || Speaks(s, Email) || Speaks(s, Phone) || Speaks(s, ExactOutstanding) || Speaks(s, VambeContext)
  {
    var s := observed.signals;
    if i :| 0 <= i < |s| && s[i].polarity == Supporting && MeaningfulKind(s[i].kind) {
      assert Speaks(s, s[i].kind);
    }
    forall kind | MeaningfulKind(kind) && Speaks(s, kind)
      ensures Meaningful(observed)
    {
      var i :| 0 <= i < |s| && s[i].kind == kind;
      assert s[i] in s;
    }
    hide Speaks, Meaningful, SignalsPolarized;
  }

  /** The candidate is this row's, and the row tells something. */
  predicate IsRow(c: Observed, row: Row, q: Query) {
    c == RowCandidate(row, q, false) && RowTells(row, q)
  }

  predicate IsPerson(c: Observed, person: Person, q: Query) {
    c == PersonCandidate(person, q, false) && PersonTells(person, q)
  }

  lemma RowTellsExactly(row: Row, q: Query)
    ensures Meaningful(RowCandidate(row, q, false)) <==> RowTells(row, q)
  {
    CandidateSpeaks(row, row.person, q, false);
    hide RowSays, PersonSays, RowMarks, PersonMarks, Speaks, Meaningful, SignalsPolarized;
    MeaningfulExactly(RowCandidate(row, q, false));
  }

  lemma PersonTellsExactly(person: Person, q: Query)
    ensures Meaningful(PersonCandidate(person, q, false)) <==> PersonTells(person, q)
  {
    var bank := Bank("", [], "");
    CandidateSpeaks(Row(person, "", "", 0.0, "", bank, bank), person, q, false);
    hide RowSays, PersonSays, RowMarks, PersonMarks, Speaks, Meaningful, SignalsPolarized;
    MeaningfulExactly(PersonCandidate(person, q, false));
  }

  lemma RowsFound(q: Query, rows: seq<Row>, c: Observed)
    ensures c in KeepMeaningful(RowCandidates(rows, q, false), {})
            <==> exists i | 0 <= i < |rows| :: IsRow(c, rows[i], q)
  {
    var found := RowCandidates(rows, q, false);
    KeptFrom(found, {});
    hide RowTells, Meaningful, KeepMeaningful, RowCandidate;
    if i :| 0 <= i < |rows| && IsRow(c, rows[i], q) {
      RowTellsExactly(rows[i], q);
      assert found[i] in found;
    }
    if c in KeepMeaningful(found, {}) {
      var i :| 0 <= i < |rows| && found[i] == c;
      RowTellsExactly(rows[i], q);
    }
  }

  lemma PeopleFound(q: Query, people: seq<Person>, except: set<string>, c: Observed)
    ensures c in KeepMeaningful(PersonCandidates(people, q, false), except)
            <==> exists i | 0 <= i < |people| :: IsPerson(c, people[i], q) && c.candidate.orderId !in except
  {
    var found := PersonCandidates(people, q, false);
    KeptFrom(found, except);
    hide PersonTells, Meaningful, KeepMeaningful, PersonCandidate;
    if i :| 0 <= i < |people| && IsPerson(c, people[i], q) {
      PersonTellsExactly(people[i], q);
      assert found[i] in found;
    }
    if c in KeepMeaningful(found, except) {
      var i :| 0 <= i < |people| && found[i] == c;
      PersonTellsExactly(people[i], q);
    }
  }

  /** No row that tells something is about the order. */
  predicate NotEligible(orderId: string, rows: seq<Row>, q: Query) {
    forall k | 0 <= k < |rows| && RowTells(rows[k], q) :: rows[k].person.orderId != orderId
  }

  lemma EligibleExactly(q: Query, rows: seq<Row>, orderId: string)
    ensures orderId in OrdersOf(KeepMeaningful(RowCandidates(rows, q, false), {})) <==> !NotEligible(orderId, rows, q)
  {
    var eligible := KeepMeaningful(RowCandidates(rows, q, false), {});
    hide RowTells, RowMarks, KeepMeaningful;
    if orderId in OrdersOf(eligible) {
      var k :| 0 <= k < |eligible| && eligible[k].candidate.orderId == orderId;
      RowsFound(q, rows, eligible[k]);
      assert eligible[k] in eligible;
    }
    if k :| 0 <= k < |rows| && RowTells(rows[k], q) && rows[k].person.orderId == orderId {
      var c := RowCandidate(rows[k], q, false);
      RowsFound(q, rows, c);
      assert IsRow(c, rows[k], q);
      var i :| 0 <= i < |eligible| && eligible[i] == c;
    }
  }

  /** A search returns exactly the rows that tell something, and, when it asked for a person by text, name, RUT,
      email or phone, the people who do and whose order has no such row. */
  lemma SearchFindsExactly(q: Query, rows: seq<Row>, people: seq<Person>, c: Observed)
    ensures c in SearchCandidates(q, rows, people)
            <==> || (exists i | 0 <= i < |rows| :: IsRow(c, rows[i], q))
                 || (&& q.SearchQuery?
                     && (q.glosa != "" || q.transferor != "" || q.rut != "" || q.email != "" || q.phone != "")
                     && exists i | 0 <= i < |people| ::
                          IsPerson(c, people[i], q) && NotEligible(people[i].orderId, rows, q))
  {
    var eligible := KeepMeaningful(RowCandidates(rows, q, false), {});
    RowsFound(q, rows, c);
    PeopleFound(q, people, OrdersOf(eligible), c);
    EligibleExactly(q, rows, c.candidate.orderId);
    assert forall i | 0 <= i < |people| && IsPerson(c, people[i], q) :: people[i].orderId == c.candidate.orderId;
    hide IsRow, IsPerson, NotEligible, KeepMeaningful, OrdersOf;
  }

  /** A verification returns every row it read, and the identity only when there is none and no account was asked
      for. */
  lemma VerifyFindsExactly(q: Query, rows: seq<Row>, people: seq<Person>)
    ensures var found := VerifyCandidates(q, rows, people);
            if rows == [] && q.VerifyQuery? && q.arId.None?
            then |found| == |people| && forall i | 0 <= i < |people| :: found[i] == PersonCandidate(people[i], q, true)
            else |found| == |rows| && forall i | 0 <= i < |rows| :: found[i] == RowCandidate(rows[i], q, true)
  {
  }
}
