/** Normalized text and the comparisons made on it. Every text here is what case folding, Unicode
    decomposition and the removal of combining marks leave behind; what remains is to cut it into
    runs of ASCII letters and digits. */
module Matching {
  predicate Alnum(c: char) {
    ('a' <= c <= 'z') || ('0' <= c <= '9')
  }

  predicate Digit(c: char) {
    '0' <= c <= '9'
  }

  predicate IsToken(t: string) {
    t != "" && forall i | 0 <= i < |t| :: Alnum(t[i])
  }

  predicate AllTokens(ts: seq<string>) {
    forall i | 0 <= i < |ts| :: IsToken(ts[i])
  }

  /** The length of the longest run of letters and digits at the front. */
  function RunLength(text: string): (n: nat)
    ensures n <= |text| && (forall i | 0 <= i < n :: Alnum(text[i])) && (n < |text| ==> !Alnum(text[n]))
  {
    if text == "" || !Alnum(text[0]) then 0 else 1 + RunLength(text[1..])
  }

  /** The maximal runs of letters and digits, in order. */
  function Tokens(text: string): (ts: seq<string>)
    ensures AllTokens(ts)
    decreases |text|
  {
    if text == "" then []
    else if !Alnum(text[0]) then Tokens(text[1..])
    else
      var n := RunLength(text);
      [text[..n]] + Tokens(text[n..])
  }

  function Join(ts: seq<string>): string {
    if ts == [] then "" else if |ts| == 1 then ts[0] else ts[0] + " " + Join(ts[1..])
  }

  /** `_plain`: the tokens of a text, joined by single spaces. */
  function Plain(text: string): string {
    Join(Tokens(text))
  }

  lemma {:induction false} RunOfToken(t: string, rest: string)
    requires IsToken(t) && (rest == "" || !Alnum(rest[0]))
    ensures RunLength(t + rest) == |t|
  {
    assert (t + rest)[1..] == t[1..] + rest;
    if |t| == 1 {
      assert t[1..] + rest == rest;
    } else {
      RunOfToken(t[1..], rest);
    }
  }

  lemma FirstToken(t: string, rest: string)
    requires IsToken(t) && (rest == "" || !Alnum(rest[0]))
    ensures Tokens(t + rest) == [t] + Tokens(rest)
  {
    RunOfToken(t, rest);
    assert (t + rest)[..|t|] == t && (t + rest)[|t|..] == rest;
  }

  /** Splitting undoes joining: token lists and normalized texts correspond. */
  lemma {:induction false} TokensOfJoin(ts: seq<string>)
    requires AllTokens(ts)
    ensures Tokens(Join(ts)) == ts
  {
    if ts != [] {
      TokensOfJoin(ts[1..]);
      hide Tokens;
      var rest := if |ts| == 1 then "" else " " + Join(ts[1..]);
      assert Join(ts) == ts[0] + rest;
      FirstToken(ts[0], rest);
      SpaceSkipped(Join(ts[1..]));
    }
  }

  lemma SpaceSkipped(text: string)
    ensures Tokens(" " + text) == Tokens(text)
  {
    assert (" " + text)[1..] == text;
  }

  /** White space between two texts keeps their tokens apart. */
  lemma {:induction false} TokensApart(a: string, b: string)
    ensures Tokens(a + " " + b) == Tokens(a) + Tokens(b)
    decreases |a|
  {
    if a == "" {
      assert "" + " " + b == " " + b;
      SpaceSkipped(b);
    } else if !Alnum(a[0]) {
      TokensApart(a[1..], b);
      assert (a + " " + b)[1..] == a[1..] + " " + b;
    } else {
      var n := RunLength(a);
      var rest := a[n..] + " " + b;
      TokensApart(a[n..], b);
      FirstToken(a[..n], rest);
      assert a + " " + b == a[..n] + rest;
    }
  }

  /** Normalizing twice is normalizing once, and loses no token. */
  lemma PlainIdempotent(text: string)
    ensures Plain(Plain(text)) == Plain(text) && Tokens(Plain(text)) == Tokens(text)
  {
    TokensOfJoin(Tokens(text));
  }

  // ---------- substrings and sublists ----------

  predicate OccursAt(text: string, part: string, k: nat) {
    k + |part| <= |text| && text[k..k + |part|] == part
  }

  predicate Contains(text: string, part: string) {
    exists k: nat | k <= |text| :: OccursAt(text, part, k)
  }

  predicate SublistAt(ts: seq<string>, part: seq<string>, k: nat) {
    k + |part| <= |ts| && ts[k..k + |part|] == part
  }

  /** The tokens of `part` occur next to each other in `ts`. */
  predicate Sublist(ts: seq<string>, part: seq<string>) {
    exists k: nat | k <= |ts| :: SublistAt(ts, part, k)
  }

  /** The text with one space on either side, as the exact-address test builds it. */
  function Padded(text: string): string {
    " " + text + " "
  }

  /** A space before every token and one at the end. */
  function Spaced(ts: seq<string>): string {
    if ts == [] then " " else " " + ts[0] + Spaced(ts[1..])
  }

  lemma {:induction false} PaddedIsSpaced(ts: seq<string>)
    requires ts != []
    ensures Padded(Join(ts)) == Spaced(ts)
  {
    if |ts| == 1 {
      assert Spaced(ts[1..]) == " ";
    } else {
      PaddedIsSpaced(ts[1..]);
      assert Padded(Join(ts)) == " " + ts[0] + Padded(Join(ts[1..]));
    }
  }

  lemma {:induction false} SpacedPrefix(ts: seq<string>, part: seq<string>)
    requires AllTokens(ts) && AllTokens(part)
    requires Spaced(part) <= Spaced(ts)
    ensures part <= ts
  {
    if part != [] {
      var p := part[0];
      var whole, front := Spaced(ts), Spaced(part);
      assert front[1..][..|p|] == p && front[1] == p[0];
      assert |front| >= 3;
      var t := ts[0];
      FirstTokenSame(t, Spaced(ts[1..]), p, Spaced(part[1..]));
      SpacedPrefix(ts[1..], part[1..]);
      assert part == [p] + part[1..] && ts == [t] + ts[1..];
    }
  }

  /** A token followed by a space determines where it ends. */
  lemma FirstTokenSame(t: string, rest: string, p: string, rest': string)
    requires IsToken(t) && IsToken(p) && rest != "" && rest' != "" && rest[0] == ' ' && rest'[0] == ' '
    requires " " + p + rest' <= " " + t + rest
    ensures p == t && rest' <= rest
  {
    var front, whole := " " + p + rest', " " + t + rest;
    assert forall i | 0 <= i < |front| :: front[i] == whole[i];
    assert forall i | 0 <= i < |t| :: whole[1 + i] == t[i];
    assert forall i | 0 <= i < |p| :: front[1 + i] == p[i];
    assert front[1 + |p|] == ' ' && whole[1 + |t|] == ' ';
    assert |p| == |t|;
    assert p == front[1..1 + |p|] && t == whole[1..1 + |t|];
    assert rest' == front[1 + |p|..] && rest == whole[1 + |t|..];
  }

  lemma {:induction false} OccurrenceIsSublist(ts: seq<string>, part: seq<string>, k: nat) returns (i: nat)
    requires AllTokens(ts) && AllTokens(part) && part != [] && OccursAt(Spaced(ts), Spaced(part), k)
    ensures SublistAt(ts, part, i)
  {
    var whole, piece := Spaced(ts), Spaced(part);
    if k == 0 {
      SpacedPrefix(ts, part);
      i := 0;
    } else {
      assert piece[0] == ' ' && whole[k] == whole[k..k + |piece|][0];
      assert ts != [];
      var t := ts[0];
      assert forall m | 0 <= m < |t| :: whole[1 + m] == t[m];
      assert k != 0 && (k <= |t| ==> Alnum(whole[1 + (k - 1)]));
      var rest := Spaced(ts[1..]);
      assert whole[k..k + |piece|] == rest[k - 1 - |t|..k - 1 - |t| + |piece|];
      var j := OccurrenceIsSublist(ts[1..], part, k - 1 - |t|);
      i := j + 1;
      SublistLater(ts, part, j);
    }
  }

  lemma SublistLater(ts: seq<string>, part: seq<string>, j: nat)
    requires ts != [] && SublistAt(ts[1..], part, j)
    ensures SublistAt(ts, part, j + 1)
  {
    assert ts[j + 1..j + 1 + |part|] == ts[1..][j..j + |part|];
  }

  lemma {:induction false} SublistOccurs(ts: seq<string>, part: seq<string>, i: nat) returns (k: nat)
    requires part != [] && SublistAt(ts, part, i)
    ensures OccursAt(Spaced(ts), Spaced(part), k)
  {
    if i == 0 {
      PrefixOccurs(ts, part);
      k := 0;
    } else {
      assert ts[1..][i - 1..i - 1 + |part|] == ts[i..i + |part|];
      var j := SublistOccurs(ts[1..], part, i - 1);
      k := 1 + |ts[0]| + j;
      var rest := Spaced(ts[1..]);
      assert Spaced(ts)[k..k + |Spaced(part)|] == rest[j..j + |Spaced(part)|];
    }
  }

  lemma {:induction false} PrefixOccurs(ts: seq<string>, part: seq<string>)
    requires part <= ts
    ensures Spaced(part) <= Spaced(ts)
  {
    if part == [] {
      assert Spaced(ts)[0] == ' ';
    } else {
      PrefixOccurs(ts[1..], part[1..]);
    }
  }

  /** The space-padded substring test of the exact-address rule. */
  predicate ExactAddress(glosa: string, address: string) {
    Plain(address) != "" && Contains(Padded(Plain(glosa)), Padded(Plain(address)))
  }

  /** Exact address: the substring test holds exactly when the address has tokens and they occur, as a
      contiguous sublist, among the tokens of the payment text. */
  lemma ExactAddressIsSublist(glosa: string, address: string)
    ensures ExactAddress(glosa, address) <==> Tokens(address) != [] && Sublist(Tokens(glosa), Tokens(address))
  {
    var ts, part := Tokens(glosa), Tokens(address);
    if part != [] {
      assert Plain(address) != "" by { assert part[0] != "" && |Join(part)| >= |part[0]|; }
      PaddedIsSpaced(part);
      var whole, piece := Padded(Plain(glosa)), Spaced(part);
      if ts == [] {
        assert |piece| >= 3 && |whole| == 2;
      } else {
        PaddedIsSpaced(ts);
        if Contains(whole, piece) {
          var k: nat :| k <= |whole| && OccursAt(whole, piece, k);
          var i := OccurrenceIsSublist(ts, part, k);
        }
        if Sublist(ts, part) {
          var i: nat :| i <= |ts| && SublistAt(ts, part, i);
          var k := SublistOccurs(ts, part, i);
        }
      }
    }
  }

  // ---------- partial addresses and names ----------

  function ToSet(ts: seq<string>): set<string> {
    set t | t in ts
  }

  predicate IsNumber(t: string) {
    t != "" && forall i | 0 <= i < |t| :: Digit(t[i])
  }

  function Numbers(ts: seq<string>): set<string> {
    set t | t in ts && IsNumber(t)
  }

  function Words(ts: seq<string>): set<string> {
    set t | t in ts && !IsNumber(t) && |t| >= 3
  }

  /** All numbers of the address and at least two and seven tenths of its words are in the text. */
  predicate PartialAddress(glosa: string, address: string) {
    var given := ToSet(Tokens(glosa));
    var numbers, words := Numbers(Tokens(address)), Words(Tokens(address));
    var matched := words * given;
    numbers != {} && numbers <= given && |matched| >= 2 && 10 * |matched| >= 7 * |words|
  }

  /** An exact address would also pass the partial test, unless it has no number or too few words. */
  lemma ExactImpliesPartial(glosa: string, address: string)
    requires ExactAddress(glosa, address)
    ensures PartialAddress(glosa, address)
            <==> Numbers(Tokens(address)) != {} && |Words(Tokens(address))| >= 2
  {
    ExactAddressIsSublist(glosa, address);
    var ts, part := Tokens(glosa), Tokens(address);
    var i: nat :| i <= |ts| && SublistAt(ts, part, i);
    forall t | t in part
      ensures t in ts
    {
      var k :| 0 <= k < |part| && part[k] == t;
      assert ts[i + k] == t;
    }
    assert Words(part) * ToSet(ts) == Words(part);
  }

  const PARTICLES := {"de", "del", "la", "las", "los", "y"}

  function NameTokens(name: string): set<string> {
    set t | t in Tokens(name) && |t| >= 3 && t !in PARTICLES
  }

  /** At least two name tokens in common, and three quarters of one of the two names. */
  predicate StrongNameMatch(query: string, candidate: string) {
    var asked, known := NameTokens(query), NameTokens(candidate);
    var shared := asked * known;
    |shared| >= 2 && (4 * |shared| >= 3 * |asked| || 4 * |shared| >= 3 * |known|)
  }

  predicate AnyStrongNameMatch(query: string, candidates: seq<string>) {
    exists i | 0 <= i < |candidates| :: StrongNameMatch(query, candidates[i])
  }

  function NameFragments(query: string, candidates: seq<string>): set<string> {
    set t | t in NameTokens(query) && |t| >= 4 && exists i | 0 <= i < |candidates| :: t in NameTokens(candidates[i])
  }

  /** A strong match does not depend on which of the two names was asked for, and two names of which one
      lists all tokens of the other match as soon as two tokens remain. */
  lemma StrongMatchLaws(a: string, b: string)
    ensures StrongNameMatch(a, b) <==> StrongNameMatch(b, a)
    ensures NameTokens(a) <= NameTokens(b) ==> (StrongNameMatch(a, b) <==> |NameTokens(a)| >= 2)
  {
    assert NameTokens(a) * NameTokens(b) == NameTokens(b) * NameTokens(a);
    if NameTokens(a) <= NameTokens(b) { assert NameTokens(a) * NameTokens(b) == NameTokens(a); }
  }

  /** The tokens of a name that count: three letters or more, and no particle. */
  function Counting(name: string): set<string> {
    set t | t in Tokens(name) && |t| > 2 && t != "del" && t != "las" && t != "los"
  }

  /** Exactly when two names match strongly: they share at least two tokens that count, and of one of them at
      most a quarter is missing in the other. */
  lemma StrongExactly(a: string, b: string)
    ensures StrongNameMatch(a, b)
            <==> |Counting(a) * Counting(b)| >= 2
                 && (|| 4 * |Counting(a) - Counting(b)| <= |Counting(a)|
                     || 4 * |Counting(b) - Counting(a)| <= |Counting(b)|)
  {
    assert Counting(a) == NameTokens(a) && Counting(b) == NameTokens(b);
    Parted(Counting(a), Counting(b));
    Parted(Counting(b), Counting(a));
    assert Counting(b) * Counting(a) == Counting(a) * Counting(b);
  }

  lemma Parted(a: set<string>, b: set<string>)
    ensures |a| == |a * b| + |a - b|
  {
    assert a == a * b + (a - b);
  }

  predicate IsDigits(t: string) {
    t != "" && forall i | 0 <= i < |t| :: '0' <= t[i] <= '9'
  }

  function AddressWords(address: string): set<string> {
    set t | t in Tokens(address) && !IsDigits(t) && |t| >= 3
  }

  lemma AddressParts(address: string)
    ensures AddressWords(address) == Words(Tokens(address))
    ensures forall t :: t in Numbers(Tokens(address)) <==> t in Tokens(address) && IsDigits(t)
  {
    assert forall t :: IsNumber(t) <==> IsDigits(t);
    hide Tokens, IsDigits, IsNumber;
  }

  /** Exactly when an address is partly in a text: it has a number, all its numbers are in the text, and of its
      words of three letters or more at least two are, and at most three tenths are not. */
  lemma PartialExactly(glosa: string, address: string)
    ensures var words := AddressWords(address);
            var missing := set t | t in words && t !in Tokens(glosa);
            PartialAddress(glosa, address)
            <==> && (exists t :: t in Tokens(address) && IsDigits(t))
                 && (forall t | t in Tokens(address) && IsDigits(t) :: t in Tokens(glosa))
                 && |words - missing| >= 2 && 10 * |missing| <= 3 * |words|
  {
    AddressParts(address);
    var words := AddressWords(address);
    var missing := set t | t in words && t !in Tokens(glosa);
    var numbers := Numbers(Tokens(address));
    hide Tokens, IsNumber, IsDigits, Words, Numbers, AddressWords;
    assert words * ToSet(Tokens(glosa)) == words - missing;
    Parted(words, missing);
    assert words * missing == missing;
    assert numbers <= ToSet(Tokens(glosa)) <==> forall t | t in numbers :: t in Tokens(glosa);
  }

  /** The texts share a token of at least four letters. */
  predicate SharesToken(a: string, b: string) {
    exists t :: t in Tokens(a) && t in Tokens(b) && |t| >= 4
  }

  lemma FragmentsExactly(query: string, names: seq<string>)
    ensures NameFragments(query, names) != {} <==> exists i | 0 <= i < |names| :: SharesToken(query, names[i])
  {
    if i, t :| 0 <= i < |names| && t in Tokens(query) && t in Tokens(names[i]) && |t| >= 4 {
      assert t in NameTokens(query) && t in NameTokens(names[i]);
      assert t in NameFragments(query, names);
    }
    if NameFragments(query, names) != {} {
      var t :| t in NameFragments(query, names);
      var i :| 0 <= i < |names| && t in NameTokens(names[i]);
      assert SharesToken(query, names[i]);
    }
  }

  /** The small letters and digits of a text, in order. */
  function LettersAndDigits(text: string): string {
    if text == "" then ""
    else (if 'a' <= text[0] <= 'z' || '0' <= text[0] <= '9' then [text[0]] else "") + LettersAndDigits(text[1..])
  }

  function Glued(ts: seq<string>): string {
    if ts == [] then "" else ts[0] + Glued(ts[1..])
  }

  lemma {:induction false} LettersJoined(a: string, b: string)
    ensures LettersAndDigits(a + b) == LettersAndDigits(a) + LettersAndDigits(b)
  {
    if a == "" {
      assert a + b == b;
    } else {
      LettersJoined(a[1..], b);
      assert (a + b)[1..] == a[1..] + b;
    }
  }

  lemma {:induction false} LettersOnly(text: string)
    requires forall i | 0 <= i < |text| :: Alnum(text[i])
    ensures LettersAndDigits(text) == text
  {
    if text != "" {
      LettersOnly(text[1..]);
    }
  }

  /** Cutting a text into tokens loses no letter and no digit, and adds nothing. */
  lemma {:induction false} TokensKeepText(text: string)
    ensures Glued(Tokens(text)) == LettersAndDigits(text)
    decreases |text|
  {
    if text != "" {
      if !Alnum(text[0]) {
        TokensKeepText(text[1..]);
      } else {
        var n := RunLength(text);
        TokensKeepText(text[n..]);
        LettersOnly(text[..n]);
        LettersJoined(text[..n], text[n..]);
        assert text[..n] + text[n..] == text;
        assert Tokens(text)[1..] == Tokens(text[n..]);
      }
    }
  }
}
