/** Bounded reads from the replica: at most three snapshots, a row limit, and a byte limit on the JSON
    text of the rows. */
module Fetching {
  import opened Records

  /** A database value by what the sanitizer does with it: a text is cut to 2000 characters, dates and
      identifiers become their text, binary data a notice, and any other value its text, cut as well. */
  datatype Value = NullValue | Text(text: string) | Scalar(text: string) | Binary(length: nat) | Opaque(text: string)

  type Row = seq<Value>

  const MAX_TEXT := 2000

  function Cut(text: string): string {
    if |text| <= MAX_TEXT then text else text[..MAX_TEXT]
  }

  /** `_safe_json_value`. */
  function SafeValue(value: Value): Value {
    match value
    case Text(text) => Text(Cut(text))
    case Opaque(text) => Opaque(Cut(text))
    case _ => value
  }

  function SafeRow(row: Row): (r: Row)
    ensures |r| == |row| && forall i | 0 <= i < |row| :: r[i] == SafeValue(row[i])
  {
    seq(|row|, i requires 0 <= i < |row| => SafeValue(row[i]))
  }

  function SafeRows(rows: seq<Row>): (r: seq<Row>)
    ensures |r| == |rows| && forall i | 0 <= i < |rows| :: r[i] == SafeRow(rows[i])
  {
    seq(|rows|, i requires 0 <= i < |rows| => SafeRow(rows[i]))
  }

  predicate LongText(row: Row) {
    exists i | 0 <= i < |row| :: row[i].Text? && |row[i].text| > MAX_TEXT
  }

  /** The bytes of a JSON list: brackets, the rows' own bytes, and a comma and a space between two rows. */
  function ListBytes(rows: seq<Row>, size: Row -> nat): nat {
    if rows == [] then 2
    else if |rows| == 1 then 2 + size(rows[0])
    else ListBytes(rows[..|rows| - 1], size) + 2 + size(rows[|rows| - 1])
  }

  /** The JSON text of a list, given that of its rows. */
  function JsonList(rows: seq<Row>, text: Row -> string): string {
    if rows == [] then "[]" else "[" + JsonRows(rows, text) + "]"
  }

  function JsonRows(rows: seq<Row>, text: Row -> string): string
    requires rows != []
  {
    if |rows| == 1 then text(rows[0])
    else JsonRows(rows[..|rows| - 1], text) + ", " + text(rows[|rows| - 1])
  }

  lemma {:induction false} RowsBytes(rows: seq<Row>, text: Row -> string, size: Row -> nat)
    requires rows != [] && forall row :: size(row) == |text(row)|
    ensures ListBytes(rows, size) == |JsonRows(rows, text)| + 2
  {
    if |rows| > 1 { RowsBytes(rows[..|rows| - 1], text, size); }
  }

  /** The bytes of a list are those of its JSON text. */
  lemma ListBytesExact(rows: seq<Row>, text: Row -> string, size: Row -> nat)
    requires forall row :: size(row) == |text(row)|
    ensures ListBytes(rows, size) == |JsonList(rows, text)|
  {
    if rows != [] { RowsBytes(rows, text, size); }
  }

  datatype Attempt = Conflict | Broken | Snapshot(rows: seq<Row>)

  datatype Outcome = Failed | Fetched(rows: seq<Row>, truncated: bool)

  function Min(a: nat, b: nat): nat {
    if a < b then a else b
  }

  /** A requested maximum of zero counts as none. */
  function RowLimit(maxRows: Option<nat>, configured: nat, scope: nat): nat {
    Min(Min(if maxRows.Some? && maxRows.value > 0 then maxRows.value else configured, configured), scope)
  }

  /** The row limit is the largest number of rows that respects the configuration, the scope of the replica and the
      request, if that asks for a positive number. */
  lemma RowLimitLargest(maxRows: Option<nat>, configured: nat, scope: nat, n: nat)
    ensures n <= RowLimit(maxRows, configured, scope)
            <==> n <= configured && n <= scope && (maxRows.Some? && maxRows.value > 0 ==> n <= maxRows.value)
  {
  }

  /** How many rows of the list fit when they are added one by one. */
  function Fitting(rows: seq<Row>, limit: nat, size: Row -> nat): (n: nat)
    ensures n <= |rows|
  {
    if rows == [] then 0
    else
      var front := Fitting(rows[..|rows| - 1], limit, size);
      if front == |rows| - 1 && ListBytes(SafeRows(rows), size) <= limit then |rows| else front
  }

  /** The rows are the longest prefix that fits: it fits, unless it is empty, and no longer one does. */
  lemma {:induction false} FittingLongest(rows: seq<Row>, limit: nat, size: Row -> nat, k: nat)
    requires k <= |rows|
    ensures var n := Fitting(rows, limit, size);
            k > 0 ==> (ListBytes(SafeRows(rows[..k]), size) <= limit <==> k <= n)
  {
    hide SafeRows, ListBytes;
    if rows != [] {
      var last := |rows| - 1;
      if k <= last {
        FittingLongest(rows[..last], limit, size, k);
        assert rows[..last][..k] == rows[..k];
        if last > 0 { FittingLongest(rows[..last], limit, size, last); }
        BytesGrow(rows, size, k);
      } else {
        assert rows[..k] == rows;
        if last > 0 {
          FittingLongest(rows[..last], limit, size, last);
          assert rows[..last][..last] == rows[..last];
          BytesGrow(rows, size, last);
        }
      }
    }
  }

  lemma {:induction false} BytesGrow(rows: seq<Row>, size: Row -> nat, k: nat)
    requires k <= |rows|
    ensures ListBytes(SafeRows(rows[..k]), size) <= ListBytes(SafeRows(rows), size)
  {
    if k == |rows| {
      assert rows[..k] == rows;
    } else {
      var last := |rows| - 1;
      BytesGrow(rows[..last], size, k);
      assert rows[..last][..k] == rows[..k];
      assert SafeRows(rows)[..last] == SafeRows(rows[..last]);
    }
  }

  predicate AnyLongText(rows: seq<Row>) {
    exists i | 0 <= i < |rows| :: LongText(rows[i])
  }

  /** What a bounded read returns for the rows of one snapshot. */
  function Bounded(all: seq<Row>, rowLimit: nat, byteLimit: nat, size: Row -> nat): Outcome {
    var records := if |all| <= rowLimit then all else all[..rowLimit];
    var n := Fitting(records, byteLimit, size);
    Fetched(SafeRows(records[..n]),
            |all| > rowLimit || n < |records| || AnyLongText(records[..n]))
  }

  /** What a returned value is: of a text the first 2000 characters, or all of it if it has no more; of another value
      its text, cut in the same way where it is converted by default. */
  predicate Shows(shown: Value, stored: Value) {
    match stored
    case Text(text) =>
      shown.Text? && shown.text <= text && |shown.text| == if |text| < 2000 then |text| else 2000
    case Opaque(text) =>
      shown.Opaque? && shown.text <= text && |shown.text| == if |text| < 2000 then |text| else 2000
    case _ => shown == stored
  }

  /** The rows of a bounded read are the first rows of the snapshot, in their order, each value shown as far as it
      may be; no more of them than the row limit, and within the byte limit unless there is none. */
  lemma BoundedShows(all: seq<Row>, rowLimit: nat, byteLimit: nat, size: Row -> nat)
    ensures var rows := Bounded(all, rowLimit, byteLimit, size).rows;
            && |rows| <= |all| && |rows| <= rowLimit
            && (rows != [] ==> ListBytes(rows, size) <= byteLimit)
            && forall i | 0 <= i < |rows| ::
                 |rows[i]| == |all[i]| && forall k | 0 <= k < |all[i]| :: Shows(rows[i][k], all[i][k])
  {
    var records := if |all| <= rowLimit then all else all[..rowLimit];
    var n := Fitting(records, byteLimit, size);
    if n > 0 { FittingLongest(records, byteLimit, size, n); }
    hide ListBytes, Fitting;
  }

  /** Untruncated means complete: every row of the snapshot is there, and every text in it whole. */
  lemma UntruncatedComplete(all: seq<Row>, rowLimit: nat, byteLimit: nat, size: Row -> nat)
    ensures var r := Bounded(all, rowLimit, byteLimit, size);
            !r.truncated <==>
              && |all| <= rowLimit && (all != [] ==> ListBytes(SafeRows(all), size) <= byteLimit)
              && !AnyLongText(all)
    ensures var r := Bounded(all, rowLimit, byteLimit, size);
            !r.truncated ==>
              && |r.rows| == |all|
              && forall i, k | 0 <= i < |all| && 0 <= k < |all[i]| && all[i][k].Text? :: r.rows[i][k] == all[i][k]
  {
    if |all| <= rowLimit {
      var n := Fitting(all, byteLimit, size);
      assert all[..|all|] == all;
      FittingLongest(all, byteLimit, size, |all|);
      if !AnyLongText(all) {
        forall i, k | 0 <= i < |all| && 0 <= k < |all[i]| && all[i][k].Text?
          ensures SafeRows(all)[i][k] == all[i][k]
        {
          assert !LongText(all[i]);
        }
      }
    }
  }

  /** Only texts are reported: an untruncated read returns exactly the snapshot if and only if no value of
      another kind has a text longer than 2000 characters. */
  lemma UntruncatedExact(all: seq<Row>, rowLimit: nat, byteLimit: nat, size: Row -> nat)
    requires !Bounded(all, rowLimit, byteLimit, size).truncated
    ensures Bounded(all, rowLimit, byteLimit, size).rows == all
            <==> forall i, k | 0 <= i < |all| && 0 <= k < |all[i]| && all[i][k].Opaque? :: |all[i][k].text| <= MAX_TEXT
  {
    UntruncatedComplete(all, rowLimit, byteLimit, size);
    var r := Bounded(all, rowLimit, byteLimit, size).rows;
    if forall i, k | 0 <= i < |all| && 0 <= k < |all[i]| && all[i][k].Opaque? :: |all[i][k].text| <= MAX_TEXT {
      forall i | 0 <= i < |all|
        ensures r[i] == all[i]
      {
        assert forall k | 0 <= k < |all[i]| :: r[i][k] == SafeValue(all[i][k]) == all[i][k];
      }
    } else {
      var i, k :| 0 <= i < |all| && 0 <= k < |all[i]| && all[i][k].Opaque? && |all[i][k].text| > MAX_TEXT;
      assert r[i][k] == SafeValue(all[i][k]);
      assert |r[i][k].text| == MAX_TEXT;
    }
  }

  /** A silently shortened value: one row, one array whose text has 2001 characters, and no mark. */
  lemma ShortenedUnmarked()
    ensures exists row: Row ::
              Bounded([row], 10, 100, r => 50) == Fetched([[Opaque(seq(2000, i => 'a'))]], false)
              && row == [Opaque(seq(2001, i => 'a'))]
  {
    var row := [Opaque(seq(2001, i => 'a'))];
    var size: Row -> nat := r => 50;
    assert [row][..1] == [row];
    assert Cut(row[0].text) == seq(2000, i => 'a');
    assert SafeRow(row) == [Opaque(seq(2000, i => 'a'))];
    assert SafeRows([row]) == [[Opaque(seq(2000, i => 'a'))]];
    assert Fitting([row], 100, size) == 1;
    assert !LongText(row);
  }

  lemma AnyLongAppended(rows: seq<Row>, row: Row)
    ensures AnyLongText(rows + [row]) <==> AnyLongText(rows) || LongText(row)
  {
    assert forall i | 0 <= i < |rows| :: (rows + [row])[i] == rows[i];
    assert (rows + [row])[|rows|] == row;
  }

  /** The loop over the fetched rows: sanitized rows are added while they fit. */
  method Collect(records: seq<Row>, more: bool, byteLimit: nat, size: Row -> nat)
    returns (rows: seq<Row>, truncated: bool)
    ensures var n := Fitting(records, byteLimit, size);
            rows == SafeRows(records[..n]) && (truncated <==> more || n < |records| || AnyLongText(records[..n]))
  {
    hide AnyLongText, LongText, SafeRow;
    rows, truncated := [], more;
    var i := 0;
    NoneLong();
    while i < |records|
      invariant 0 <= i <= |records|
      invariant rows == SafeRows(records[..i]) && Fitting(records[..i], byteLimit, size) == i
      invariant truncated <==> more || AnyLongText(records[..i])
    {
      assert records[..i + 1] == records[..i] + [records[i]];
      AnyLongAppended(records[..i], records[i]);
      if LongText(records[i]) {
        truncated := true;
      }
      var candidate := rows + [SafeRow(records[i])];
      assert candidate == SafeRows(records[..i + 1]);
      if ListBytes(candidate, size) > byteLimit {
        FittingStays(records, byteLimit, size, i);
        truncated := true;
        return;
      }
      rows := candidate;
      i := i + 1;
    }
    assert records[..i] == records;
  }

  lemma NoneLong()
    ensures !AnyLongText([])
  {
  }

  /** `fetch_bounded`: a conflicting snapshot is retried twice; the first good one is cut and sanitized. */
  method FetchBounded(attempts: nat -> Attempt, maxRows: Option<nat>, configured: nat, scope: nat,
                      byteLimit: nat, size: Row -> nat)
    returns (outcome: Outcome, transactions: nat)
    ensures 1 <= transactions <= 3
    ensures forall i: nat | i + 1 < transactions :: attempts(i).Conflict?
    ensures match attempts(transactions - 1)
            case Snapshot(all) => outcome == Bounded(all, RowLimit(maxRows, configured, scope), byteLimit, size)
            case Broken => outcome.Failed?
            case Conflict => outcome.Failed? && transactions == 3
  {
    hide AnyLongText, Fitting, SafeRows;
    var limit := RowLimit(maxRows, configured, scope);
    var attempt: nat := 0;
    while attempt < 2 && attempts(attempt).Conflict?
      invariant 0 <= attempt <= 2
      invariant forall i: nat | i < attempt :: attempts(i).Conflict?
    {
      attempt := attempt + 1;
    }
    transactions := attempt + 1;
    if !attempts(attempt).Snapshot? {
      return Failed, transactions;
    }
    var all := attempts(attempt).rows;
    var fetched := if |all| <= limit + 1 then all else all[..limit + 1];
    var records := if |fetched| <= limit then fetched else fetched[..limit];
    assert records == if |all| <= limit then all else all[..limit];
    var rows, truncated := Collect(records, |fetched| > limit, byteLimit, size);
    outcome := Fetched(rows, truncated);
  }

  /** Once a row does not fit, no later one is added. */
  lemma {:induction false} FittingStays(rows: seq<Row>, limit: nat, size: Row -> nat, k: nat)
    requires k < |rows| && Fitting(rows[..k], limit, size) == k
    requires ListBytes(SafeRows(rows[..k + 1]), size) > limit
    ensures Fitting(rows, limit, size) == k
  {
    var last := |rows| - 1;
    if k < last {
      assert rows[..last][..k] == rows[..k] && rows[..last][..k + 1] == rows[..k + 1];
      FittingStays(rows[..last], limit, size, k);
    } else {
      assert rows[..k + 1] == rows;
    }
  }
}
