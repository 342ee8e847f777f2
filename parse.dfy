/**
 * The statement reader (api/parse.py): the customer header taken from the
 * first page's text lines, the summary table (the first table of the first
 * page) and the transaction rows of every page's dominant table. The PDF
 * library is replaced by its results: the pages with their text and tables,
 * or the failure it raised when opening the file.
 */
module Parse {
  import opened Wrappers
  import opened Text

  /** A table cell; the PDF library gives None for an empty cell. */
  type Cell = Option<string>

  type Row = seq<Cell>

  type Table = seq<Row>

  /** One page as the PDF library extracts it: its text, its tables in order, and its dominant table if any. */
  datatype Page = Page(text: string, tables: seq<Table>, dominant: Option<Table>)

  /** Opening the document: its pages, or the library's decryption failure, or its malformed-file failure. */
  datatype PdfInput = Opened(pages: seq<Page>) | PasswordFailure | MalformedFile

  /** `Exception` raised by the reader itself, or an error of Python's that escapes it. */
  datatype ErrorKind = Raised | IndexError | TypeError

  datatype Error = Error(kind: ErrorKind, message: string)

  const WrongPassword := Error(Raised, "Wrong password or corrupted PDF file.")
  const Malformed := Error(Raised, "The PDF file is malformed or corrupted.")
  /** Indexing past the end of a list: no page, no table or a short row. */
  const OutOfRange := Error(IndexError, "list index out of range")
  /** Slicing a page whose dominant table is None. */
  const NotSubscriptable := Error(TypeError, "'NoneType' object is not subscriptable")

  // ---------------------------------------------------------------- Header

  const NamePrefix := "Customer Name:"
  const PhonePrefix := "Mobile Number:"
  const EmailPrefix := "Email Address:"
  const PeriodPrefix := "Statement Period:"
  const PeriodSeparator := " - "

  /**
   * `line.split(prefix)[1].strip()` for a line that starts with `prefix`:
   * the text after the prefix, up to any repetition of it, trimmed.
   */
  function FieldText(line: string, prefix: string): (r: string)
    requires |prefix| > 0 && StartsWith(line, prefix)
    ensures r == [] || (!IsSpace(r[0]) && !IsSpace(r[|r| - 1]))
    ensures !Contains(line[|prefix|..], prefix) ==> r == Trim(line[|prefix|..])
  {
    SplitAtStart(line, prefix);
    SplitSingle(line[|prefix|..], prefix);
    assert Split(line, prefix)[1] == Split(line[|prefix|..], prefix)[0];
    Trim(Split(line, prefix)[1])
  }

  /**
   * The begin and end dates of a period text, trimmed, when splitting it on
   * " - " gives exactly two parts: when the separator occurs once, counting
   * non-overlapping occurrences from the left.
   */
  function PeriodDates(period: string): (r: Option<(string, string)>)
    ensures r.Some? <==> Contains(period, PeriodSeparator) && !Contains(SplitOnce(period, PeriodSeparator)[1], PeriodSeparator)
    ensures r.Some? ==>
      var parts := SplitOnce(period, PeriodSeparator);
      period == parts[0] + PeriodSeparator + parts[1] && r.value == (Trim(parts[0]), Trim(parts[1]))
  {
    SplitPair(period, PeriodSeparator);
    var dates := Split(period, PeriodSeparator);
    if |dates| == 2 then Some((Trim(dates[0]), Trim(dates[1]))) else None
  }

  /** Dates that carry no surrounding whitespace of their own join back into the period text. */
  lemma PeriodRoundTrip(period: string)
    requires PeriodDates(period).Some?
    requires Unpadded(SplitOnce(period, PeriodSeparator)[0]) && Unpadded(SplitOnce(period, PeriodSeparator)[1])
    ensures PeriodDates(period).value.0 + PeriodSeparator + PeriodDates(period).value.1 == period
  {
  }

  /** A line that sets the statement period: the prefix, and dates that split in two. */
  predicate SetsPeriod(line: string) {
    StartsWith(line, PeriodPrefix) && PeriodDates(FieldText(line, PeriodPrefix)).Some?
  }

  /** The variable for `prefix` after the lines, each matching line overwriting it; "" when none matches. */
  function LatestField(lines: seq<string>, prefix: string): string
    requires |prefix| > 0
    decreases |lines|
  {
    if lines == [] then ""
    else
      var line := lines[|lines| - 1];
      if StartsWith(line, prefix) then FieldText(line, prefix) else LatestField(lines[..|lines| - 1], prefix)
  }

  /** The begin and end date variables after the lines; ("", "") when no line sets them. */
  function LatestPeriod(lines: seq<string>): (string, string)
    decreases |lines|
  {
    if lines == [] then ("", "")
    else
      var line := lines[|lines| - 1];
      if SetsPeriod(line) then PeriodDates(FieldText(line, PeriodPrefix)).value
      else LatestPeriod(lines[..|lines| - 1])
  }

  /** The five header variables. */
  datatype Header = Header(customerName: string, phoneNumber: string, email: string, beginDate: string, endDate: string)

  /** The header variables after reading `lines`. */
  function HeaderOf(lines: seq<string>): Header {
    var period := LatestPeriod(lines);
    Header(LatestField(lines, NamePrefix), LatestField(lines, PhonePrefix), LatestField(lines, EmailPrefix), period.0, period.1)
  }

  lemma LatestFieldStep(lines: seq<string>, i: nat, prefix: string)
    requires i < |lines| && |prefix| > 0
    ensures LatestField(lines[..i + 1], prefix) ==
      if StartsWith(lines[i], prefix) then FieldText(lines[i], prefix) else LatestField(lines[..i], prefix)
  {
    assert lines[..i + 1][..i] == lines[..i];
  }

  lemma LatestPeriodStep(lines: seq<string>, i: nat)
    requires i < |lines|
    ensures LatestPeriod(lines[..i + 1]) ==
      if SetsPeriod(lines[i]) then PeriodDates(FieldText(lines[i], PeriodPrefix)).value else LatestPeriod(lines[..i])
  {
    assert lines[..i + 1][..i] == lines[..i];
  }

  /** A field no line carries stays "". */
  lemma {:induction false} FieldDefault(lines: seq<string>, prefix: string)
    requires |prefix| > 0
    requires forall k :: 0 <= k < |lines| ==> !StartsWith(lines[k], prefix)
    ensures LatestField(lines, prefix) == ""
    decreases |lines|
  {
    if lines != [] {
      var prefixLines := lines[..|lines| - 1];
      assert forall k :: 0 <= k < |prefixLines| ==> prefixLines[k] == lines[k];
      FieldDefault(prefixLines, prefix);
    }
  }

  /** The last line carrying the prefix decides the field: a later matching line overwrites an earlier one. */
  lemma {:induction false} FieldLastWins(lines: seq<string>, prefix: string, k: nat)
    requires |prefix| > 0
    requires k < |lines| && StartsWith(lines[k], prefix)
    requires forall j :: k < j < |lines| ==> !StartsWith(lines[j], prefix)
    ensures LatestField(lines, prefix) == FieldText(lines[k], prefix)
    decreases |lines|
  {
    if k < |lines| - 1 {
      var prefixLines := lines[..|lines| - 1];
      assert forall j :: 0 <= j < |prefixLines| ==> prefixLines[j] == lines[j];
      FieldLastWins(prefixLines, prefix, k);
    }
  }

  /** Without a line that sets the period, both dates stay "", even when period lines fail to split in two. */
  lemma {:induction false} PeriodDefault(lines: seq<string>)
    requires forall k :: 0 <= k < |lines| ==> !SetsPeriod(lines[k])
    ensures LatestPeriod(lines) == ("", "")
    decreases |lines|
  {
    if lines != [] {
      var prefixLines := lines[..|lines| - 1];
      assert forall k :: 0 <= k < |prefixLines| ==> prefixLines[k] == lines[k];
      PeriodDefault(prefixLines);
    }
  }

  /** The last line that sets the period decides both dates; later period lines that do not split in two leave them. */
  lemma {:induction false} PeriodLastWins(lines: seq<string>, k: nat)
    requires k < |lines| && SetsPeriod(lines[k])
    requires forall j :: k < j < |lines| ==> !SetsPeriod(lines[j])
    ensures LatestPeriod(lines) == PeriodDates(FieldText(lines[k], PeriodPrefix)).value
    decreases |lines|
  {
    if k < |lines| - 1 {
      var prefixLines := lines[..|lines| - 1];
      assert forall j :: 0 <= j < |prefixLines| ==> prefixLines[j] == lines[j];
      PeriodLastWins(prefixLines, k);
    }
  }

  /** The header variables after one more line. */
  function ReadLine(h: Header, line: string): Header {
    Header(
      if StartsWith(line, NamePrefix) then FieldText(line, NamePrefix) else h.customerName,
      if StartsWith(line, PhonePrefix) then FieldText(line, PhonePrefix) else h.phoneNumber,
      if StartsWith(line, EmailPrefix) then FieldText(line, EmailPrefix) else h.email,
      if SetsPeriod(line) then PeriodDates(FieldText(line, PeriodPrefix)).value.0 else h.beginDate,
      if SetsPeriod(line) then PeriodDates(FieldText(line, PeriodPrefix)).value.1 else h.endDate)
  }

  lemma HeaderStep(lines: seq<string>, i: nat)
    requires i < |lines|
    ensures HeaderOf(lines[..i + 1]) == ReadLine(HeaderOf(lines[..i]), lines[i])
  {
    LatestFieldStep(lines, i, NamePrefix);
    LatestFieldStep(lines, i, PhonePrefix);
    LatestFieldStep(lines, i, EmailPrefix);
    LatestPeriodStep(lines, i);
  }

  /** The body of the header loop: four independent prefix tests. */
  method ReadHeaderLine(h: Header, line: string) returns (h': Header)
    ensures h' == ReadLine(h, line)
  {
    var customerName, phoneNumber, email, beginDate, endDate := h.customerName, h.phoneNumber, h.email, h.beginDate, h.endDate;
    if StartsWith(line, NamePrefix) {
      customerName := FieldText(line, NamePrefix);
    }
    if StartsWith(line, PhonePrefix) {
      phoneNumber := FieldText(line, PhonePrefix);
    }
    if StartsWith(line, EmailPrefix) {
      email := FieldText(line, EmailPrefix);
    }
    if StartsWith(line, PeriodPrefix) {
      var period := FieldText(line, PeriodPrefix);
      var dates := PeriodDates(period);
      if dates.Some? {
        beginDate, endDate := dates.value.0, dates.value.1;
      }
    }
    h' := Header(customerName, phoneNumber, email, beginDate, endDate);
  }

  /** The header loop over the first page's lines. */
  method ReadHeader(lines: seq<string>) returns (h: Header)
    ensures h == HeaderOf(lines)
  {
    h := Header("", "", "", "", "");
    var i := 0;
    while i < |lines|
      invariant 0 <= i <= |lines|
      invariant h == HeaderOf(lines[..i])
    {
      HeaderStep(lines, i);
      h := ReadHeaderLine(h, lines[i]);
      i := i + 1;
    }
    assert lines[..|lines|] == lines;
  }

  // --------------------------------------------------------------- Summary

  /** The paid-in and paid-out cells of one summary row. */
  datatype Category = Category(paidIn: Cell, paidOut: Cell)

  /** `summary_dict`, keyed by the first cell of each row. */
  type SummaryTable = map<Cell, Category>

  /** `table[1:]`: every row but the header; nothing for an empty table. */
  function DataRows(t: Table): (r: seq<Row>)
    ensures |r| == if t == [] then 0 else |t| - 1
    ensures forall k :: 0 <= k < |r| ==> r[k] == t[k + 1]
  {
    if t == [] then [] else t[1..]
  }

  /** The summary after the rows, or None when a row has fewer than three cells. */
  function SummaryOf(rows: seq<Row>): Option<SummaryTable>
    decreases |rows|
  {
    if rows == [] then Some(map[])
    else
      match SummaryOf(rows[..|rows| - 1])
      case None => None
      case Some(m) =>
        var row := rows[|rows| - 1];
        if |row| < 3 then None else Some(m[row[0] := Category(row[1], row[2])])
  }

  lemma SummaryStep(rows: seq<Row>, i: nat)
    requires i < |rows|
    ensures SummaryOf(rows[..i + 1]) ==
      match SummaryOf(rows[..i])
      case None => None
      case Some(m) => if |rows[i]| < 3 then None else Some(m[rows[i][0] := Category(rows[i][1], rows[i][2])])
  {
    assert rows[..i + 1][..i] == rows[..i];
  }

  /** The summary fails exactly when some row is shorter than three cells. */
  lemma {:induction false} SummaryFails(rows: seq<Row>)
    ensures SummaryOf(rows).None? <==> exists k :: 0 <= k < |rows| && |rows[k]| < 3
    decreases |rows|
  {
    if rows != [] {
      var prefix := rows[..|rows| - 1];
      SummaryFails(prefix);
      assert forall k :: 0 <= k < |prefix| ==> prefix[k] == rows[k];
    }
  }

  /** A key is present exactly when some row carries it. */
  lemma {:induction false} SummaryKeys(rows: seq<Row>, key: Cell)
    requires SummaryOf(rows).Some?
    ensures key in SummaryOf(rows).value <==> exists k :: 0 <= k < |rows| && |rows[k]| >= 3 && rows[k][0] == key
    decreases |rows|
  {
    if rows != [] {
      var prefix := rows[..|rows| - 1];
      SummaryKeys(prefix, key);
      assert forall k :: 0 <= k < |prefix| ==> prefix[k] == rows[k];
      SummaryFails(rows);
      SummaryFails(prefix);
    }
  }

  /** For a repeated first cell the last row wins. */
  lemma {:induction false} SummaryLastWins(rows: seq<Row>, k: nat)
    requires SummaryOf(rows).Some?
    requires k < |rows| && |rows[k]| >= 3
    requires forall j :: k < j < |rows| && |rows[j]| >= 3 ==> rows[j][0] != rows[k][0]
    ensures rows[k][0] in SummaryOf(rows).value
    ensures SummaryOf(rows).value[rows[k][0]] == Category(rows[k][1], rows[k][2])
    decreases |rows|
  {
    if k < |rows| - 1 {
      var prefix := rows[..|rows| - 1];
      assert forall j :: 0 <= j < |prefix| ==> prefix[j] == rows[j];
      FieldsOfPrefix(rows);
      SummaryLastWins(prefix, k);
    }
  }

  /** A summary that reads the rows also reads every prefix of them. */
  lemma FieldsOfPrefix(rows: seq<Row>)
    requires rows != [] && SummaryOf(rows).Some?
    ensures SummaryOf(rows[..|rows| - 1]).Some?
  {
  }

  /** The summary loop; a short row raises IndexError, modelled as None. */
  method ReadSummary(rows: seq<Row>) returns (r: Option<SummaryTable>)
    ensures r == SummaryOf(rows)
  {
    var summary: SummaryTable := map[];
    var i := 0;
    while i < |rows|
      invariant 0 <= i <= |rows|
      invariant SummaryOf(rows[..i]) == Some(summary)
    {
      SummaryStep(rows, i);
      var row := rows[i];
      if |row| < 3 {
        NoneStaysNone(rows, i + 1);
        return None;
      }
      summary := summary[row[0] := Category(row[1], row[2])];
      i := i + 1;
    }
    assert rows[..|rows|] == rows;
    r := Some(summary);
  }

  /** Once a prefix of the rows fails, all of them do. */
  lemma {:induction false} NoneStaysNone(rows: seq<Row>, i: nat)
    requires i <= |rows| && SummaryOf(rows[..i]).None?
    ensures SummaryOf(rows).None?
    decreases |rows| - i
  {
    if i < |rows| {
      SummaryStep(rows, i);
      NoneStaysNone(rows, i + 1);
    } else {
      assert rows[..i] == rows;
    }
  }

  // ---------------------------------------------------------- Transactions

  /** One transaction as the reader emits it; only the details are cleaned. */
  datatype Record = Record(
    receiptNumber: Cell,
    completionTime: Cell,
    details: string,
    transactionStatus: Cell,
    paidIn: Cell,
    withdrawn: Cell,
    balance: Cell)

  /** The details cell: None and "" give "", anything else is trimmed and every newline becomes a space. */
  function CleanDetails(c: Cell): (r: string)
    ensures '\n' !in r
    ensures r == [] || (!IsSpace(r[0]) && !IsSpace(r[|r| - 1]))
    ensures c.None? ==> r == ""
    ensures c.Some? ==> |r| == |Trim(c.value)|
    ensures c.Some? ==>
      forall k :: 0 <= k < |r| ==> r[k] == (if Trim(c.value)[k] == '\n' then ' ' else Trim(c.value)[k])
  {
    var details := if c.Some? && c.value != "" then Trim(c.value) else "";
    ReplaceChar(details, '\n', ' ')
  }

  function RecordOf(row: Row): Record
    requires |row| >= 7
  {
    Record(row[0], row[1], CleanDetails(row[2]), row[3], row[4], row[5], row[6])
  }

  /** Every row has the seven cells a record reads. */
  predicate AllComplete(rows: seq<Row>) {
    forall k :: 0 <= k < |rows| ==> |rows[k]| >= 7
  }

  /** The records of a page's data rows in order, or None when a row has fewer than seven cells. */
  function RecordsOf(rows: seq<Row>): (r: Option<seq<Record>>)
    ensures r.Some? <==> AllComplete(rows)
    ensures r.Some? ==> |r.value| == |rows| && forall k :: 0 <= k < |rows| ==> r.value[k] == RecordOf(rows[k])
  {
    if AllComplete(rows) then Some(seq(|rows|, k requires 0 <= k < |rows| => RecordOf(rows[k]))) else None
  }

  /** The transactions of the pages in page order, then row order, or the first error raised. */
  function TransactionsOf(pages: seq<Page>): Result<seq<Record>, Error>
    decreases |pages|
  {
    if pages == [] then Success([])
    else
      match TransactionsOf(pages[..|pages| - 1])
      case Failure(e) => Failure(e)
      case Success(ts) =>
        match pages[|pages| - 1].dominant
        case None => Failure(NotSubscriptable)
        case Some(t) =>
          match RecordsOf(DataRows(t))
          case None => Failure(OutOfRange)
          case Some(rs) => Success(ts + rs)
  }

  /** A page that can be read: it has a dominant table and every data row has seven cells. */
  predicate Readable(p: Page) {
    p.dominant.Some? && AllComplete(DataRows(p.dominant.value))
  }

  /** The number of data rows over all pages. */
  function TotalDataRows(pages: seq<Page>): nat
    requires forall k :: 0 <= k < |pages| ==> pages[k].dominant.Some?
    decreases |pages|
  {
    if pages == [] then 0
    else TotalDataRows(pages[..|pages| - 1]) + |DataRows(pages[|pages| - 1].dominant.value)|
  }

  /**
   * Reading succeeds exactly when every page is readable, and then yields one
   * transaction per data row: the sum over pages of the rows after each header.
   */
  lemma {:induction false} TransactionsCount(pages: seq<Page>)
    ensures TransactionsOf(pages).Success? <==> forall k :: 0 <= k < |pages| ==> Readable(pages[k])
    ensures TransactionsOf(pages).Success? ==> |TransactionsOf(pages).value| == TotalDataRows(pages)
    decreases |pages|
  {
    if pages != [] {
      var prefix := pages[..|pages| - 1];
      TransactionsCount(prefix);
      assert forall k :: 0 <= k < |prefix| ==> prefix[k] == pages[k];
    }
  }

  /** No emitted transaction has a newline in its details. */
  lemma {:induction false} TransactionsClean(pages: seq<Page>)
    requires TransactionsOf(pages).Success?
    ensures forall t :: t in TransactionsOf(pages).value ==> '\n' !in t.details
    decreases |pages|
  {
    if pages != [] {
      var prefix := pages[..|pages| - 1];
      TransactionsClean(prefix);
      var rs := RecordsOf(DataRows(pages[|pages| - 1].dominant.value)).value;
      forall t | t in rs ensures '\n' !in t.details {
        var k :| 0 <= k < |rs| && rs[k] == t;
      }
    }
  }

  lemma TransactionsStep(pages: seq<Page>, i: nat)
    requires i < |pages|
    ensures TransactionsOf(pages[..i + 1]) ==
      match TransactionsOf(pages[..i])
      case Failure(e) => Failure(e)
      case Success(ts) =>
        match pages[i].dominant
        case None => Failure(NotSubscriptable)
        case Some(t) =>
          match RecordsOf(DataRows(t))
          case None => Failure(OutOfRange)
          case Some(rs) => Success(ts + rs)
  {
    assert pages[..i + 1][..i] == pages[..i];
  }

  /** Once a prefix of the pages fails, all of them fail with the same error. */
  lemma {:induction false} FailureStays(pages: seq<Page>, i: nat)
    requires i <= |pages| && TransactionsOf(pages[..i]).Failure?
    ensures TransactionsOf(pages) == TransactionsOf(pages[..i])
    decreases |pages| - i
  {
    if i < |pages| {
      TransactionsStep(pages, i);
      FailureStays(pages, i + 1);
    } else {
      assert pages[..i] == pages;
    }
  }

  /** Reading one more complete row appends its record. */
  lemma RecordsAppend(rows: seq<Row>, j: nat)
    requires j < |rows| && AllComplete(rows[..j + 1])
    ensures AllComplete(rows[..j])
    ensures RecordsOf(rows[..j + 1]).value == RecordsOf(rows[..j]).value + [RecordOf(rows[j])]
  {
    assert forall k :: 0 <= k < j ==> rows[..j][k] == rows[..j + 1][k];
  }

  /** The body of the row loop: clean the details cell and copy the six others. */
  method ReadRow(row: Row) returns (rec: Record)
    requires |row| >= 7
    ensures rec == RecordOf(row)
  {
    var details := if row[2].Some? && row[2].value != "" then Trim(row[2].value) else "";
    details := ReplaceChar(details, '\n', ' ');
    rec := Record(row[0], row[1], details, row[3], row[4], row[5], row[6]);
  }

  /** The rows of one page, appended in order after the header is skipped. */
  method ReadRows(rows: seq<Row>, ts: seq<Record>) returns (r: Option<seq<Record>>)
    ensures r == match RecordsOf(rows) case None => None case Some(rs) => Some(ts + rs)
  {
    var acc := ts;
    var j := 0;
    while j < |rows|
      invariant 0 <= j <= |rows|
      invariant AllComplete(rows[..j])
      invariant acc == ts + RecordsOf(rows[..j]).value
    {
      var row := rows[j];
      if |row| < 7 {
        assert !AllComplete(rows);
        return None;
      }
      assert AllComplete(rows[..j + 1]) by {
        assert forall k :: 0 <= k < j ==> rows[..j + 1][k] == rows[..j][k];
      }
      RecordsAppend(rows, j);
      var rec := ReadRow(row);
      acc := acc + [rec];
      j := j + 1;
    }
    assert rows[..|rows|] == rows;
    r := Some(acc);
  }

  /** The loop over every page's dominant table. */
  method ReadTransactions(pages: seq<Page>) returns (r: Result<seq<Record>, Error>)
    ensures r == TransactionsOf(pages)
  {
    var transactions: seq<Record> := [];
    var i := 0;
    while i < |pages|
      invariant 0 <= i <= |pages|
      invariant TransactionsOf(pages[..i]) == Success(transactions)
    {
      TransactionsStep(pages, i);
      var table := pages[i].dominant;
      if table.None? {
        FailureStays(pages, i + 1);
        return Failure(NotSubscriptable);
      }
      var rows := ReadRows(DataRows(table.value), transactions);
      if rows.None? {
        FailureStays(pages, i + 1);
        return Failure(OutOfRange);
      }
      transactions := rows.value;
      i := i + 1;
    }
    assert pages[..|pages|] == pages;
    r := Success(transactions);
  }

  // ------------------------------------------------------------ The reader

  /** What `parse_statement` returns: the header, the summary and the transactions. */
  datatype Statement = Statement(header: Header, summary: SummaryTable, transactions: seq<Record>)

  /**
   * `parse_statement`: the failures of opening the file become the two
   * messages; a missing first page or summary table and short rows raise
   * IndexError, a page without a dominant table TypeError.
   */
  method ParseStatement(input: PdfInput) returns (r: Result<Statement, Error>)
    ensures input.PasswordFailure? ==> r == Failure(WrongPassword)
    ensures input.MalformedFile? ==> r == Failure(Malformed)
    ensures input.Opened? && (input.pages == [] || input.pages[0].tables == []) ==> r == Failure(OutOfRange)
    ensures input.Opened? && input.pages != [] && input.pages[0].tables != [] ==>
      var first := input.pages[0];
      match SummaryOf(DataRows(first.tables[0]))
      case None => r == Failure(OutOfRange)
      case Some(summary) =>
        match TransactionsOf(input.pages)
        case Failure(e) => r == Failure(e)
        case Success(ts) => r == Success(Statement(HeaderOf(Split(first.text, "\n")), summary, ts))
  {
    if input.PasswordFailure? {
      return Failure(WrongPassword);
    }
    if input.MalformedFile? {
      return Failure(Malformed);
    }
    var pages := input.pages;
    if |pages| == 0 {
      return Failure(OutOfRange);
    }
    var firstPage := pages[0];
    var header := ReadHeader(Split(firstPage.text, "\n"));
    if |firstPage.tables| == 0 {
      return Failure(OutOfRange);
    }
    var summary := ReadSummary(DataRows(firstPage.tables[0]));
    if summary.None? {
      return Failure(OutOfRange);
    }
    var transactions := ReadTransactions(pages);
    if transactions.Failure? {
      return Failure(transactions.error);
    }
    r := Success(Statement(header, summary.value, transactions.value));
  }
}
