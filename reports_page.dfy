/** The reports page: the period's totals, the per-category and per-circuit
    charts, the three monthly bars, the year selector and the CSV export. Its
    grouping repeats the report builder's; the lemmas here connect the two. */
module ReportsPage {
  import opened Types
  import opened Seqs
  import opened Strings
  import opened Sorting
  import opened Grouping
  import opened Constants
  import opened TransactionStore
  import opened ReportData

  // ---- totals ----

  datatype PeriodFigures = PeriodFigures(
    filtered: seq<Transaction>,
    receipts: seq<Transaction>,
    payments: seq<Transaction>,
    totalReceipts: int,
    totalPayments: int,
    balance: int)

  function PeriodFiguresOf(transactions: seq<Transaction>, q: Quarter, y: int): PeriodFigures {
    var filtered := Filter(transactions, InPeriod(q, y));
    var receipts := Filter(filtered, IsOfType(Receipt));
    var payments := Filter(filtered, IsOfType(Payment));
    var totalReceipts := SumBy(receipts, AmountOf);
    var totalPayments := SumBy(payments, AmountOf);
    PeriodFigures(filtered, receipts, payments, totalReceipts, totalPayments, totalReceipts - totalPayments)
  }

  /** The page's totals are the store's period totals and the balance is their
      difference, for any year but 0 (the store ignores a period with year 0). */
  lemma PageTotalsAgreeWithStore(transactions: seq<Transaction>, q: Quarter, y: int)
    requires y != 0
    ensures var f := PeriodFiguresOf(transactions, q, y);
      f.totalReceipts == GetTotalReceipts(transactions, Some(q), Some(y))
      && f.totalPayments == GetTotalPayments(transactions, Some(q), Some(y))
      && f.balance == GetBalance(transactions, Some(q), Some(y))
  {
    TotalWithPeriod(transactions, Receipt, q, y);
    TotalWithPeriod(transactions, Payment, q, y);
  }

  // ---- category charts ----

  /** A pie slice: the category's label and its amount. */
  datatype Slice = Slice(name: string, value: int)

  function SliceValue(b: Slice): int { b.value }

  /** The comparator (a, b) => b.value - a.value as an ascending key. */
  function ByValueDesc(b: Slice): int { -b.value }

  function ToSlice(e: Entry): Slice {
    Slice(CategoryDisplayLabel(e.key), e.a)
  }

  function CategorySlicesOf(txns: seq<Transaction>): seq<Slice> {
    SortBy(Map(Group(txns, CategoryOf, AmountOf, NoAmount), ToSlice), ByValueDesc)
  }

  /** receiptsByCategory / paymentsByCategory: the forEach into a Map, then map and sort. */
  method BuildCategorySlices(txns: seq<Transaction>) returns (r: seq<Slice>)
    ensures r == CategorySlicesOf(txns)
  {
    var m := GroupLoop(txns, Always(), CategoryOf, AmountOf, NoAmount);
    FilterAlways(txns);
    r := SortBy(Map(m, ToSlice), ByValueDesc);
  }

  function AsSlice(c: CategoryBreakdown): Slice {
    Slice(c.text, c.amount)
  }

  /** The page's slices are the report builder's category rows, label and
      amount only, in the same order. */
  lemma SlicesMatchReportRows(txns: seq<Transaction>, total: int)
    ensures CategorySlicesOf(txns) == Map(CategoryBreakdownOf(txns, total), AsSlice)
  {
    var m := Group(txns, CategoryOf, AmountOf, NoAmount);
    var rows := CategoryRows(txns, total);
    MapFuse(m, ToCategoryBreakdown(total), AsSlice, ToSlice);
    SortByMap(rows, AsSlice, ByAmountDesc, ByValueDesc);
  }

  /** One slice per distinct category, the values add up to the total, and the
      slices are sorted by value, largest first. */
  lemma SlicesAddUp(txns: seq<Transaction>)
    ensures var r := CategorySlicesOf(txns);
      |r| == |Dedup(Map(txns, CategoryOf))|
      && SumBy(r, SliceValue) == SumBy(txns, AmountOf)
      && forall i, j :: 0 <= i < j < |r| ==> r[i].value >= r[j].value
  {
    var m := Group(txns, CategoryOf, AmountOf, NoAmount);
    var u := Map(m, ToSlice);
    var r := CategorySlicesOf(txns);
    GroupKeysInEncounterOrder(txns, CategoryOf, AmountOf, NoAmount);
    assert |r| == |Keys(m)|;
    SortSumBy(u, ByValueDesc, SliceValue);
    MapSumBy(m, ToSlice, SliceValue, EntryA);
    GroupTotals(txns, CategoryOf, AmountOf, NoAmount);
    forall i, j | 0 <= i < j < |r| ensures r[i].value >= r[j].value {
      assert ByValueDesc(r[i]) <= ByValueDesc(r[j]);
    }
  }

  // ---- circuit chart ----

  datatype CircuitBar = CircuitBar(name: string, receipts: int, payments: int, net: int)

  function BarByReceiptsDesc(b: CircuitBar): int { -b.receipts }

  function ToCircuitBar(circuits: seq<Circuit>): Entry -> CircuitBar {
    (e: Entry) => CircuitBar(CircuitName(circuits, e.key), e.a, e.b, e.a - e.b)
  }

  function CircuitBarsOf(filtered: seq<Transaction>, circuits: seq<Circuit>): seq<CircuitBar> {
    SortBy(Map(Group(Filter(filtered, HasCircuit), CircuitKey, ReceiptPart, PaymentPart), ToCircuitBar(circuits)),
           BarByReceiptsDesc)
  }

  method BuildCircuitBars(filtered: seq<Transaction>, circuits: seq<Circuit>) returns (r: seq<CircuitBar>)
    ensures r == CircuitBarsOf(filtered, circuits)
  {
    var m := GroupLoop(filtered, HasCircuit, CircuitKey, ReceiptPart, PaymentPart);
    r := SortBy(Map(m, ToCircuitBar(circuits)), BarByReceiptsDesc);
  }

  function AsCircuitBar(c: CircuitBreakdown): CircuitBar {
    CircuitBar(c.name, c.receipts, c.payments, c.net)
  }

  /** The page's circuit bars are the report builder's circuit rows without the
      count, in the same order. */
  lemma CircuitBarsMatchReportRows(filtered: seq<Transaction>, circuits: seq<Circuit>)
    ensures CircuitBarsOf(filtered, circuits) == Map(CircuitBreakdownOf(filtered, circuits), AsCircuitBar)
  {
    var m := Group(Filter(filtered, HasCircuit), CircuitKey, ReceiptPart, PaymentPart);
    var rows := CircuitRows(filtered, circuits);
    assert rows == Map(m, ToCircuitBreakdown(circuits));
    forall i | 0 <= i < |m|
      ensures AsCircuitBar(ToCircuitBreakdown(circuits)(m[i])) == ToCircuitBar(circuits)(m[i])
    {
      assert ToCircuitBreakdown(circuits)(m[i]).name == CircuitName(circuits, m[i].key);
    }
    MapFuse(m, ToCircuitBreakdown(circuits), AsCircuitBar, ToCircuitBar(circuits));
    assert Map(rows, AsCircuitBar) == Map(m, ToCircuitBar(circuits));
    SortByMap(rows, AsCircuitBar, ByReceiptsDesc, BarByReceiptsDesc);
  }

  // ---- monthly bars ----

  const SHORT_MONTH_NAMES: seq<string> :=
    ["Jan", "Feb", "Mar", "Apr", "May", "Jun", "Jul", "Aug", "Sep", "Oct", "Nov", "Dec"]

  lemma ShortNamesArePrefixes()
    ensures |SHORT_MONTH_NAMES| == |MONTH_NAMES| == 12
    ensures forall i :: 0 <= i < 12 ==> |MONTH_NAMES[i]| >= 3 && SHORT_MONTH_NAMES[i] == MONTH_NAMES[i][..3]
  {
  }

  datatype MonthBar = MonthBar(month: string, receipts: int, payments: int)

  function MonthBarOf(filtered: seq<Transaction>, q: Quarter, offset: nat): MonthBar
    requires offset < 3
  {
    var idx := 3 * (q - 1) + offset;
    MonthBar(SHORT_MONTH_NAMES[idx], MonthTypeSum(filtered, idx, Receipt), MonthTypeSum(filtered, idx, Payment))
  }

  /** monthlyData: one bar for each month of the quarter. */
  function MonthlyDataOf(filtered: seq<Transaction>, q: Quarter): (r: seq<MonthBar>)
    ensures |r| == 3
    ensures forall o :: 0 <= o < 3 ==> r[o] == MonthBarOf(filtered, q, o)
  {
    seq(3, o requires 0 <= o < 3 => MonthBarOf(filtered, q, o))
  }

  /** A bar shows a month row's receipts and payments under the month's short name. */
  predicate BarMatches(bar: MonthBar, row: MonthlyBreakdown)
    requires 0 <= row.monthIndex < 12
  {
    bar.receipts == row.receipts && bar.payments == row.payments
    && bar.month == SHORT_MONTH_NAMES[row.monthIndex]
    && bar.receipts - bar.payments == row.net
  }

  lemma MonthBarMatchesRow(filtered: seq<Transaction>, q: Quarter, o: nat)
    requires o < 3
    ensures BarMatches(MonthBarOf(filtered, q, o), MonthRow(filtered, q, o))
  {
    var idx := 3 * (q - 1) + o;
    var row := MonthRow(filtered, q, o);
    assert row.monthIndex == idx;
    assert MonthBarOf(filtered, q, o)
        == MonthBar(SHORT_MONTH_NAMES[idx], MonthTypeSum(filtered, idx, Receipt), MonthTypeSum(filtered, idx, Payment));
  }

  /** The bars carry the report builder's monthly figures under the short month names. */
  lemma MonthBarsMatchReport(filtered: seq<Transaction>, q: Quarter)
    ensures var bars := MonthlyDataOf(filtered, q);
      var rows := MonthlyBreakdownOf(filtered, q);
      forall o :: 0 <= o < 3 ==> BarMatches(bars[o], rows[o])
  {
    forall o | 0 <= o < 3
      ensures BarMatches(MonthlyDataOf(filtered, q)[o], MonthlyBreakdownOf(filtered, q)[o])
    {
      MonthBarAt(filtered, q, o);
    }
  }

  lemma MonthBarAt(filtered: seq<Transaction>, q: Quarter, o: nat)
    requires o < 3
    ensures BarMatches(MonthlyDataOf(filtered, q)[o], MonthlyBreakdownOf(filtered, q)[o])
  {
    MonthBarMatchesRow(filtered, q, o);
  }

  // ---- year options ----

  function YearOf(t: Transaction): int { t.year }
  function Descending(y: int): int { -y }

  /** yearOptions: every transaction year and the current year, once each,
      newest first (their rendering as strings is not modelled). */
  function YearOptions(transactions: seq<Transaction>, currentYear: int): seq<int> {
    SortBy(Dedup(Map(transactions, YearOf) + [currentYear]), Descending)
  }

  lemma YearOptionsAreExact(transactions: seq<Transaction>, currentYear: int)
    ensures var r := YearOptions(transactions, currentYear);
      (forall i, j :: 0 <= i < j < |r| ==> r[i] > r[j])
      && (forall y :: y in r <==> y == currentYear || y in Map(transactions, YearOf))
  {
    var xs := Map(transactions, YearOf) + [currentYear];
    DistinctYearsDescending(xs);
    assert forall y :: y in xs <==> y == currentYear || y in Map(transactions, YearOf);
  }

  /** The distinct values of xs, sorted by descending order, are strictly
      descending and are exactly the values of xs. */
  lemma DistinctYearsDescending(xs: seq<int>)
    ensures var r := SortBy(Dedup(xs), Descending);
      (forall i, j :: 0 <= i < j < |r| ==> r[i] > r[j])
      && (forall y :: y in r <==> y in xs)
  {
    DedupDistinct(xs);
    DedupMembers(xs);
    DistinctSortedDescending(Dedup(xs));
    SortKeepsMembers(Dedup(xs), Descending);
  }

  /** Distinct years sorted by descending order are strictly descending. */
  lemma DistinctSortedDescending(years: seq<int>)
    requires Distinct(years)
    ensures var r := SortBy(years, Descending);
      forall i, j :: 0 <= i < j < |r| ==> r[i] > r[j]
  {
    var r := SortBy(years, Descending);
    PermutationKeepsDistinct(years, r);
    forall i, j | 0 <= i < j < |r| ensures r[i] > r[j] {
      assert Descending(r[i]) <= Descending(r[j]);
    }
  }

  // ---- CSV export ----

  /** `"${val}"`: the value between double quotes, with no escaping. */
  function CsvField(v: string): (r: string)
    ensures |r| == |v| + 2 && r[0] == '"' && r[|r| - 1] == '"' && r[1..|r| - 1] == v
  {
    "\"" + v + "\""
  }

  function CsvLine(fields: seq<string>): string {
    Join(Map(fields, CsvField), ",")
  }

  function Csv(rows: seq<seq<string>>): string {
    Join(Map(rows, CsvLine), "\n")
  }

  const CSV_HEADERS: seq<string> := ["Date", "Type", "Category", "Description", "Amount", "Circuit", "Notes"]

  function TypeText(ty: TxnType): string {
    match ty
    case Receipt => "receipt"
    case Payment => "payment"
  }

  /** circuits.find((c) => c.uid === t.circuitId)?.name || '' */
  function CsvCircuitName(circuits: seq<Circuit>, circuitId: Option<string>): (r: string)
    ensures circuitId.None? ==> r == ""
    ensures circuitId.Some? && (forall i :: 0 <= i < |circuits| ==> circuits[i].uid != circuitId.value) ==> r == ""
    ensures circuitId.Some? ==>
      forall i :: 0 <= i < |circuits| && circuits[i].uid == circuitId.value
                  && (forall j :: 0 <= j < i ==> circuits[j].uid != circuitId.value)
                  ==> r == circuits[i].name
  {
    match circuitId
    case None => ""
    case Some(id) =>
      match Find(circuits, (c: Circuit) => c.uid == id)
      case Some(c) => c.name
      case None => ""
  }

  /** One transaction's fields; the date text and the amount text (toFixed(2))
      are given by the caller. */
  function CsvRow(t: Transaction, circuits: seq<Circuit>, dateText: Date -> string, amountText: int -> string): (r: seq<string>)
    ensures |r| == |CSV_HEADERS|
  {
    [dateText(t.date), TypeText(t.txnType), CategoryDisplayLabel(t.category), t.description,
     amountText(t.amount), CsvCircuitName(circuits, t.circuitId), t.notes.GetOr("")]
  }

  /** The row's fields follow the header: date, type, category label,
      description, amount, circuit name, notes; a missing circuit or missing
      notes leaves an empty field. */
  lemma CsvRowColumns(t: Transaction, circuits: seq<Circuit>, dateText: Date -> string, amountText: int -> string)
    ensures var r := CsvRow(t, circuits, dateText, amountText);
      r[0] == dateText(t.date) && r[3] == t.description && r[4] == amountText(t.amount)
      && r[1] == (if t.txnType == Receipt then "receipt" else "payment")
      && r[2] == CategoryDisplayLabel(t.category)
      && r[5] == CsvCircuitName(circuits, t.circuitId)
      && (t.notes.Some? ==> r[6] == t.notes.value)
      && (t.notes.None? ==> r[6] == "")
      && (t.circuitId.None? ==> r[5] == "")
  {
    var shown := CategoryDisplayLabel(t.category);
    var name := CsvCircuitName(circuits, t.circuitId);
    var r := CsvRow(t, circuits, dateText, amountText);
    assert r == [dateText(t.date), TypeText(t.txnType), shown, t.description, amountText(t.amount), name, t.notes.GetOr("")];
  }

  function CsvRowFor(circuits: seq<Circuit>, dateText: Date -> string, amountText: int -> string): Transaction -> seq<string> {
    (t: Transaction) => CsvRow(t, circuits, dateText, amountText)
  }

  /** The export: the header line, then one line per transaction of the period. */
  function ExportCsv(filtered: seq<Transaction>, circuits: seq<Circuit>, dateText: Date -> string, amountText: int -> string): string {
    Csv(ExportRows(filtered, circuits, dateText, amountText))
  }

  function ExportRows(filtered: seq<Transaction>, circuits: seq<Circuit>, dateText: Date -> string, amountText: int -> string): seq<seq<string>> {
    [CSV_HEADERS] + Map(filtered, CsvRowFor(circuits, dateText, amountText))
  }

  lemma {:induction false} JoinAvoids(parts: seq<string>, sep: string, c: char)
    requires c !in sep
    requires forall i :: 0 <= i < |parts| ==> c !in parts[i]
    ensures c !in Join(parts, sep)
  {
    if |parts| > 1 {
      JoinAvoids(parts[1..], sep, c);
    }
  }

  /** When no field contains c, neither does the line (for c other than ','). */
  lemma CsvLineAvoids(fields: seq<string>, c: char)
    requires c != ',' && c != '"'
    requires forall i :: 0 <= i < |fields| ==> c !in fields[i]
    ensures c !in CsvLine(fields)
  {
    var quoted := Map(fields, CsvField);
    forall i | 0 <= i < |quoted| ensures c !in quoted[i] {
      assert quoted[i] == "\"" + fields[i] + "\"";
    }
    JoinAvoids(quoted, ",", c);
  }

  /** A line splits at ',' back into its quoted fields when no value contains a
      comma; a comma inside a value, which is not escaped, would add a field. */
  lemma CsvLineFields(fields: seq<string>)
    requires |fields| >= 1
    requires forall i :: 0 <= i < |fields| ==> ',' !in fields[i]
    ensures Split(CsvLine(fields), ',') == Map(fields, CsvField)
  {
    var quoted := Map(fields, CsvField);
    forall i | 0 <= i < |quoted| ensures ',' !in quoted[i] {
      assert quoted[i] == "\"" + fields[i] + "\"";
    }
    SplitJoin(quoted, ',');
  }

  predicate RowFreeOfBreaks(t: Transaction, circuits: seq<Circuit>, dateText: Date -> string, amountText: int -> string) {
    forall i :: 0 <= i < 7 ==> '\n' !in CsvRow(t, circuits, dateText, amountText)[i]
  }

  lemma HeaderLineFree()
    ensures '\n' !in CsvLine(CSV_HEADERS)
  {
    CsvLineAvoids(CSV_HEADERS, '\n');
  }

  lemma RowLineFree(t: Transaction, circuits: seq<Circuit>, dateText: Date -> string, amountText: int -> string)
    requires RowFreeOfBreaks(t, circuits, dateText, amountText)
    ensures '\n' !in CsvLine(CsvRowFor(circuits, dateText, amountText)(t))
  {
    CsvLineAvoids(CsvRow(t, circuits, dateText, amountText), '\n');
  }

  lemma ExportLinesFree(filtered: seq<Transaction>, circuits: seq<Circuit>, dateText: Date -> string, amountText: int -> string)
    requires forall k :: 0 <= k < |filtered| ==> RowFreeOfBreaks(filtered[k], circuits, dateText, amountText)
    ensures var lines := Map(ExportRows(filtered, circuits, dateText, amountText), CsvLine);
      forall k :: 0 <= k < |lines| ==> '\n' !in lines[k]
  {
    var f := CsvRowFor(circuits, dateText, amountText);
    var rows := ExportRows(filtered, circuits, dateText, amountText);
    var lines := Map(rows, CsvLine);
    forall k | 0 <= k < |lines| ensures '\n' !in lines[k] {
      if k == 0 {
        HeaderLineFree();
      } else {
        assert rows[k] == f(filtered[k - 1]);
        RowLineFree(filtered[k - 1], circuits, dateText, amountText);
      }
    }
  }

  /** When no value holds a line break, the export splits into the header line
      followed by one line per transaction, in order. */
  lemma ExportLines(filtered: seq<Transaction>, circuits: seq<Circuit>, dateText: Date -> string, amountText: int -> string)
    requires forall k :: 0 <= k < |filtered| ==> RowFreeOfBreaks(filtered[k], circuits, dateText, amountText)
    ensures var lines := Split(ExportCsv(filtered, circuits, dateText, amountText), '\n');
      |lines| == 1 + |filtered|
      && lines[0] == CsvLine(CSV_HEADERS)
      && forall k :: 0 <= k < |filtered| ==> lines[k + 1] == CsvLine(CsvRow(filtered[k], circuits, dateText, amountText))
  {
    var rows := ExportRows(filtered, circuits, dateText, amountText);
    var lines := Map(rows, CsvLine);
    ExportLinesFree(filtered, circuits, dateText, amountText);
    assert |lines| == |rows| >= 1;
    assert lines == Map(ExportRows(filtered, circuits, dateText, amountText), CsvLine);
    assert '\n' !in lines[0];
    assert forall k :: 0 <= k < |lines| ==> '\n' !in lines[k];
    SplitJoin(lines, '\n');
    assert Split(ExportCsv(filtered, circuits, dateText, amountText), '\n') == lines;
    assert lines[0] == CsvLine(CSV_HEADERS);
    forall k | 0 <= k < |filtered| ensures lines[k + 1] == CsvLine(CsvRow(filtered[k], circuits, dateText, amountText)) {
      assert rows[k + 1] == CsvRow(filtered[k], circuits, dateText, amountText);
    }
  }
}
