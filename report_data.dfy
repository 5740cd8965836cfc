/** The period statistics behind the quarterly reports: totals, category,
    circuit and monthly breakdowns, a comparison with the previous quarter,
    and the advanced figures (averages, median, largest items, busiest and
    quietest month, operating ratio, surplus or deficit). */
module ReportData {
  import opened Types
  import opened Seqs
  import opened Sorting
  import opened Grouping
  import opened Constants
  import opened TransactionStore
  import opened CircuitStore
  import opened Helpers

  // ---- median ----

  function Ident(x: int): int { x }
  function One(x: int): int { 1 }

  function Below(v: int): int -> bool {
    (x: int) => x < v
  }

  function AtMost(v: int): int -> bool {
    (x: int) => x <= v
  }

  /** How many elements satisfy p. */
  function Count(s: seq<int>, p: int -> bool): int {
    SumBy(s, Restrict(p, One))
  }

  /** median: 0 for no values, else the middle of the sorted values, or the
      mean of the two middle ones when their number is even. */
  function Median(values: seq<int>): (r: real)
    ensures |values| == 0 ==> r == 0.0
  {
    if |values| == 0 then 0.0
    else
      var sorted := SortBy(values, Ident);
      var mid := |sorted| / 2;
      if |sorted| % 2 == 1 then sorted[mid] as real
      else (sorted[mid - 1] + sorted[mid]) as real / 2.0
  }

  lemma {:induction false} CountBounds(s: seq<int>, p: int -> bool)
    ensures 0 <= Count(s, p) <= |s|
    ensures (forall i :: 0 <= i < |s| ==> p(s[i])) ==> Count(s, p) == |s|
    ensures (forall i :: 0 <= i < |s| ==> !p(s[i])) ==> Count(s, p) == 0
  {
    if s != [] {
      CountBounds(s[1..], p);
    }
  }

  lemma CountSplit(s: seq<int>, k: nat, p: int -> bool)
    requires k <= |s|
    ensures Count(s, p) == Count(s[..k], p) + Count(s[k..], p)
  {
    assert s == s[..k] + s[k..];
    SumByConcat(s[..k], s[k..], Restrict(p, One));
  }

  /** In a sorted sequence at most k elements lie below s[k], and at least k + 1
      are not above it. */
  lemma SortedRank(s: seq<int>, k: nat)
    requires SortedBy(s, Ident) && k < |s|
    ensures Count(s, Below(s[k])) <= k
    ensures Count(s, AtMost(s[k])) >= k + 1
  {
    assert Count(s, Below(s[k])) <= k by {
      CountSplit(s, k, Below(s[k]));
      CountBounds(s[..k], Below(s[k]));
      assert forall i :: 0 <= i < |s[k..]| ==> s[k..][i] == s[k + i];
      CountBounds(s[k..], Below(s[k]));
    }
    assert Count(s, AtMost(s[k])) >= k + 1 by {
      CountSplit(s, k + 1, AtMost(s[k]));
      assert forall i :: 0 <= i < |s[..k + 1]| ==> s[..k + 1][i] == s[i];
      CountBounds(s[..k + 1], AtMost(s[k]));
      CountBounds(s[k + 1..], AtMost(s[k]));
    }
  }

  /** v can stand at index k of the sorted values: it is one of them, at most k
      of them lie below it and at least k + 1 are not above it. */
  predicate RankAt(values: seq<int>, v: int, k: int) {
    v in values && Count(values, Below(v)) <= k && Count(values, AtMost(v)) >= k + 1
  }

  lemma RankOfSorted(values: seq<int>, k: nat)
    requires k < |values|
    ensures RankAt(values, SortBy(values, Ident)[k], k)
  {
    var sorted := SortBy(values, Ident);
    var v := sorted[k];
    SortedRank(sorted, k);
    SumByPermutation(sorted, values, Restrict(Below(v), One));
    SumByPermutation(sorted, values, Restrict(AtMost(v), One));
    assert v in multiset(values);
  }

  /** For an odd number n of values the median is a value that can stand in the
      middle, at index n / 2. */
  lemma MedianOddRank(values: seq<int>)
    requires |values| % 2 == 1
    ensures exists v :: RankAt(values, v, |values| / 2) && Median(values) == v as real
  {
    RankOfSorted(values, |values| / 2);
  }

  /** a <= b can stand at the two middle indices n / 2 - 1 and n / 2 of an even
      number n of values. */
  predicate MiddlePair(values: seq<int>, a: int, b: int) {
    a <= b && RankAt(values, a, |values| / 2 - 1) && RankAt(values, b, |values| / 2)
  }

  /** For an even, non-zero number n of values the median is the mean of two
      values a <= b that can stand at indices n / 2 - 1 and n / 2. */
  lemma MedianEvenRank(values: seq<int>)
    requires |values| > 0 && |values| % 2 == 0
    ensures exists a, b :: MiddlePair(values, a, b) && Median(values) == (a + b) as real / 2.0
  {
    var sorted := SortBy(values, Ident);
    var mid := |values| / 2;
    RankOfSorted(values, mid - 1);
    RankOfSorted(values, mid);
    assert sorted[mid - 1] <= sorted[mid] by {
      assert Ident(sorted[mid - 1]) <= Ident(sorted[mid]);
    }
    assert MiddlePair(values, sorted[mid - 1], sorted[mid]);
    assert Median(values) == (sorted[mid - 1] + sorted[mid]) as real / 2.0;
  }

  // ---- previous quarter ----

  datatype Period = Period(quarter: Quarter, year: int)

  /** getPreviousQuarter: the quarter just before; Q1 wraps to Q4 of the year before. */
  function PreviousQuarter(q: Quarter, y: int): (r: Period)
    ensures 4 * r.year + r.quarter == 4 * y + q - 1
  {
    if q == 1 then Period(4, y - 1) else Period(q - 1, y)
  }

  /** Going back one quarter at a time visits every earlier quarter exactly once. */
  lemma PreviousQuarterIsInjective(p: Period, p': Period)
    requires PreviousQuarter(p.quarter, p.year) == PreviousQuarter(p'.quarter, p'.year)
    ensures p == p'
  {
  }

  // ---- ratios ----

  /** a / b when b > 0, else 0: the averages and the operating ratio. */
  function Quotient(num: int, den: int): (r: real)
    ensures den <= 0 ==> r == 0.0
    ensures den > 0 ==> r * den as real == num as real
  {
    if den > 0 then num as real / den as real else 0.0
  }

  /** The share of a category, in percent of the total; 0 when the total is not positive. */
  function Percentage(amount: int, total: int): (r: real)
    ensures total <= 0 ==> r == 0.0
    ensures total > 0 ==> r * total as real == 100.0 * amount as real
  {
    Quotient(amount, total) * 100.0
  }

  /** growth: the change against the previous value in percent, or null when
      the previous value is not positive. */
  function Growth(current: int, prev: int): (r: Option<real>)
    ensures r.Some? <==> prev > 0
    ensures r.Some? ==> r.value * prev as real == 100.0 * (current - prev) as real
    ensures r.Some? ==> (r.value >= 0.0 <==> current >= prev)
  {
    if prev > 0 then Some((current - prev) as real / prev as real * 100.0) else None
  }

  datatype Standing = Surplus | Deficit | Balanced

  function StandingOf(net: int): (r: Standing)
    ensures r == Surplus <==> net > 0
    ensures r == Deficit <==> net < 0
    ensures r == Balanced <==> net == 0
  {
    if net > 0 then Surplus else if net < 0 then Deficit else Balanced
  }

  /** fmtPct: 'N/A' for null, otherwise the figure with one decimal (given by
      `fixed`, standing for toFixed(1)), a leading '+' when not negative, and '%'. */
  function FmtPct(val: Option<real>, fixed: real -> string): (r: string)
    ensures val.None? <==> r == "N/A"
    ensures val.Some? ==> |r| > 0 && r[|r| - 1] == '%'
    ensures val.Some? && val.value >= 0.0 ==> r[0] == '+' && r[1..|r| - 1] == fixed(val.value)
    ensures val.Some? && val.value < 0.0 ==> r[..|r| - 1] == fixed(val.value)
  {
    match val
    case None => "N/A"
    case Some(v) =>
      var r := (if v >= 0.0 then "+" else "") + fixed(v) + "%";
      assert r[|r| - 1] == '%' && "N/A"[2] == 'A';
      r
  }

  // ---- category breakdown ----

  datatype CategoryBreakdown = CategoryBreakdown(
    category: string,
    text: string,
    amount: int,
    count: int,
    percentage: real)

  function CategoryOf(t: Transaction): string { t.category }
  function NoAmount(t: Transaction): int { 0 }
  function CategoryAmount(c: CategoryBreakdown): int { c.amount }
  function CategoryCount(c: CategoryBreakdown): int { c.count }
  function CategoryName(c: CategoryBreakdown): string { c.category }

  /** The comparator (a, b) => b.amount - a.amount as an ascending key. */
  function ByAmountDesc(c: CategoryBreakdown): int { -c.amount }

  function ToCategoryBreakdown(total: int): Entry -> CategoryBreakdown {
    (e: Entry) => CategoryBreakdown(e.key, CategoryDisplayLabel(e.key), e.a, e.count, Percentage(e.a, total))
  }

  /** The rows in the Map's order, before sorting. */
  function CategoryRows(txns: seq<Transaction>, total: int): seq<CategoryBreakdown> {
    Map(Group(txns, CategoryOf, AmountOf, NoAmount), ToCategoryBreakdown(total))
  }

  /** buildCategoryBreakdown: the rows, largest amount first. */
  function CategoryBreakdownOf(txns: seq<Transaction>, total: int): seq<CategoryBreakdown> {
    SortBy(CategoryRows(txns, total), ByAmountDesc)
  }

  method BuildCategoryBreakdown(txns: seq<Transaction>, total: int) returns (r: seq<CategoryBreakdown>)
    ensures r == CategoryBreakdownOf(txns, total)
  {
    var m := GroupLoop(txns, Always(), CategoryOf, AmountOf, NoAmount);
    FilterAlways(txns);
    r := SortBy(Map(m, ToCategoryBreakdown(total)), ByAmountDesc);
  }

  /** The rows are sorted by amount, largest first. */
  lemma CategoryBreakdownSorted(txns: seq<Transaction>, total: int)
    ensures var r := CategoryBreakdownOf(txns, total);
      forall i, j :: 0 <= i < j < |r| ==> r[i].amount >= r[j].amount
  {
    var r := CategoryBreakdownOf(txns, total);
    forall i, j | 0 <= i < j < |r| ensures r[i].amount >= r[j].amount {
      assert ByAmountDesc(r[i]) <= ByAmountDesc(r[j]);
    }
  }

  lemma CategoryRowKeys(txns: seq<Transaction>, total: int)
    ensures Map(CategoryRows(txns, total), CategoryName) == Keys(Group(txns, CategoryOf, AmountOf, NoAmount))
  {
  }

  /** Rows of equal amount keep the order in which their categories first
      appear among the transactions. */
  lemma CategoryTiesInEncounterOrder(txns: seq<Transaction>, total: int, k: int)
    ensures WithKey(CategoryBreakdownOf(txns, total), ByAmountDesc, k) == WithKey(CategoryRows(txns, total), ByAmountDesc, k)
    ensures Map(CategoryRows(txns, total), CategoryName) == Dedup(Map(txns, CategoryOf))
  {
    SortStable(CategoryRows(txns, total), ByAmountDesc, k);
    CategoryRowKeys(txns, total);
    GroupKeysInEncounterOrder(txns, CategoryOf, AmountOf, NoAmount);
  }

  /** One row per distinct category: no category twice, and a category has a row
      exactly when some transaction has it. */
  lemma CategoryOneRowEach(txns: seq<Transaction>, total: int)
    ensures var r := CategoryBreakdownOf(txns, total);
      (forall i, j :: 0 <= i < j < |r| ==> r[i].category != r[j].category)
      && (forall k :: k in Map(r, CategoryName) <==> k in Map(txns, CategoryOf))
  {
    var u := CategoryRows(txns, total);
    var r := CategoryBreakdownOf(txns, total);
    UnsortedCategoryRowsDistinct(txns, total);
    UnsortedCategoryRowsCover(txns, total);
    assert multiset(u) == multiset(r);
    PermutationKeepsDistinctKeys(u, r, CategoryName);
    PermutationKeepsKeys(u, r, CategoryName);
  }

  lemma UnsortedCategoryRowsDistinct(txns: seq<Transaction>, total: int)
    ensures var u := CategoryRows(txns, total);
      forall i, j :: 0 <= i < j < |u| ==> CategoryName(u[i]) != CategoryName(u[j])
  {
    var u := CategoryRows(txns, total);
    var names := Map(u, CategoryName);
    GroupOneEntryPerKey(txns, CategoryOf, AmountOf, NoAmount);
    CategoryRowKeys(txns, total);
    assert Distinct(names);
    forall i, j | 0 <= i < j < |u| ensures CategoryName(u[i]) != CategoryName(u[j]) {
      assert names[i] == CategoryName(u[i]) && names[j] == CategoryName(u[j]);
    }
  }

  lemma UnsortedCategoryRowsCover(txns: seq<Transaction>, total: int)
    ensures forall k :: k in Map(CategoryRows(txns, total), CategoryName) <==> k in Map(txns, CategoryOf)
  {
    GroupOneEntryPerKey(txns, CategoryOf, AmountOf, NoAmount);
    CategoryRowKeys(txns, total);
  }

  /** The amounts add up to the sum over the transactions and the counts to
      their number. */
  lemma CategoryTotals(txns: seq<Transaction>, total: int)
    ensures SumBy(CategoryBreakdownOf(txns, total), CategoryAmount) == SumBy(txns, AmountOf)
    ensures SumBy(CategoryBreakdownOf(txns, total), CategoryCount) == |txns|
  {
    var m := Group(txns, CategoryOf, AmountOf, NoAmount);
    SortSumBy(CategoryRows(txns, total), ByAmountDesc, CategoryAmount);
    SortSumBy(CategoryRows(txns, total), ByAmountDesc, CategoryCount);
    MapSumBy(m, ToCategoryBreakdown(total), CategoryAmount, EntryA);
    MapSumBy(m, ToCategoryBreakdown(total), CategoryCount, EntryCount);
    GroupTotals(txns, CategoryOf, AmountOf, NoAmount);
  }

  /** A row's figures: the sum and the number of its category's transactions,
      its display label, and its share of the total (0 when the total is not
      positive, by Percentage's contract). */
  predicate CategoryRowFits(txns: seq<Transaction>, total: int, c: CategoryBreakdown) {
    var own := Filter(txns, HasKey(CategoryOf, c.category));
    c.amount == SumBy(own, AmountOf) && c.count == |own|
    && c.text == CategoryDisplayLabel(c.category)
    && c.percentage == Percentage(c.amount, total)
  }

  lemma CategoryRowFitsAt(txns: seq<Transaction>, total: int, i: nat)
    requires i < |CategoryRows(txns, total)|
    ensures CategoryRowFits(txns, total, CategoryRows(txns, total)[i])
  {
    var m := Group(txns, CategoryOf, AmountOf, NoAmount);
    var e := m[i];
    GroupEntryIsFilteredSum(txns, CategoryOf, AmountOf, NoAmount, i);
    var c := CategoryRows(txns, total)[i];
    assert c == ToCategoryBreakdown(total)(e);
    assert c.category == e.key && c.amount == e.a && c.count == e.count;
    var own := Filter(txns, HasKey(CategoryOf, c.category));
    assert c.amount == SumBy(own, AmountOf) && c.count == |own|;
    assert c.text == CategoryDisplayLabel(c.category);
  }

  lemma CategoryRowsFit(txns: seq<Transaction>, total: int)
    ensures var r := CategoryBreakdownOf(txns, total);
      forall i :: 0 <= i < |r| ==> CategoryRowFits(txns, total, r[i])
  {
    var u := CategoryRows(txns, total);
    var fits := (c: CategoryBreakdown) => CategoryRowFits(txns, total, c);
    forall i | 0 <= i < |u| ensures fits(u[i]) {
      CategoryRowFitsAt(txns, total, i);
    }
    PermutationKeeps(u, CategoryBreakdownOf(txns, total), fits);
  }

  // ---- circuit breakdown ----

  datatype CircuitBreakdown = CircuitBreakdown(
    name: string,
    receipts: int,
    payments: int,
    net: int,
    txnCount: int)

  /** `if (!t.circuitId) return;`: no circuit id, or an empty one, is skipped. */
  predicate HasCircuit(t: Transaction) {
    t.circuitId.Some? && t.circuitId.value != ""
  }

  function CircuitKey(t: Transaction): string { t.circuitId.GetOr("") }
  function ReceiptPart(t: Transaction): int { if t.txnType == Receipt then t.amount else 0 }
  function PaymentPart(t: Transaction): int { if t.txnType == Receipt then 0 else t.amount }
  function CircuitReceipts(c: CircuitBreakdown): int { c.receipts }
  function CircuitPayments(c: CircuitBreakdown): int { c.payments }
  function CircuitCount(c: CircuitBreakdown): int { c.txnCount }

  /** The comparator (a, b) => b.receipts - a.receipts as an ascending key. */
  function ByReceiptsDesc(c: CircuitBreakdown): int { -c.receipts }

  /** circuits.find(...)?.name || 'Unknown' */
  function CircuitName(circuits: seq<Circuit>, id: string): (r: string)
    ensures (forall i :: 0 <= i < |circuits| ==> circuits[i].uid != id) ==> r == "Unknown"
    ensures forall i :: 0 <= i < |circuits| && circuits[i].uid == id
                        && (forall j :: 0 <= j < i ==> circuits[j].uid != id)
                        ==> r == (if circuits[i].name != "" then circuits[i].name else "Unknown")
  {
    match GetCircuitByUid(circuits, id)
    case Some(c) => if c.name != "" then c.name else "Unknown"
    case None => "Unknown"
  }

  function ToCircuitBreakdown(circuits: seq<Circuit>): Entry -> CircuitBreakdown {
    (e: Entry) => CircuitBreakdown(CircuitName(circuits, e.key), e.a, e.b, e.a - e.b, e.count)
  }

  function CircuitRows(filtered: seq<Transaction>, circuits: seq<Circuit>): seq<CircuitBreakdown> {
    Map(Group(Filter(filtered, HasCircuit), CircuitKey, ReceiptPart, PaymentPart), ToCircuitBreakdown(circuits))
  }

  /** The circuit rows, most receipts first. */
  function CircuitBreakdownOf(filtered: seq<Transaction>, circuits: seq<Circuit>): seq<CircuitBreakdown> {
    SortBy(CircuitRows(filtered, circuits), ByReceiptsDesc)
  }

  method BuildCircuitBreakdown(filtered: seq<Transaction>, circuits: seq<Circuit>) returns (r: seq<CircuitBreakdown>)
    ensures r == CircuitBreakdownOf(filtered, circuits)
  {
    var m := GroupLoop(filtered, HasCircuit, CircuitKey, ReceiptPart, PaymentPart);
    r := SortBy(Map(m, ToCircuitBreakdown(circuits)), ByReceiptsDesc);
  }

  lemma CircuitBreakdownSorted(filtered: seq<Transaction>, circuits: seq<Circuit>)
    ensures var r := CircuitBreakdownOf(filtered, circuits);
      forall i, j :: 0 <= i < j < |r| ==> r[i].receipts >= r[j].receipts
  {
    var r := CircuitBreakdownOf(filtered, circuits);
    forall i, j | 0 <= i < j < |r| ensures r[i].receipts >= r[j].receipts {
      assert ByReceiptsDesc(r[i]) <= ByReceiptsDesc(r[j]);
    }
  }

  /** Transactions without a circuit make no difference to the breakdown. */
  lemma CircuitBreakdownSkipsUnassigned(filtered: seq<Transaction>, circuits: seq<Circuit>)
    ensures CircuitBreakdownOf(filtered, circuits) == CircuitBreakdownOf(Filter(filtered, HasCircuit), circuits)
  {
    FilterIdempotent(filtered, HasCircuit);
  }

  lemma ReceiptPartSum(s: seq<Transaction>)
    ensures SumBy(s, ReceiptPart) == SumBy(Filter(s, IsOfType(Receipt)), AmountOf)
    ensures SumBy(s, PaymentPart) == SumBy(Filter(s, IsOfType(Payment)), AmountOf)
  {
    FilterSum(s, IsOfType(Receipt), AmountOf);
    SumByPointwise(s, ReceiptPart, Restrict(IsOfType(Receipt), AmountOf));
    FilterSum(s, IsOfType(Payment), AmountOf);
    SumByPointwise(s, PaymentPart, Restrict(IsOfType(Payment), AmountOf));
  }

  /** The receipts and payments of the rows add up to those of the transactions
      that have a circuit, and the counts to their number. */
  lemma CircuitTotals(filtered: seq<Transaction>, circuits: seq<Circuit>)
    ensures var withCircuit := Filter(filtered, HasCircuit);
      var r := CircuitBreakdownOf(filtered, circuits);
      SumBy(r, CircuitReceipts) == SumBy(Filter(withCircuit, IsOfType(Receipt)), AmountOf)
      && SumBy(r, CircuitPayments) == SumBy(Filter(withCircuit, IsOfType(Payment)), AmountOf)
      && SumBy(r, CircuitCount) == |withCircuit|
  {
    var withCircuit := Filter(filtered, HasCircuit);
    var m := Group(withCircuit, CircuitKey, ReceiptPart, PaymentPart);
    var u := CircuitRows(filtered, circuits);
    SortSumBy(u, ByReceiptsDesc, CircuitReceipts);
    SortSumBy(u, ByReceiptsDesc, CircuitPayments);
    SortSumBy(u, ByReceiptsDesc, CircuitCount);
    MapSumBy(m, ToCircuitBreakdown(circuits), CircuitReceipts, EntryA);
    MapSumBy(m, ToCircuitBreakdown(circuits), CircuitPayments, EntryB);
    MapSumBy(m, ToCircuitBreakdown(circuits), CircuitCount, EntryCount);
    GroupTotals(withCircuit, CircuitKey, ReceiptPart, PaymentPart);
    ReceiptPartSum(withCircuit);
  }

  /** A row's figures are those of circuit id k: named after k, the receipts
      and payments of the transactions carrying k, their number, and
      net = receipts - payments; at least one transaction carries k. */
  predicate CircuitRowOf(filtered: seq<Transaction>, circuits: seq<Circuit>, k: string, c: CircuitBreakdown) {
    var own := Filter(Filter(filtered, HasCircuit), HasKey(CircuitKey, k));
    own != []
    && c.name == CircuitName(circuits, k)
    && c.receipts == SumBy(Filter(own, IsOfType(Receipt)), AmountOf)
    && c.payments == SumBy(Filter(own, IsOfType(Payment)), AmountOf)
    && c.txnCount == |own|
    && c.net == c.receipts - c.payments
  }

  /** A row is the row of some circuit id. */
  ghost predicate CircuitRowFits(filtered: seq<Transaction>, circuits: seq<Circuit>, c: CircuitBreakdown) {
    exists k :: CircuitRowOf(filtered, circuits, k, c)
  }

  lemma CircuitRowFitsAt(filtered: seq<Transaction>, circuits: seq<Circuit>, i: nat)
    requires i < |CircuitRows(filtered, circuits)|
    ensures CircuitRowOf(filtered, circuits, Group(Filter(filtered, HasCircuit), CircuitKey, ReceiptPart, PaymentPart)[i].key,
                         CircuitRows(filtered, circuits)[i])
  {
    var withCircuit := Filter(filtered, HasCircuit);
    var m := Group(withCircuit, CircuitKey, ReceiptPart, PaymentPart);
    var k := m[i].key;
    var own := Filter(withCircuit, HasKey(CircuitKey, k));
    GroupEntryIsFilteredSum(withCircuit, CircuitKey, ReceiptPart, PaymentPart, i);
    ReceiptPartSum(own);
    GroupKeyWitness(withCircuit, CircuitKey, ReceiptPart, PaymentPart, i);
    var a :| 0 <= a < |withCircuit| && CircuitKey(withCircuit[a]) == k;
    FilterMembers(withCircuit, HasKey(CircuitKey, k));
    assert withCircuit[a] in own;
    var c := CircuitRows(filtered, circuits)[i];
    assert c == ToCircuitBreakdown(circuits)(m[i]);
  }

  lemma CircuitRowsFit(filtered: seq<Transaction>, circuits: seq<Circuit>)
    ensures var r := CircuitBreakdownOf(filtered, circuits);
      forall i :: 0 <= i < |r| ==> CircuitRowFits(filtered, circuits, r[i])
  {
    var u := CircuitRows(filtered, circuits);
    var fits := (c: CircuitBreakdown) => CircuitRowFits(filtered, circuits, c);
    forall i | 0 <= i < |u| ensures fits(u[i]) {
      CircuitRowFitsAt(filtered, circuits, i);
      var m := Group(Filter(filtered, HasCircuit), CircuitKey, ReceiptPart, PaymentPart);
      assert CircuitRowOf(filtered, circuits, m[i].key, u[i]);
    }
    PermutationKeeps(u, CircuitBreakdownOf(filtered, circuits), fits);
  }

  // ---- monthly breakdown ----

  const MONTH_NAMES: seq<string> := [
    "January", "February", "March", "April", "May", "June",
    "July", "August", "September", "October", "November", "December"]

  /** The month names listed for quarter q are months 3(q-1) .. 3(q-1)+2 of the year. */
  lemma QuarterMonthsAreItsMonths(q: Quarter)
    ensures QuarterMonths(q) == Some(MONTH_NAMES[3 * (q - 1) .. 3 * q])
  {
    var names := MONTH_NAMES[3 * (q - 1) .. 3 * q];
    assert |names| == 3;
    assert names == [MONTH_NAMES[3 * (q - 1)], MONTH_NAMES[3 * (q - 1) + 1], MONTH_NAMES[3 * (q - 1) + 2]];
  }

  datatype MonthlyBreakdown = MonthlyBreakdown(
    month: string,
    monthIndex: int,
    receipts: int,
    payments: int,
    net: int,
    txnCount: int)

  function InMonth(m: int): Transaction -> bool {
    (t: Transaction) => t.date.month == m
  }

  /** The amounts of the transactions of type ty dated in month m. */
  function MonthTypeSum(filtered: seq<Transaction>, m: int, ty: TxnType): int {
    SumBy(Filter(Filter(filtered, InMonth(m)), IsOfType(ty)), AmountOf)
  }

  /** One month of the quarter: offset 0, 1 or 2 after the quarter's first month. */
  function MonthRow(filtered: seq<Transaction>, q: Quarter, offset: nat): (r: MonthlyBreakdown)
    requires offset < 3
    ensures r.monthIndex == 3 * (q - 1) + offset && r.month == MONTH_NAMES[r.monthIndex]
    ensures r.receipts == MonthTypeSum(filtered, r.monthIndex, Receipt)
    ensures r.payments == MonthTypeSum(filtered, r.monthIndex, Payment)
    ensures r.net == r.receipts - r.payments
    ensures r.txnCount == |Filter(filtered, InMonth(r.monthIndex))|
  {
    var idx := 3 * (q - 1) + offset;
    var mReceipts := MonthTypeSum(filtered, idx, Receipt);
    var mPayments := MonthTypeSum(filtered, idx, Payment);
    MonthlyBreakdown(MONTH_NAMES[idx], idx, mReceipts, mPayments, mReceipts - mPayments, |Filter(filtered, InMonth(idx))|)
  }

  function MonthlyBreakdownOf(filtered: seq<Transaction>, q: Quarter): (r: seq<MonthlyBreakdown>)
    ensures |r| == 3
    ensures forall o :: 0 <= o < 3 ==> r[o] == MonthRow(filtered, q, o)
  {
    seq(3, o requires 0 <= o < 3 => MonthRow(filtered, q, o))
  }

  function InQuarterMonths(q: Quarter): Transaction -> bool {
    (t: Transaction) => 3 * (q - 1) <= t.date.month < 3 * q
  }

  lemma {:induction false} ThreeMonthsCount(s: seq<Transaction>, q: Quarter)
    ensures |Filter(s, InMonth(3 * (q - 1)))| + |Filter(s, InMonth(3 * (q - 1) + 1))| + |Filter(s, InMonth(3 * (q - 1) + 2))|
         == |Filter(s, InQuarterMonths(q))|
  {
    if s != [] {
      ThreeMonthsCount(s[1..], q);
    }
  }

  lemma {:induction false} ThreeMonthsSum(s: seq<Transaction>, q: Quarter, f: Transaction -> int)
    ensures SumBy(Filter(s, InMonth(3 * (q - 1))), f) + SumBy(Filter(s, InMonth(3 * (q - 1) + 1)), f)
            + SumBy(Filter(s, InMonth(3 * (q - 1) + 2)), f)
         == SumBy(Filter(s, InQuarterMonths(q)), f)
  {
    if s != [] {
      ThreeMonthsSum(s[1..], q, f);
      FilterSumHead(s, InMonth(3 * (q - 1)), f);
      FilterSumHead(s, InMonth(3 * (q - 1) + 1), f);
      FilterSumHead(s, InMonth(3 * (q - 1) + 2), f);
      FilterSumHead(s, InQuarterMonths(q), f);
    }
  }

  /** For one type, the three months' sums add up to that type's amounts
      dated in the quarter's months. */
  lemma MonthTypeSumsCoverQuarter(filtered: seq<Transaction>, q: Quarter, ty: TxnType)
    ensures MonthTypeSum(filtered, 3 * (q - 1), ty) + MonthTypeSum(filtered, 3 * (q - 1) + 1, ty)
            + MonthTypeSum(filtered, 3 * (q - 1) + 2, ty)
         == SumBy(Filter(Filter(filtered, InQuarterMonths(q)), IsOfType(ty)), AmountOf)
  {
    var f := Restrict(IsOfType(ty), AmountOf);
    FilterSum(Filter(filtered, InMonth(3 * (q - 1))), IsOfType(ty), AmountOf);
    FilterSum(Filter(filtered, InMonth(3 * (q - 1) + 1)), IsOfType(ty), AmountOf);
    FilterSum(Filter(filtered, InMonth(3 * (q - 1) + 2)), IsOfType(ty), AmountOf);
    ThreeMonthsSum(filtered, q, f);
    FilterSum(Filter(filtered, InQuarterMonths(q)), IsOfType(ty), AmountOf);
  }

  /** The three months' receipts and payments add up to the receipts and
      payments dated in the quarter's months. */
  lemma MonthSumsCoverQuarter(filtered: seq<Transaction>, q: Quarter)
    ensures MonthRow(filtered, q, 0).receipts + MonthRow(filtered, q, 1).receipts + MonthRow(filtered, q, 2).receipts
         == SumBy(Filter(Filter(filtered, InQuarterMonths(q)), IsOfType(Receipt)), AmountOf)
    ensures MonthRow(filtered, q, 0).payments + MonthRow(filtered, q, 1).payments + MonthRow(filtered, q, 2).payments
         == SumBy(Filter(Filter(filtered, InQuarterMonths(q)), IsOfType(Payment)), AmountOf)
  {
    MonthTypeSumsCoverQuarter(filtered, q, Receipt);
    MonthTypeSumsCoverQuarter(filtered, q, Payment);
  }

  /** When every transaction is dated in quarter q, the months' receipts and
      payments are the period's totals. */
  lemma MonthSumsCoverPeriod(filtered: seq<Transaction>, q: Quarter)
    requires forall i :: 0 <= i < |filtered| ==> GetQuarterFromDate(filtered[i].date) == q
    ensures MonthRow(filtered, q, 0).receipts + MonthRow(filtered, q, 1).receipts + MonthRow(filtered, q, 2).receipts
         == SumBy(Filter(filtered, IsOfType(Receipt)), AmountOf)
    ensures MonthRow(filtered, q, 0).payments + MonthRow(filtered, q, 1).payments + MonthRow(filtered, q, 2).payments
         == SumBy(Filter(filtered, IsOfType(Payment)), AmountOf)
  {
    PeriodInQuarterMonths(filtered, q);
    MonthSumsCoverQuarter(filtered, q);
  }

  lemma PeriodInQuarterMonths(filtered: seq<Transaction>, q: Quarter)
    requires forall i :: 0 <= i < |filtered| ==> GetQuarterFromDate(filtered[i].date) == q
    ensures Filter(filtered, InQuarterMonths(q)) == filtered
  {
    FilterKeepsAll(filtered, InQuarterMonths(q));
  }

  /** The three months' counts add up to the transactions dated in the quarter's months. */
  lemma MonthCountsCoverQuarter(filtered: seq<Transaction>, q: Quarter)
    ensures var r := MonthlyBreakdownOf(filtered, q);
      r[0].txnCount + r[1].txnCount + r[2].txnCount == |Filter(filtered, InQuarterMonths(q))|
  {
    ThreeMonthsCount(filtered, q);
  }

  /** When every transaction is dated in quarter q, the months count them all. */
  lemma MonthCountsCoverPeriod(filtered: seq<Transaction>, q: Quarter)
    requires forall i :: 0 <= i < |filtered| ==> GetQuarterFromDate(filtered[i].date) == q
    ensures var r := MonthlyBreakdownOf(filtered, q);
      r[0].txnCount + r[1].txnCount + r[2].txnCount == |filtered|
  {
    MonthCountsCoverQuarter(filtered, q);
    FilterKeepsAll(filtered, InQuarterMonths(q));
  }

  // ---- advanced figures ----

  function TxnCountOf(m: MonthlyBreakdown): int { m.txnCount }

  /** The comparator of the quietest month, m.txnCount < min.txnCount, as a
      larger-is-kept key. */
  function FewerTxns(m: MonthlyBreakdown): int { -m.txnCount }

  /** The largest transaction: null for none, else the first of maximal amount. */
  function Largest(s: seq<Transaction>): (r: Option<Transaction>)
    ensures r.None? <==> s == []
  {
    if s == [] then None else Some(ReduceMax(s, AmountOf, s[0]))
  }

  lemma LargestIsFirstMaximal(s: seq<Transaction>)
    requires s != []
    ensures exists i :: IsFirstMaximal(s, AmountOf, i) && Largest(s) == Some(s[i])
  {
    ReduceMaxIsFirstMaximal(s, AmountOf);
  }

  /** slice(0, 5) */
  function TopFive<T>(s: seq<T>): (r: seq<T>)
    ensures |r| == if |s| < 5 then |s| else 5
    ensures r == s[..|r|]
  {
    if |s| < 5 then s else s[..5]
  }

  /** The comparator (a, b) => date(b) - date(a) as an ascending key: newest first. */
  function NewestFirst(t: Transaction): int { -DateKey(t.date) }

  datatype AdvancedStats = AdvancedStats(
    avgTransactionSize: real,
    avgReceiptSize: real,
    avgPaymentSize: real,
    medianTransaction: real,
    largestReceipt: Option<Transaction>,
    largestPayment: Option<Transaction>,
    receiptGrowthVsPrevQ: Option<real>,
    paymentGrowthVsPrevQ: Option<real>,
    balanceGrowthVsPrevQ: Option<real>,
    prevQReceipts: int,
    prevQPayments: int,
    prevQBalance: int,
    topReceiptCategories: seq<CategoryBreakdown>,
    topPaymentCategories: seq<CategoryBreakdown>,
    busyMonth: string,
    quietMonth: string,
    operatingRatio: real,
    surplusDeficit: Standing)

  datatype Report = Report(
    organization: string,
    currencySymbol: string,
    quarter: Quarter,
    year: int,
    quarterLabel: string,
    generatedAt: string,
    totalReceipts: int,
    totalPayments: int,
    netBalance: int,
    totalTransactions: int,
    receiptCount: int,
    paymentCount: int,
    receiptsByCategory: seq<CategoryBreakdown>,
    paymentsByCategory: seq<CategoryBreakdown>,
    circuitBreakdown: seq<CircuitBreakdown>,
    monthlyBreakdown: seq<MonthlyBreakdown>,
    advanced: AdvancedStats,
    allReceipts: seq<Transaction>,
    allPayments: seq<Transaction>)

  /** The previous quarter's transactions. */
  function PreviousPeriod(transactions: seq<Transaction>, q: Quarter, y: int): seq<Transaction> {
    var prev := PreviousQuarter(q, y);
    Filter(transactions, InPeriod(prev.quarter, prev.year))
  }

  function AdvancedOf(transactions: seq<Transaction>, filtered: seq<Transaction>, q: Quarter, y: int,
                      receiptsByCategory: seq<CategoryBreakdown>, paymentsByCategory: seq<CategoryBreakdown>,
                      monthly: seq<MonthlyBreakdown>): AdvancedStats
    requires |monthly| == 3
  {
    var receipts := Filter(filtered, IsOfType(Receipt));
    var payments := Filter(filtered, IsOfType(Payment));
    var totalReceipts := SumBy(receipts, AmountOf);
    var totalPayments := SumBy(payments, AmountOf);
    var netBalance := totalReceipts - totalPayments;
    var prevFiltered := PreviousPeriod(transactions, q, y);
    var prevReceipts := SumBy(Filter(prevFiltered, IsOfType(Receipt)), AmountOf);
    var prevPayments := SumBy(Filter(prevFiltered, IsOfType(Payment)), AmountOf);
    var prevBalance := prevReceipts - prevPayments;
    var hasPrevData := |prevFiltered| > 0;
    var allAmounts := Map(filtered, AmountOf);
    AdvancedStats(
      Quotient(SumBy(filtered, AmountOf), |allAmounts|),
      Quotient(totalReceipts, |receipts|),
      Quotient(totalPayments, |payments|),
      Median(allAmounts),
      Largest(receipts),
      Largest(payments),
      if hasPrevData then Growth(totalReceipts, prevReceipts) else None,
      if hasPrevData then Growth(totalPayments, prevPayments) else None,
      if hasPrevData && prevBalance != 0 then Growth(netBalance, prevBalance) else None,
      prevReceipts,
      prevPayments,
      prevBalance,
      TopFive(receiptsByCategory),
      TopFive(paymentsByCategory),
      ReduceMax(monthly, TxnCountOf, monthly[0]).month,
      ReduceMax(monthly, FewerTxns, monthly[0]).month,
      Quotient(totalPayments, totalReceipts),
      StandingOf(netBalance))
  }

  /** The report record assembled from the period's filtered lists and breakdowns. */
  function AssembleReport(transactions: seq<Transaction>, q: Quarter, y: int, generatedAt: string,
                          filtered: seq<Transaction>, receipts: seq<Transaction>, payments: seq<Transaction>,
                          receiptsByCategory: seq<CategoryBreakdown>, paymentsByCategory: seq<CategoryBreakdown>,
                          circuitBreakdown: seq<CircuitBreakdown>, monthly: seq<MonthlyBreakdown>): Report
    requires |monthly| == 3
  {
    var totalReceipts := SumBy(receipts, AmountOf);
    var totalPayments := SumBy(payments, AmountOf);
    Report(
      ORGANIZATION_NAME,
      CURRENCY_SYMBOL,
      q,
      y,
      QuarterLabel(q).value,
      generatedAt,
      totalReceipts,
      totalPayments,
      totalReceipts - totalPayments,
      |filtered|,
      |receipts|,
      |payments|,
      receiptsByCategory,
      paymentsByCategory,
      circuitBreakdown,
      monthly,
      AdvancedOf(transactions, filtered, q, y, receiptsByCategory, paymentsByCategory, monthly),
      SortBy(receipts, NewestFirst),
      SortBy(payments, NewestFirst))
  }

  /** buildReportData for quarter q of year y; the generation time is a parameter. */
  function ReportOf(transactions: seq<Transaction>, circuits: seq<Circuit>, q: Quarter, y: int, generatedAt: string): Report {
    var filtered := Filter(transactions, InPeriod(q, y));
    var receipts := Filter(filtered, IsOfType(Receipt));
    var payments := Filter(filtered, IsOfType(Payment));
    AssembleReport(transactions, q, y, generatedAt, filtered, receipts, payments,
      CategoryBreakdownOf(receipts, SumBy(receipts, AmountOf)),
      CategoryBreakdownOf(payments, SumBy(payments, AmountOf)),
      CircuitBreakdownOf(filtered, circuits),
      MonthlyBreakdownOf(filtered, q))
  }

  /** buildReportData: the two Map-filling loops run as loops; the rest is the
      filters and reductions of ReportOf. */
  method BuildReportData(transactions: seq<Transaction>, circuits: seq<Circuit>, q: Quarter, y: int, generatedAt: string)
    returns (r: Report)
    ensures r == ReportOf(transactions, circuits, q, y, generatedAt)
  {
    var filtered := Filter(transactions, InPeriod(q, y));
    var receipts := Filter(filtered, IsOfType(Receipt));
    var payments := Filter(filtered, IsOfType(Payment));
    var totalReceipts := SumBy(receipts, AmountOf);
    var totalPayments := SumBy(payments, AmountOf);
    var receiptsByCategory := BuildCategoryBreakdown(receipts, totalReceipts);
    var paymentsByCategory := BuildCategoryBreakdown(payments, totalPayments);
    var circuitBreakdown := BuildCircuitBreakdown(filtered, circuits);
    var monthly := MonthlyBreakdownOf(filtered, q);
    r := AssembleReport(transactions, q, y, generatedAt, filtered, receipts, payments,
      receiptsByCategory, paymentsByCategory, circuitBreakdown, monthly);
  }

  // ---- properties of the report ----

  /** The net balance is receipts minus payments, every transaction of the
      period is a receipt or a payment, and the totals agree with the
      transaction store's period totals. */
  lemma ReportTotals(transactions: seq<Transaction>, circuits: seq<Circuit>, q: Quarter, y: int, at: string)
    ensures var r := ReportOf(transactions, circuits, q, y, at);
      r.netBalance == r.totalReceipts - r.totalPayments
      && r.totalTransactions == r.receiptCount + r.paymentCount
    ensures y != 0 ==> var r := ReportOf(transactions, circuits, q, y, at);
      r.totalReceipts == GetTotalReceipts(transactions, Some(q), Some(y))
      && r.totalPayments == GetTotalPayments(transactions, Some(q), Some(y))
  {
    PeriodSplits(Filter(transactions, InPeriod(q, y)));
    if y != 0 {
      TotalWithPeriod(transactions, Receipt, q, y);
      TotalWithPeriod(transactions, Payment, q, y);
    }
  }

  /** The category rows add up to the totals and counts of their type. */
  lemma ReportCategoriesAddUp(transactions: seq<Transaction>, circuits: seq<Circuit>, q: Quarter, y: int, at: string)
    ensures var r := ReportOf(transactions, circuits, q, y, at);
      SumBy(r.receiptsByCategory, CategoryAmount) == r.totalReceipts
      && SumBy(r.receiptsByCategory, CategoryCount) == r.receiptCount
      && SumBy(r.paymentsByCategory, CategoryAmount) == r.totalPayments
      && SumBy(r.paymentsByCategory, CategoryCount) == r.paymentCount
  {
    var filtered := Filter(transactions, InPeriod(q, y));
    var receipts := Filter(filtered, IsOfType(Receipt));
    var payments := Filter(filtered, IsOfType(Payment));
    CategoryTotals(receipts, SumBy(receipts, AmountOf));
    CategoryTotals(payments, SumBy(payments, AmountOf));
  }

  /** The comparison figures are null exactly when the previous quarter has no
      transactions or its figure is not positive; prevBalance = 0 is thereby
      already covered by the positivity test. */
  lemma ReportGrowthIsNull(transactions: seq<Transaction>, circuits: seq<Circuit>, q: Quarter, y: int, at: string)
    ensures var r := ReportOf(transactions, circuits, q, y, at);
      var noPrev := |PreviousPeriod(transactions, q, y)| == 0;
      (r.advanced.receiptGrowthVsPrevQ.None? <==> noPrev || r.advanced.prevQReceipts <= 0)
      && (r.advanced.paymentGrowthVsPrevQ.None? <==> noPrev || r.advanced.prevQPayments <= 0)
      && (r.advanced.balanceGrowthVsPrevQ.None? <==> noPrev || r.advanced.prevQBalance <= 0)
      && r.advanced.prevQBalance == r.advanced.prevQReceipts - r.advanced.prevQPayments
  {
  }

  /** The largest receipt and payment are null exactly when there is none, and
      otherwise the first one of maximal amount. */
  lemma ReportLargest(transactions: seq<Transaction>, circuits: seq<Circuit>, q: Quarter, y: int, at: string)
    ensures var r := ReportOf(transactions, circuits, q, y, at);
      var receipts := Filter(Filter(transactions, InPeriod(q, y)), IsOfType(Receipt));
      (r.advanced.largestReceipt.None? <==> r.receiptCount == 0)
      && (receipts != [] ==> exists i :: IsFirstMaximal(receipts, AmountOf, i) && r.advanced.largestReceipt == Some(receipts[i]))
    ensures var r := ReportOf(transactions, circuits, q, y, at);
      var payments := Filter(Filter(transactions, InPeriod(q, y)), IsOfType(Payment));
      (r.advanced.largestPayment.None? <==> r.paymentCount == 0)
      && (payments != [] ==> exists i :: IsFirstMaximal(payments, AmountOf, i) && r.advanced.largestPayment == Some(payments[i]))
  {
    var filtered := Filter(transactions, InPeriod(q, y));
    var receipts := Filter(filtered, IsOfType(Receipt));
    var payments := Filter(filtered, IsOfType(Payment));
    if receipts != [] {
      LargestIsFirstMaximal(receipts);
    }
    if payments != [] {
      LargestIsFirstMaximal(payments);
    }
  }

  /** The busiest month is the first of the quarter's months with the most
      transactions, the quietest the first with the fewest. */
  lemma ReportBusyAndQuietMonth(transactions: seq<Transaction>, circuits: seq<Circuit>, q: Quarter, y: int, at: string)
    ensures var r := ReportOf(transactions, circuits, q, y, at);
      exists i :: IsFirstMaximal(r.monthlyBreakdown, TxnCountOf, i) && r.advanced.busyMonth == r.monthlyBreakdown[i].month
    ensures var r := ReportOf(transactions, circuits, q, y, at);
      exists i :: IsFirstMaximal(r.monthlyBreakdown, FewerTxns, i) && r.advanced.quietMonth == r.monthlyBreakdown[i].month
  {
    var r := ReportOf(transactions, circuits, q, y, at);
    var monthly := r.monthlyBreakdown;
    assert |monthly| == 3;
    assert r.advanced.busyMonth == ReduceMax(monthly, TxnCountOf, monthly[0]).month;
    assert r.advanced.quietMonth == ReduceMax(monthly, FewerTxns, monthly[0]).month;
    ReduceMaxIsFirstMaximal(monthly, TxnCountOf);
    ReduceMaxIsFirstMaximal(monthly, FewerTxns);
  }

  /** The operating ratio is payments over receipts, 0 without receipts, and
      the averages are the totals over the counts, 0 when there are none (the
      quotient's contract gives the products). */
  lemma ReportRatios(transactions: seq<Transaction>, circuits: seq<Circuit>, q: Quarter, y: int, at: string)
    ensures var r := ReportOf(transactions, circuits, q, y, at);
      r.advanced.operatingRatio == Quotient(r.totalPayments, r.totalReceipts)
      && r.advanced.avgReceiptSize == Quotient(r.totalReceipts, r.receiptCount)
      && r.advanced.avgPaymentSize == Quotient(r.totalPayments, r.paymentCount)
      && r.advanced.avgTransactionSize == Quotient(r.totalReceipts + r.totalPayments, r.totalTransactions)
    ensures var r := ReportOf(transactions, circuits, q, y, at);
      (r.totalReceipts <= 0 ==> r.advanced.operatingRatio == 0.0)
      && (r.totalTransactions == 0 ==> r.advanced.avgTransactionSize == 0.0)
  {
    var r := ReportOf(transactions, circuits, q, y, at);
    var filtered := Filter(transactions, InPeriod(q, y));
    PeriodSplits(filtered);
    var sum, n := SumBy(filtered, AmountOf), |Map(filtered, AmountOf)|;
    assert sum == r.totalReceipts + r.totalPayments && n == r.totalTransactions;
    assert r.advanced.avgTransactionSize == Quotient(sum, n);
    assert r.advanced.operatingRatio == Quotient(r.totalPayments, r.totalReceipts);
    assert r.advanced.avgReceiptSize == Quotient(r.totalReceipts, r.receiptCount);
    assert r.advanced.avgPaymentSize == Quotient(r.totalPayments, r.paymentCount);
  }

  /** Every transaction is a receipt or a payment. */
  lemma PeriodSplits(filtered: seq<Transaction>)
    ensures SumBy(filtered, AmountOf)
         == SumBy(Filter(filtered, IsOfType(Receipt)), AmountOf) + SumBy(Filter(filtered, IsOfType(Payment)), AmountOf)
    ensures |filtered| == |Filter(filtered, IsOfType(Receipt))| + |Filter(filtered, IsOfType(Payment))|
  {
    FilterPartitionSum(filtered, IsOfType(Receipt), IsOfType(Payment), AmountOf);
    FilterPartitionLength(filtered, IsOfType(Receipt), IsOfType(Payment));
  }

  /** The standing follows the sign of the net balance. */
  lemma ReportStanding(transactions: seq<Transaction>, circuits: seq<Circuit>, q: Quarter, y: int, at: string)
    ensures var r := ReportOf(transactions, circuits, q, y, at);
      (r.advanced.surplusDeficit == Surplus <==> r.netBalance > 0)
      && (r.advanced.surplusDeficit == Deficit <==> r.netBalance < 0)
      && (r.advanced.surplusDeficit == Balanced <==> r.netBalance == 0)
  {
    var r := ReportOf(transactions, circuits, q, y, at);
    assert r.advanced.surplusDeficit == StandingOf(r.netBalance);
  }

  /** The median of the period is that of its amounts. */
  lemma ReportMedian(transactions: seq<Transaction>, circuits: seq<Circuit>, q: Quarter, y: int, at: string)
    ensures var r := ReportOf(transactions, circuits, q, y, at);
      r.advanced.medianTransaction == Median(Map(Filter(transactions, InPeriod(q, y)), AmountOf))
      && (r.totalTransactions == 0 ==> r.advanced.medianTransaction == 0.0)
  {
  }

  /** The receipt and payment lists are the period's receipts and payments,
      newest first. */
  lemma ReportListsNewestFirst(transactions: seq<Transaction>, circuits: seq<Circuit>, q: Quarter, y: int, at: string)
    ensures var r := ReportOf(transactions, circuits, q, y, at);
      var filtered := Filter(transactions, InPeriod(q, y));
      multiset(r.allReceipts) == multiset(Filter(filtered, IsOfType(Receipt)))
      && multiset(r.allPayments) == multiset(Filter(filtered, IsOfType(Payment)))
      && (forall i, j :: 0 <= i < j < |r.allReceipts| ==> DateKey(r.allReceipts[i].date) >= DateKey(r.allReceipts[j].date))
      && (forall i, j :: 0 <= i < j < |r.allPayments| ==> DateKey(r.allPayments[i].date) >= DateKey(r.allPayments[j].date))
  {
    var r := ReportOf(transactions, circuits, q, y, at);
    forall i, j | 0 <= i < j < |r.allReceipts| ensures DateKey(r.allReceipts[i].date) >= DateKey(r.allReceipts[j].date) {
      assert NewestFirst(r.allReceipts[i]) <= NewestFirst(r.allReceipts[j]);
    }
    forall i, j | 0 <= i < j < |r.allPayments| ensures DateKey(r.allPayments[i].date) >= DateKey(r.allPayments[j].date) {
      assert NewestFirst(r.allPayments[i]) <= NewestFirst(r.allPayments[j]);
    }
  }

  /** The top categories are the first five rows, none smaller than any row left out. */
  lemma TopFiveAreLargest(txns: seq<Transaction>, total: int)
    ensures var r := CategoryBreakdownOf(txns, total);
      var top := TopFive(r);
      forall i, j :: 0 <= i < |top| <= j < |r| ==> top[i].amount >= r[j].amount
  {
    CategoryBreakdownSorted(txns, total);
  }
}
