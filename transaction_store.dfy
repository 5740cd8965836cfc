/** The transaction store: add, update and delete by uid on the transactions
    table, and the filters and totals over the loaded transactions. */
module TransactionStore {
  import opened Types
  import opened Seqs
  import opened Database

  function AmountOf(t: Transaction): int {
    t.amount
  }

  function IsOfType(ty: TxnType): Transaction -> bool {
    (t: Transaction) => t.txnType == ty
  }

  function InPeriod(q: Quarter, y: int): Transaction -> bool {
    (t: Transaction) => t.quarter == q && t.year == y
  }

  function HasUid(uid: string): Transaction -> bool {
    (t: Transaction) => t.uid == uid
  }

  // ---- getters ----

  /** getByType: the transactions of one type, in order. */
  function GetByType(s: seq<Transaction>, ty: TxnType): (r: seq<Transaction>)
    ensures IsSubsequence(r, s)
    ensures forall i :: 0 <= i < |r| ==> r[i].txnType == ty
    ensures forall i :: 0 <= i < |s| && s[i].txnType == ty ==> s[i] in r
    ensures forall x :: multiset(r)[x] == if x.txnType == ty then multiset(s)[x] else 0
  {
    FilterIsSubsequence(s, IsOfType(ty));
    FilterMultiset(s, IsOfType(ty));
    FilterMembers(s, IsOfType(ty));
    Filter(s, IsOfType(ty))
  }

  /** getByQuarterYear: the transactions of one period, in order. */
  function GetByQuarterYear(s: seq<Transaction>, q: Quarter, y: int): (r: seq<Transaction>)
    ensures IsSubsequence(r, s)
    ensures forall i :: 0 <= i < |r| ==> r[i].quarter == q && r[i].year == y
    ensures forall i :: 0 <= i < |s| && s[i].quarter == q && s[i].year == y ==> s[i] in r
    ensures forall x :: multiset(r)[x] == if x.quarter == q && x.year == y then multiset(s)[x] else 0
  {
    FilterIsSubsequence(s, InPeriod(q, y));
    FilterMultiset(s, InPeriod(q, y));
    FilterMembers(s, InPeriod(q, y));
    Filter(s, InPeriod(q, y))
  }

  /** `if (quarter && year)`: a period is applied only when both are given and
      the year is not 0 (a quarter is never 0). */
  predicate HasPeriod(quarter: Option<Quarter>, year: Option<int>) {
    quarter.Some? && year.Some? && year.value != 0
  }

  /** The total of one type, over the whole table or over one period. */
  function TotalOfType(s: seq<Transaction>, ty: TxnType, quarter: Option<Quarter>, year: Option<int>): int {
    var byType := Filter(s, IsOfType(ty));
    if HasPeriod(quarter, year) then SumBy(Filter(byType, InPeriod(quarter.value, year.value)), AmountOf)
    else SumBy(byType, AmountOf)
  }

  function GetTotalReceipts(s: seq<Transaction>, quarter: Option<Quarter>, year: Option<int>): int {
    TotalOfType(s, Receipt, quarter, year)
  }

  function GetTotalPayments(s: seq<Transaction>, quarter: Option<Quarter>, year: Option<int>): int {
    TotalOfType(s, Payment, quarter, year)
  }

  function GetBalance(s: seq<Transaction>, quarter: Option<Quarter>, year: Option<int>): int {
    GetTotalReceipts(s, quarter, year) - GetTotalPayments(s, quarter, year)
  }

  /** Without a period a total sums every transaction of its type. */
  lemma TotalWithoutPeriod(s: seq<Transaction>, ty: TxnType, quarter: Option<Quarter>, year: Option<int>)
    requires !HasPeriod(quarter, year)
    ensures TotalOfType(s, ty, quarter, year)
         == SumBy(s, (t: Transaction) => if t.txnType == ty then t.amount else 0)
  {
    FilterSum(s, IsOfType(ty), AmountOf);
    SumByPointwise(s, Restrict(IsOfType(ty), AmountOf),
                      (t: Transaction) => if t.txnType == ty then t.amount else 0);
  }

  /** With a period a total sums exactly the transactions of that type in the period. */
  lemma TotalWithPeriod(s: seq<Transaction>, ty: TxnType, q: Quarter, y: int)
    requires y != 0
    ensures TotalOfType(s, ty, Some(q), Some(y)) == SumBy(GetByType(GetByQuarterYear(s, q, y), ty), AmountOf)
  {
    FilterCommutes(s, IsOfType(ty), InPeriod(q, y));
  }

  /** Receipts plus payments of a period sum every transaction of that period. */
  lemma TotalsCoverPeriod(s: seq<Transaction>, q: Quarter, y: int)
    requires y != 0
    ensures GetTotalReceipts(s, Some(q), Some(y)) + GetTotalPayments(s, Some(q), Some(y))
         == SumBy(GetByQuarterYear(s, q, y), AmountOf)
  {
    TotalWithPeriod(s, Receipt, q, y);
    TotalWithPeriod(s, Payment, q, y);
    var period := GetByQuarterYear(s, q, y);
    FilterPartitionSum(period, IsOfType(Receipt), IsOfType(Payment), AmountOf);
  }

  /** The balance over the whole table is receipts minus payments, which is the
      signed sum of all amounts. */
  lemma BalanceIsSignedSum(s: seq<Transaction>)
    ensures GetBalance(s, None, None)
         == SumBy(s, (t: Transaction) => if t.txnType == Receipt then t.amount else -t.amount)
  {
    BalanceSignedSumRec(s);
  }

  lemma {:induction false} BalanceSignedSumRec(s: seq<Transaction>)
    ensures SumBy(Filter(s, IsOfType(Receipt)), AmountOf) - SumBy(Filter(s, IsOfType(Payment)), AmountOf)
         == SumBy(s, (t: Transaction) => if t.txnType == Receipt then t.amount else -t.amount)
  {
    if s != [] {
      BalanceSignedSumRec(s[1..]);
      var hr := if s[0].txnType == Receipt then [s[0]] else [];
      var hp := if s[0].txnType == Payment then [s[0]] else [];
      SumByConcat(hr, Filter(s[1..], IsOfType(Receipt)), AmountOf);
      SumByConcat(hp, Filter(s[1..], IsOfType(Payment)), AmountOf);
    }
  }

  // ---- mutations ----

  /** { ...data, uid, createdAt, updatedAt }: the new record keeps every field of
      data except the three the store assigns. */
  function Stamped(data: Transaction, uid: string, stamp: string): (r: Transaction)
    ensures r.uid == uid && r.createdAt == stamp && r.updatedAt == stamp
    ensures r.(uid := data.uid, createdAt := data.createdAt, updatedAt := data.updatedAt) == data
  {
    data.(uid := uid, createdAt := stamp, updatedAt := stamp)
  }

  /** Partial<Transaction>: the fields a caller may change. A field that is
      None here is not touched; Some(None) in an optional field removes it. */
  datatype TxnPatch = TxnPatch(
    date: Option<Date>,
    txnType: Option<TxnType>,
    category: Option<string>,
    subcategory: Option<Option<string>>,
    description: Option<string>,
    amount: Option<int>,
    circuitId: Option<Option<string>>,
    quarter: Option<Quarter>,
    year: Option<int>,
    eventId: Option<Option<string>>,
    items: Option<Option<seq<TransactionItem>>>,
    notes: Option<Option<string>>)

  const EMPTY_PATCH: TxnPatch := TxnPatch(None, None, None, None, None, None, None, None, None, None, None, None)

  /** { ...existing, ...data, updatedAt }: given fields replace old ones, the
      rest are kept; uid and createdAt never change. */
  function Merge(t: Transaction, p: TxnPatch, stamp: string): (r: Transaction)
    ensures r.uid == t.uid && r.createdAt == t.createdAt && r.updatedAt == stamp
    ensures r.amount == p.amount.GetOr(t.amount) && r.category == p.category.GetOr(t.category)
    ensures r.date == p.date.GetOr(t.date) && r.txnType == p.txnType.GetOr(t.txnType)
    ensures r.description == p.description.GetOr(t.description) && r.circuitId == p.circuitId.GetOr(t.circuitId)
    ensures r.quarter == p.quarter.GetOr(t.quarter) && r.year == p.year.GetOr(t.year)
    ensures r.notes == p.notes.GetOr(t.notes) && r.items == p.items.GetOr(t.items)
    ensures r.subcategory == p.subcategory.GetOr(t.subcategory) && r.eventId == p.eventId.GetOr(t.eventId)
  {
    Transaction(
      t.uid, p.date.GetOr(t.date), p.txnType.GetOr(t.txnType), p.category.GetOr(t.category),
      p.subcategory.GetOr(t.subcategory), p.description.GetOr(t.description), p.amount.GetOr(t.amount),
      p.circuitId.GetOr(t.circuitId), p.quarter.GetOr(t.quarter), p.year.GetOr(t.year),
      p.eventId.GetOr(t.eventId), p.items.GetOr(t.items), p.notes.GetOr(t.notes),
      t.createdAt, stamp)
  }

  /** An empty patch only refreshes the update stamp. */
  lemma MergeEmpty(t: Transaction, stamp: string)
    ensures Merge(t, EMPTY_PATCH, stamp) == t.(updatedAt := stamp)
  {
  }

  /** The table after updateTransaction: the first record with the uid is merged,
      every other record is kept; an unknown uid changes nothing. */
  function UpdatedByUid(s: seq<Transaction>, uid: string, p: TxnPatch, stamp: string): (r: seq<Transaction>)
    ensures |r| == |s|
    ensures FirstIndex(s, HasUid(uid)).None? ==> r == s
    ensures FirstIndex(s, HasUid(uid)).Some? ==>
      var i := FirstIndex(s, HasUid(uid)).value;
      r[i] == Merge(s[i], p, stamp) && forall j :: 0 <= j < |s| && j != i ==> r[j] == s[j]
  {
    match FirstIndex(s, HasUid(uid))
    case None => s
    case Some(i) => s[i := Merge(s[i], p, stamp)]
  }

  /** The table after deleteTransaction: the first record with the uid is removed. */
  function DeletedByUid(s: seq<Transaction>, uid: string): (r: seq<Transaction>)
    ensures FirstIndex(s, HasUid(uid)).None? ==> r == s
    ensures FirstIndex(s, HasUid(uid)).Some? ==>
      var i := FirstIndex(s, HasUid(uid)).value;
      r == s[..i] + s[i + 1..]
  {
    match FirstIndex(s, HasUid(uid))
    case None => s
    case Some(i) => s[..i] + s[i + 1..]
  }

  /** Deleting a known uid removes exactly one record and keeps the others in order. */
  lemma DeleteRemovesOne(s: seq<Transaction>, uid: string)
    requires exists i :: 0 <= i < |s| && s[i].uid == uid
    ensures |DeletedByUid(s, uid)| == |s| - 1
    ensures IsSubsequence(DeletedByUid(s, uid), s)
    ensures multiset(DeletedByUid(s, uid)) + multiset{Find(s, HasUid(uid)).value} == multiset(s)
  {
    var i := FirstIndex(s, HasUid(uid)).value;
    assert s == s[..i] + [s[i]] + s[i + 1..];
    FilterIsSubsequence(s, (t: Transaction) => t != s[i] || t.uid != uid);
    DropOneIsSubsequence(s, i);
  }

  lemma {:induction false} DropOneIsSubsequence<T>(s: seq<T>, i: nat)
    requires i < |s|
    ensures IsSubsequence(s[..i] + s[i + 1..], s)
  {
    if i == 0 {
      assert s[..0] + s[1..] == s[1..];
      SubsequenceReflexive(s[1..]);
      SubsequenceOfTail(s[1..], s);
    } else {
      DropOneIsSubsequence(s[1..], i - 1);
      var r := s[..i] + s[i + 1..];
      assert r[0] == s[0];
      assert r[1..] == s[1..][..i - 1] + s[1..][i..];
    }
  }

  lemma {:induction false} SubsequenceReflexive<T>(s: seq<T>)
    ensures IsSubsequence(s, s)
  {
    if s != [] {
      SubsequenceReflexive(s[1..]);
    }
  }

  /** After an add with a fresh uid, looking the uid up finds the new record. */
  lemma AddedIsFound(s: seq<Transaction>, data: Transaction, uid: string, stamp: string)
    requires forall i :: 0 <= i < |s| ==> s[i].uid != uid
    ensures Find(s + [Stamped(data, uid, stamp)], HasUid(uid)) == Some(Stamped(data, uid, stamp))
  {
    var r := s + [Stamped(data, uid, stamp)];
    assert HasUid(uid)(r[|s|]);
  }

  /** addTransaction: appends one record carrying the given fields, a fresh uid
      and the timestamps. */
  method AddTransaction(db: Db, data: Transaction, uid: string, stamp: string)
    modifies db
    ensures db.Snapshot() == old(db.Snapshot()).(transactions := old(db.transactions) + [Stamped(data, uid, stamp)])
  {
    db.transactions := db.transactions + [Stamped(data, uid, stamp)];
  }

  /** updateTransaction: merges the patch into the first record with that uid. */
  method UpdateTransaction(db: Db, uid: string, p: TxnPatch, stamp: string)
    modifies db
    ensures db.Snapshot() == old(db.Snapshot()).(transactions := UpdatedByUid(old(db.transactions), uid, p, stamp))
  {
    var found := FirstIndex(db.transactions, HasUid(uid));
    if found.Some? {
      var i := found.value;
      db.transactions := db.transactions[i := Merge(db.transactions[i], p, stamp)];
    }
  }

  /** deleteTransaction: removes the first record with that uid. */
  method DeleteTransaction(db: Db, uid: string)
    modifies db
    ensures db.Snapshot() == old(db.Snapshot()).(transactions := DeletedByUid(old(db.transactions), uid))
  {
    var found := FirstIndex(db.transactions, HasUid(uid));
    if found.Some? {
      var i := found.value;
      db.transactions := db.transactions[..i] + db.transactions[i + 1..];
    }
  }
}
