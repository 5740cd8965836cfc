/** The guided entry wizard: four steps (type, category, details, review), a
    check per step, the list of merchandise items whose totals fill in the
    amount, and the submission that records the transaction and one stock
    movement per item. */
module EntryPage {
  import opened Types
  import opened Seqs
  import opened Strings
  import opened Database
  import opened Helpers
  import opened TransactionStore
  import opened InventoryStore

  // ---- steps ----

  datatype Step = TypeStep | CategoryStep | DetailsStep | ReviewStep

  const STEPS: seq<Step> := [TypeStep, CategoryStep, DetailsStep, ReviewStep]

  /** STEPS.indexOf(step). */
  function StepIndex(s: Step): (i: nat)
    ensures i < |STEPS| && STEPS[i] == s
  {
    match s
    case TypeStep => 0
    case CategoryStep => 1
    case DetailsStep => 2
    case ReviewStep => 3
  }

  /** goNext: one step forward; the review step stays where it is. */
  function GoNext(s: Step): (r: Step)
    ensures s != ReviewStep ==> StepIndex(r) == StepIndex(s) + 1
    ensures s == ReviewStep ==> r == ReviewStep
  {
    var i := StepIndex(s);
    if i < |STEPS| - 1 then STEPS[i + 1] else s
  }

  /** Where goBack leads: the previous step, or out of the page from the first. */
  datatype Back = Stay(step: Step) | LeavePage

  function GoBack(s: Step): (r: Back)
    ensures r == LeavePage <==> s == TypeStep
    ensures r.Stay? ==> StepIndex(r.step) + 1 == StepIndex(s)
  {
    var i := StepIndex(s);
    if i > 0 then Stay(STEPS[i - 1]) else LeavePage
  }

  lemma StepIndexInjective(a: Step, b: Step)
    requires StepIndex(a) == StepIndex(b)
    ensures a == b
  {
  }

  /** Back after next returns to the step left, except from the review step. */
  lemma BackUndoesNext(s: Step)
    requires s != ReviewStep
    ensures GoBack(GoNext(s)) == Stay(s)
  {
    var b := GoBack(GoNext(s));
    StepIndexInjective(b.step, s);
  }

  /** Next after back returns to the step left, except from the first step. */
  lemma NextUndoesBack(s: Step)
    requires s != TypeStep
    ensures GoBack(s).Stay? && GoNext(GoBack(s).step) == s
  {
    StepIndexInjective(GoNext(GoBack(s).step), s);
  }

  // ---- step checks ----

  const CATEGORY_ERROR := "Please select a category"
  const DESCRIPTION_ERROR := "Please enter a description"
  const ITEM_ERROR := "Add at least one item first"
  const AMOUNT_ERROR := "Please enter a valid amount"
  const DATE_ERROR := "Please select a date"

  predicate IsMerchandise(category: string) {
    category == "merchandise_sale" || category == "merchandise_purchase"
  }

  /** `!amount || parseFloat(amount) <= 0`: empty text, or a number that is not
      positive. Text that does not parse gives NaN, which this test lets through. */
  predicate AmountMissing(amount: NumText) {
    amount.Empty? || (amount.Num? && amount.value <= 0)
  }

  /** The inputs of the wizard that the step checks read. */
  datatype Draft = Draft(
    txnType: TxnType,
    category: string,
    description: string,
    amount: NumText,
    date: Option<Date>,
    circuitId: string,
    notes: string,
    items: seq<TransactionItem>)

  /** validateStep: the error message of each field that fails on this step. */
  function StepErrors(s: Step, d: Draft): (r: map<string, string>)
    ensures "category" in r <==> s == CategoryStep && d.category == ""
    ensures "description" in r <==> s == DetailsStep && Trim(d.description) == ""
    ensures "amount" in r <==> s == DetailsStep && AmountMissing(d.amount)
    ensures "date" in r <==> s == DetailsStep && d.date.None?
    ensures "category" in r ==> r["category"] == CATEGORY_ERROR
    ensures "description" in r ==> r["description"] == DESCRIPTION_ERROR
    ensures "amount" in r ==> r["amount"] == (if IsMerchandise(d.category) then ITEM_ERROR else AMOUNT_ERROR)
    ensures "date" in r ==> r["date"] == DATE_ERROR
    ensures forall k :: k in r ==> k in {"category", "description", "amount", "date"}
  {
    var c: map<string, string> := if s == CategoryStep && d.category == "" then map["category" := CATEGORY_ERROR] else map[];
    var e1 := if s == DetailsStep && Trim(d.description) == "" then c["description" := DESCRIPTION_ERROR] else c;
    var e2 := if s == DetailsStep && AmountMissing(d.amount)
      then e1["amount" := if IsMerchandise(d.category) then ITEM_ERROR else AMOUNT_ERROR] else e1;
    if s == DetailsStep && d.date.None? then e2["date" := DATE_ERROR] else e2
  }

  predicate StepValid(s: Step, d: Draft) {
    |StepErrors(s, d)| == 0
  }

  /** The step check fails exactly when one of the step's conditions does; the
      type and review steps always pass. */
  lemma StepValidIff(s: Step, d: Draft)
    ensures StepValid(s, d) <==>
      match s
      case TypeStep => true
      case CategoryStep => d.category != ""
      case DetailsStep => Trim(d.description) != "" && !AmountMissing(d.amount) && d.date.Some?
      case ReviewStep => true
  {
    var r := StepErrors(s, d);
    if s == CategoryStep && d.category == "" {
      assert "category" in r;
    }
    if s == DetailsStep {
      if Trim(d.description) == "" { assert "description" in r; }
      if AmountMissing(d.amount) { assert "amount" in r; }
      if d.date.None? { assert "date" in r; }
    }
    if !(exists k :: k in r) {
      assert r == map[];
    } else {
      var k :| k in r;
      assert k in {"category", "description", "amount", "date"};
    }
  }

  /** handleNext: forward only when the step check passes. */
  function HandleNext(s: Step, d: Draft): (r: Step)
    ensures StepValid(s, d) ==> r == GoNext(s)
    ensures !StepValid(s, d) ==> r == s
  {
    if StepValid(s, d) then GoNext(s) else s
  }

  /** The review step can be reached from the category step only through both
      checks, so a draft under review has a category, a trimmed description, a
      date and an amount that is not missing. */
  lemma ReachingReview(d: Draft)
    requires HandleNext(HandleNext(CategoryStep, d), d) == ReviewStep
    ensures d.category != "" && Trim(d.description) != "" && d.date.Some? && !AmountMissing(d.amount)
  {
    StepValidIff(CategoryStep, d);
    StepValidIff(DetailsStep, d);
  }

  // ---- items ----

  function ItemTotal(it: TransactionItem): int { it.total }

  /** The amount the items add up to. */
  function ItemsTotal(items: seq<TransactionItem>): int {
    SumBy(items, ItemTotal)
  }

  /** An item as handleAddItem builds it. */
  predicate WellFormedItem(it: TransactionItem) {
    it.quantity > 0 && it.unitPrice > 0 && it.total == it.quantity * it.unitPrice
  }

  predicate WellFormedItems(items: seq<TransactionItem>) {
    forall i :: 0 <= i < |items| ==> WellFormedItem(items[i])
  }

  /** handleAddItem: the new item list, or None when the product is unknown or
      the quantity or price is not positive. */
  function AddItem(items: seq<TransactionItem>, products: seq<Product>, selected: string, qty: NumText, price: NumText): (r: Option<seq<TransactionItem>>)
    ensures r.None? <==> (GetProductByUid(products, selected).None? || OrDefault(qty, 0) <= 0 || OrDefault(price, 0) <= 0)
    ensures r.Some? ==>
      var p := GetProductByUid(products, selected).value;
      r.value == items + [TransactionItem(p.uid, p.name, OrDefault(qty, 0), OrDefault(price, 0), OrDefault(qty, 0) * OrDefault(price, 0))]
  {
    match GetProductByUid(products, selected)
    case None => None
    case Some(p) =>
      var q := OrDefault(qty, 0);
      var u := OrDefault(price, 0);
      if q <= 0 || u <= 0 then None
      else Some(items + [TransactionItem(p.uid, p.name, q, u, q * u)])
  }

  /** items.filter((_, i) => i !== idx) */
  function RemoveItem(items: seq<TransactionItem>, idx: int): (r: seq<TransactionItem>)
    ensures 0 <= idx < |items| ==> |r| == |items| - 1
    ensures 0 <= idx < |items| ==> forall j :: 0 <= j < idx ==> r[j] == items[j]
    ensures 0 <= idx < |items| ==> forall j :: idx <= j < |r| ==> r[j] == items[j + 1]
    ensures !(0 <= idx < |items|) ==> r == items
  {
    if 0 <= idx < |items| then items[..idx] + items[idx + 1..] else items
  }

  /** The amount text after a removal: the new sum, or empty when it is 0. */
  function AmountAfterRemove(items: seq<TransactionItem>): NumText {
    var t := ItemsTotal(items);
    if t > 0 then Num(t) else Empty
  }

  lemma {:induction false} WellFormedTotalPositive(items: seq<TransactionItem>)
    requires WellFormedItems(items)
    ensures items != [] <==> ItemsTotal(items) > 0
    ensures ItemsTotal(items) >= 0
  {
    if items != [] {
      var q := items[0].quantity;
      var u := items[0].unitPrice;
      assert q * u > 0 by {
        assert q >= 1 && u >= 1;
        assert q * u >= u;
      }
      WellFormedTotalPositive(items[1..]);
    }
  }

  /** Adding keeps every item well formed, and the amount becomes the new sum,
      which is positive. */
  lemma AddItemSum(items: seq<TransactionItem>, products: seq<Product>, selected: string, qty: NumText, price: NumText)
    requires WellFormedItems(items)
    requires AddItem(items, products, selected, qty, price).Some?
    ensures var next := AddItem(items, products, selected, qty, price).value;
      WellFormedItems(next)
      && ItemsTotal(next) == ItemsTotal(items) + OrDefault(qty, 0) * OrDefault(price, 0)
      && ItemsTotal(next) > 0
  {
    var next := AddItem(items, products, selected, qty, price).value;
    SumByConcat(items, [next[|items|]], ItemTotal);
    assert next == items + [next[|items|]];
    WellFormedTotalPositive(next);
  }

  /** Removing takes the removed item's total off the sum, and the amount is left
      empty exactly when no item remains. */
  lemma RemoveItemSum(items: seq<TransactionItem>, idx: int)
    requires WellFormedItems(items) && 0 <= idx < |items|
    ensures var next := RemoveItem(items, idx);
      WellFormedItems(next)
      && ItemsTotal(next) == ItemsTotal(items) - items[idx].total
      && (AmountAfterRemove(next) == Empty <==> next == [])
  {
    var next := RemoveItem(items, idx);
    RemoveAtSum(items, idx, ItemTotal);
    WellFormedTotalPositive(next);
  }

  // ---- submission ----

  /** The transaction handleSubmit passes to addTransaction (the store adds the
      uid and the time stamps). */
  function SubmittedTransaction(d: Draft, date: Date, amount: int): (r: Transaction)
    ensures r.date == date && r.quarter == GetQuarterFromDate(date) && r.year == date.year
    ensures r.txnType == d.txnType && r.category == d.category && r.description == d.description && r.amount == amount
    ensures r.circuitId == NonEmpty(d.circuitId) && r.notes == NonEmpty(d.notes)
    ensures r.items.Some? <==> d.items != []
    ensures r.items.Some? ==> r.items.value == d.items
  {
    Transaction("", date, d.txnType, d.category, None, d.description, amount, NonEmpty(d.circuitId),
      GetQuarterFromDate(date), date.year, None, if |d.items| > 0 then Some(d.items) else None,
      NonEmpty(d.notes), "", "")
  }

  /** A sale for a receipt, a purchase for a payment. */
  function MovementTypeFor(ty: TxnType): (r: MovementType)
    ensures r == Sale <==> ty == Receipt
    ensures r == Purchase <==> ty == Payment
  {
    match ty
    case Receipt => Sale
    case Payment => Purchase
  }

  /** The stock movement recorded for one item. */
  function ItemMovement(d: Draft, date: Date, it: TransactionItem): (r: StockMovement)
    ensures r.productId == it.productId && r.movementType == MovementTypeFor(d.txnType)
    ensures r.quantity == it.quantity && r.unitPrice == it.unitPrice
    ensures r.circuitId == NonEmpty(d.circuitId) && r.date == date
    ensures r.quarter == GetQuarterFromDate(date) && r.year == date.year
    ensures r.transactionId.None? && r.notes.None?
  {
    StockMovement("", it.productId, MovementTypeFor(d.txnType), it.quantity, it.unitPrice,
      NonEmpty(d.circuitId), None, date, GetQuarterFromDate(date), date.year, None, "")
  }

  function ItemMovementFor(d: Draft, date: Date): TransactionItem -> StockMovement {
    (it: TransactionItem) => ItemMovement(d, date, it)
  }

  /** movements[k] recorded with uids[k]: the rows the loop appends. */
  function RecordedMovements(ms: seq<StockMovement>, uids: seq<string>, stamp: string): (r: seq<StockMovement>)
    requires |uids| == |ms|
    ensures |r| == |ms|
    ensures forall k :: 0 <= k < |ms| ==> r[k] == StampedMovement(ms[k], uids[k], stamp)
  {
    if ms == [] then [] else [StampedMovement(ms[0], uids[0], stamp)] + RecordedMovements(ms[1..], uids[1..], stamp)
  }

  /** handleSubmit: the transaction is added, then each item's movement in item
      order, each one moving the stock of its product by the incremental rule.
      Generated uids and the clock are parameters. The wizard reaches this only
      after the details check, so the date is set and the amount is a number. */
  method Submit(db: Db, d: Draft, txnUid: string, moveUids: seq<string>, stamp: string)
    requires d.date.Some? && d.amount.Num?
    requires |moveUids| == |d.items|
    modifies db
    ensures var ms := Map(d.items, ItemMovementFor(d, d.date.value));
      db.Snapshot() == old(db.Snapshot()).(
        transactions := old(db.transactions) + [Stamped(SubmittedTransaction(d, d.date.value, d.amount.value), txnUid, stamp)],
        stockMovements := old(db.stockMovements) + RecordedMovements(ms, moveUids, stamp),
        products := ApplyMovements(old(db.products), ms, stamp))
  {
    var date := d.date.value;
    AddTransaction(db, SubmittedTransaction(d, date, d.amount.value), txnUid, stamp);
    RecordMovements(db, Map(d.items, ItemMovementFor(d, date)), moveUids, stamp);
  }

  /** The loop over the line items: each movement is recorded in turn through
      the inventory store. */
  method RecordMovements(db: Db, ms: seq<StockMovement>, uids: seq<string>, stamp: string)
    requires |uids| == |ms|
    modifies db
    ensures db.Snapshot() == old(db.Snapshot()).(
      stockMovements := old(db.stockMovements) + RecordedMovements(ms, uids, stamp),
      products := ApplyMovements(old(db.products), ms, stamp))
  {
    var k := 0;
    while k < |ms|
      invariant 0 <= k <= |ms|
      invariant db.Snapshot() == old(db.Snapshot()).(
        stockMovements := old(db.stockMovements) + RecordedMovements(ms[..k], uids[..k], stamp),
        products := db.products)
      invariant ApplyMovements(old(db.products), ms, stamp) == ApplyMovements(db.products, ms[k..], stamp)
    {
      ApplyMovementsStep(db.products, ms, k, stamp);
      RecordedSnoc(ms, uids, k, stamp);
      AddStockMovement(db, ms[k], uids[k], stamp);
      k := k + 1;
    }
    assert ms[..k] == ms && uids[..k] == uids && ms[k..] == [];
  }

  /** Applying the movements from k on is applying movement k, then the rest. */
  lemma ApplyMovementsStep(ps: seq<Product>, ms: seq<StockMovement>, k: nat, stamp: string)
    requires k < |ms|
    ensures ApplyMovements(ps, ms[k..], stamp) == ApplyMovements(ApplyMovement(ps, ms[k], stamp), ms[k + 1..], stamp)
  {
    assert ms[k..][0] == ms[k] && ms[k..][1..] == ms[k + 1..];
  }

  lemma RecordedSnoc(ms: seq<StockMovement>, uids: seq<string>, k: nat, stamp: string)
    requires |uids| == |ms| && k < |ms|
    ensures RecordedMovements(ms[..k + 1], uids[..k + 1], stamp)
         == RecordedMovements(ms[..k], uids[..k], stamp) + [StampedMovement(ms[k], uids[k], stamp)]
  {
    var a := RecordedMovements(ms[..k + 1], uids[..k + 1], stamp);
    var b := RecordedMovements(ms[..k], uids[..k], stamp) + [StampedMovement(ms[k], uids[k], stamp)];
    assert |a| == |b|;
    forall j | 0 <= j < |a| ensures a[j] == b[j] {
    }
  }

  /** The movements of a submission carry the items' products, quantities and
      prices, with the type the transaction's type dictates. */
  lemma SubmitMovementsFollowItems(d: Draft, date: Date)
    ensures var ms := Map(d.items, ItemMovementFor(d, date));
      |ms| == |d.items|
      && forall k :: 0 <= k < |ms| ==>
        ms[k].productId == d.items[k].productId && ms[k].quantity == d.items[k].quantity
        && ms[k].unitPrice == d.items[k].unitPrice
        && (ms[k].movementType == Sale <==> d.txnType == Receipt)
  {
  }

  /** Sales from the wizard are not checked against the stock: a receipt for 5
      units of a product with none in stock leaves its stock at 0, not -5. */
  lemma UncheckedSaleIsClamped(p: Product, it: TransactionItem, d: Draft, date: Date, stamp: string)
    requires d.txnType == Receipt && p.currentStock == 0 && it.productId == p.uid && it.quantity == 5
    ensures ApplyMovement([p], ItemMovement(d, date, it), stamp)[0].currentStock == 0
  {
    assert FirstIndex([p], ProductHasUid(p.uid)) == Some(0);
  }

  // ---- the page's state ----

  datatype EntryState = EntryState(
    step: Step,
    draft: Draft,
    errors: map<string, string>,
    showItemModal: bool,
    selectedProduct: string,
    itemQty: NumText,
    itemPrice: NumText)

  class EntryForm {
    var step: Step
    var draft: Draft
    var errors: map<string, string>
    var showItemModal: bool
    var selectedProduct: string
    var itemQty: NumText
    var itemPrice: NumText

    function State(): EntryState
      reads this
    {
      EntryState(step, draft, errors, showItemModal, selectedProduct, itemQty, itemPrice)
    }

    /** The page as opened: a receipt on the first step, dated today, with no
        item. A preset type from the address is passed in. */
    constructor(today: Date, preset: Option<TxnType>)
      ensures State() == EntryState(TypeStep, Draft(preset.GetOr(Receipt), "", "", Empty, Some(today), "", "", []),
                                    map[], false, "", Empty, Empty)
    {
      step := TypeStep;
      draft := Draft(preset.GetOr(Receipt), "", "", Empty, Some(today), "", "", []);
      errors := map[];
      showItemModal := false;
      selectedProduct := "";
      itemQty := Empty;
      itemPrice := Empty;
    }

    /** Choosing a type clears the category. */
    method ChooseType(ty: TxnType)
      modifies this
      ensures State() == old(State()).(draft := old(draft).(txnType := ty, category := ""))
    {
      draft := draft.(txnType := ty, category := "");
    }

    method ChooseCategory(category: string)
      modifies this
      ensures State() == old(State()).(draft := old(draft).(category := category))
    {
      draft := draft.(category := category);
    }

    /** handleNext: the errors of the step are shown; the step advances only when there are none. */
    method Next()
      modifies this
      ensures State() == old(State()).(step := HandleNext(old(step), old(draft)), errors := StepErrors(old(step), old(draft)))
    {
      errors := StepErrors(step, draft);
      if |errors| == 0 {
        step := GoNext(step);
      }
    }

    /** goBack: returns true when the page is left instead. */
    method Back() returns (left: bool)
      modifies this
      ensures left <==> old(step) == TypeStep
      ensures !left ==> State() == old(State()).(step := GoBack(old(step)).step)
      ensures left ==> State() == old(State())
    {
      var b := GoBack(step);
      if b.Stay? {
        step := b.step;
        left := false;
      } else {
        left := true;
      }
    }

    /** Picking a product fills in its selling price for a receipt and its cost
        price for a payment. */
    method SelectProduct(products: seq<Product>, uid: string)
      modifies this
      ensures var p := GetProductByUid(products, uid);
        State() == old(State()).(selectedProduct := uid,
          itemPrice := if p.None? then old(itemPrice)
                       else Num(if old(draft).txnType == Receipt then p.value.sellingPrice else p.value.costPrice))
    {
      selectedProduct := uid;
      var p := GetProductByUid(products, uid);
      if p.Some? {
        itemPrice := Num(if draft.txnType == Receipt then p.value.sellingPrice else p.value.costPrice);
      }
    }

    /** handleAddItem: on success the item is appended, the amount becomes the
        items' sum and the item form is cleared and closed. */
    method AddItemToList(products: seq<Product>)
      modifies this
      ensures var r := AddItem(old(draft).items, products, old(selectedProduct), old(itemQty), old(itemPrice));
        if r.None? then State() == old(State())
        else State() == old(State()).(
          draft := old(draft).(items := r.value, amount := Num(ItemsTotal(r.value))),
          selectedProduct := "", itemQty := Empty, itemPrice := Empty, showItemModal := false)
    {
      var r := AddItem(draft.items, products, selectedProduct, itemQty, itemPrice);
      if r.Some? {
        draft := draft.(items := r.value, amount := Num(ItemsTotal(r.value)));
        selectedProduct := "";
        itemQty := Empty;
        itemPrice := Empty;
        showItemModal := false;
      }
    }

    /** removeItem: the item at idx goes and the amount is recomputed. */
    method RemoveItemAt(idx: int)
      modifies this
      ensures var next := RemoveItem(old(draft).items, idx);
        State() == old(State()).(draft := old(draft).(items := next, amount := AmountAfterRemove(next)))
    {
      var next := RemoveItem(draft.items, idx);
      draft := draft.(items := next, amount := AmountAfterRemove(next));
    }
  }
}
