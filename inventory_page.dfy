/** The inventory page: the product form with its defaults, the stock movement
    form with its guards (the only place a sale is checked against the stock),
    the stock totals and the per-product low-stock mark and stock bar. */
module InventoryPage {
  import opened Types
  import opened Seqs
  import opened Strings
  import opened Database
  import opened Helpers
  import opened Grouping
  import opened InventoryStore

  // ---- the product form ----

  datatype ProductForm = ProductForm(
    name: string,
    cost: NumText,
    sell: NumText,
    category: ProductCategory,
    reorder: NumText)

  /** The form after resetProductForm. */
  const BLANK_PRODUCT_FORM := ProductForm("", Empty, Empty, Accessory, Num(10))

  /** The fields handleSaveProduct writes. */
  datatype ProductData = ProductData(
    name: string, costPrice: int, sellingPrice: int, category: ProductCategory, reorderLevel: int)

  /** The data a save writes, or None when the trimmed name is empty. */
  function ProductDataOf(f: ProductForm): (r: Option<ProductData>)
    ensures r.None? <==> Trim(f.name) == ""
    ensures r.Some? ==> r.value == ProductData(Trim(f.name), OrDefault(f.cost, 0), OrDefault(f.sell, 0),
                                               f.category, OrDefault(f.reorder, 5))
  {
    if Trim(f.name) == "" then None
    else Some(ProductData(Trim(f.name), OrDefault(f.cost, 0), OrDefault(f.sell, 0), f.category, OrDefault(f.reorder, 5)))
  }

  /** { ...data, currentStock: 0 } for addProduct (which adds the uid and stamps). */
  function NewProduct(d: ProductData): (r: Product)
    ensures r.currentStock == 0
    ensures r.name == d.name && r.costPrice == d.costPrice && r.sellingPrice == d.sellingPrice
    ensures r.category == d.category && r.reorderLevel == d.reorderLevel
  {
    Product("", d.name, d.costPrice, d.sellingPrice, 0, d.reorderLevel, d.category, "", "")
  }

  function PatchOf(d: ProductData): (r: ProductPatch)
    ensures r.currentStock.None?
    ensures r == ProductPatch(Some(d.name), Some(d.costPrice), Some(d.sellingPrice), None, Some(d.reorderLevel), Some(d.category))
  {
    ProductPatch(Some(d.name), Some(d.costPrice), Some(d.sellingPrice), None, Some(d.reorderLevel), Some(d.category))
  }

  /** openEditProduct: the form showing a product. */
  function EditForm(p: Product): ProductForm {
    ProductForm(p.name, Num(p.costPrice), Num(p.sellingPrice), p.category, Num(p.reorderLevel))
  }

  /** Writing a product's own fields back changes only its update stamp. */
  lemma OwnDataMerge(p: Product, stamp: string)
    ensures MergeProduct(p, PatchOf(ProductData(p.name, p.costPrice, p.sellingPrice, p.category, p.reorderLevel)), stamp)
         == p.(updatedAt := stamp)
  {
  }

  lemma EditFormData(p: Product)
    requires Trim(p.name) == p.name && p.name != ""
    requires p.reorderLevel != 0
    ensures ProductDataOf(EditForm(p)) == Some(ProductData(p.name, p.costPrice, p.sellingPrice, p.category, p.reorderLevel))
  {
    var r := ProductDataOf(EditForm(p));
    assert r.value == ProductData(p.name, OrDefault(Num(p.costPrice), 0), OrDefault(Num(p.sellingPrice), 0), p.category, OrDefault(Num(p.reorderLevel), 5));
  }

  /** Saving an unedited form leaves a product with a trimmed, non-empty name
      and a non-zero reorder level as it was, apart from its update stamp
      (an unpriced product's 0 falls back to the default 0). */
  lemma EditFormRoundTrip(p: Product, stamp: string)
    requires Trimmed(p.name) && p.name != ""
    requires p.reorderLevel != 0
    ensures ProductDataOf(EditForm(p)) == Some(ProductData(p.name, p.costPrice, p.sellingPrice, p.category, p.reorderLevel))
    ensures MergeProduct(p, PatchOf(ProductDataOf(EditForm(p)).value), stamp) == p.(updatedAt := stamp)
  {
    TrimOfTrimmed(p.name);
    EditFormData(p);
    OwnDataMerge(p, stamp);
  }

  /** A reorder level left empty, unparsable or 0 becomes 5. */
  lemma ReorderDefault(f: ProductForm)
    requires Trim(f.name) != ""
    requires !f.reorder.Num? || f.reorder.value == 0
    ensures ProductDataOf(f).value.reorderLevel == 5
  {
  }

  /** handleSaveProduct: nothing with a blank name; otherwise the selected
      product is updated, or a new product with stock 0 is added. */
  method SaveProduct(db: Db, f: ProductForm, selected: Option<Product>, uid: string, stamp: string)
    modifies db
    ensures ProductDataOf(f).None? ==> db.Snapshot() == old(db.Snapshot())
    ensures ProductDataOf(f).Some? && selected.Some? ==>
      db.Snapshot() == old(db.Snapshot()).(products := ProductsUpdated(old(db.products), selected.value.uid, PatchOf(ProductDataOf(f).value), stamp))
    ensures ProductDataOf(f).Some? && selected.None? ==>
      db.Snapshot() == old(db.Snapshot()).(products := old(db.products) + [StampedProduct(NewProduct(ProductDataOf(f).value), uid, stamp)])
  {
    var d := ProductDataOf(f);
    if d.None? {
      return;
    }
    if selected.Some? {
      UpdateProduct(db, selected.value.uid, PatchOf(d.value), stamp);
    } else {
      AddProduct(db, NewProduct(d.value), uid, stamp);
    }
  }

  // ---- the stock movement form ----

  datatype MovementForm = MovementForm(
    productId: string,
    movementType: MovementType,
    qty: NumText,
    price: NumText,
    notes: string)

  /** The form after resetMovementForm. */
  const BLANK_MOVEMENT_FORM := MovementForm("", Purchase, Empty, Empty, "")

  /** openStockMovement(product): the product and its cost price filled in. */
  function MovementFormFor(p: Option<Product>): (r: MovementForm)
    ensures p.None? ==> r == BLANK_MOVEMENT_FORM
    ensures p.Some? ==> r == BLANK_MOVEMENT_FORM.(productId := p.value.uid, price := Num(p.value.costPrice))
  {
    match p
    case None => BLANK_MOVEMENT_FORM
    case Some(q) => BLANK_MOVEMENT_FORM.(productId := q.uid, price := Num(q.costPrice))
  }

  /** The guard of handleStockMovement: a product must be chosen, a quantity
      entered and positive, and a sale may not exceed the product's stock. */
  predicate MovementRefused(products: seq<Product>, f: MovementForm) {
    f.productId == "" || f.qty.Empty? || OrDefault(f.qty, 0) <= 0
    || (f.movementType == Sale && GetProductByUid(products, f.productId).Some?
        && OrDefault(f.qty, 0) > GetProductByUid(products, f.productId).value.currentStock)
  }

  /** The movement handleStockMovement records, dated today. */
  function FormMovement(f: MovementForm, today: Date): (r: StockMovement)
    ensures r.productId == f.productId && r.movementType == f.movementType
    ensures r.quantity == OrDefault(f.qty, 0) && r.unitPrice == OrDefault(f.price, 0)
    ensures r.date == today && r.quarter == GetCurrentQuarter(today) && r.year == GetCurrentYear(today)
    ensures r.circuitId.None? && r.transactionId.None?
    ensures r.notes == NonEmpty(f.notes)
  {
    StockMovement("", f.productId, f.movementType, OrDefault(f.qty, 0), OrDefault(f.price, 0), None, None,
      today, GetCurrentQuarter(today), GetCurrentYear(today), NonEmpty(f.notes), "")
  }

  /** handleStockMovement: a refused movement records nothing; otherwise the
      movement is recorded through the store, which updates the stock. */
  method RecordMovement(db: Db, f: MovementForm, today: Date, uid: string, stamp: string)
    modifies db
    ensures MovementRefused(old(db.products), f) ==> db.Snapshot() == old(db.Snapshot())
    ensures !MovementRefused(old(db.products), f) ==>
      db.Snapshot() == old(db.Snapshot()).(
        stockMovements := old(db.stockMovements) + [StampedMovement(FormMovement(f, today), uid, stamp)],
        products := ApplyMovement(old(db.products), FormMovement(f, today), stamp))
  {
    if MovementRefused(db.products, f) {
      return;
    }
    AddStockMovement(db, FormMovement(f, today), uid, stamp);
  }

  /** Past the guard, the clamp at 0 never fires: the chosen product's stock,
      if not negative before, moves by exactly the movement's quantity. */
  lemma AcceptedMovementIsExact(products: seq<Product>, f: MovementForm, today: Date, stamp: string)
    requires !MovementRefused(products, f)
    requires GetProductByUid(products, f.productId).Some?
    requires GetProductByUid(products, f.productId).value.currentStock >= 0
    ensures var i := FirstIndex(products, ProductHasUid(f.productId)).value;
      var m := FormMovement(f, today);
      FirstIndex(products, ProductHasUid(f.productId)).Some?
      && ApplyMovement(products, m, stamp)[i].currentStock == products[i].currentStock + StockChange(m)
  {
    assert Find(products, ProductHasUid(f.productId)).Some?;
  }

  /** A sale of more than the stock is refused whenever the product exists. */
  lemma OverSaleRefused(products: seq<Product>, f: MovementForm)
    requires f.movementType == Sale && GetProductByUid(products, f.productId).Some?
    requires OrDefault(f.qty, 0) > GetProductByUid(products, f.productId).value.currentStock
    ensures MovementRefused(products, f)
  {
  }

  /** Purchases and adjustments are never limited by the stock. */
  lemma PurchasesUnlimited(products: seq<Product>, f: MovementForm)
    requires f.movementType != Sale && f.productId != "" && f.qty.Num? && f.qty.value > 0
    ensures !MovementRefused(products, f)
  {
  }

  // ---- totals and marks ----

  function StockOf(p: Product): int { p.currentStock }
  function ValueOf(p: Product): int { p.currentStock * p.costPrice }

  /** Stock value: the sum of stock times cost price. */
  function StockValue(ps: seq<Product>): int {
    SumBy(ps, ValueOf)
  }

  /** Total units: the sum of the stock levels. */
  function TotalUnits(ps: seq<Product>): int {
    SumBy(ps, StockOf)
  }

  lemma {:induction false} TotalsNonNegative(ps: seq<Product>)
    requires forall i :: 0 <= i < |ps| ==> ps[i].currentStock >= 0 && ps[i].costPrice >= 0
    ensures TotalUnits(ps) >= 0 && StockValue(ps) >= 0
  {
    if ps != [] {
      TotalsNonNegative(ps[1..]);
    }
  }

  /** A movement changes the total units by the chosen product's change in stock,
      which is the movement's quantity unless the clamp at 0 fires. */
  lemma MovementChangesUnits(ps: seq<Product>, m: StockMovement, stamp: string)
    ensures FirstIndex(ps, ProductHasUid(m.productId)).None? ==> TotalUnits(ApplyMovement(ps, m, stamp)) == TotalUnits(ps)
    ensures FirstIndex(ps, ProductHasUid(m.productId)).Some? ==>
      var i := FirstIndex(ps, ProductHasUid(m.productId)).value;
      TotalUnits(ApplyMovement(ps, m, stamp)) == TotalUnits(ps) - ps[i].currentStock + Max0(ps[i].currentStock + StockChange(m))
  {
    match FirstIndex(ps, ProductHasUid(m.productId))
    case None =>
    case Some(i) =>
      SumByUpdate(ps, i, ps[i].(currentStock := Max0(ps[i].currentStock + StockChange(m)), updatedAt := stamp), StockOf);
  }

  /** The list's mark: stock at or below the reorder level. */
  predicate IsLow(p: Product) {
    p.currentStock <= p.reorderLevel
  }

  /** The store's low-stock list and the page's mark differ only on negative stock. */
  lemma LowMarksAgree(p: Product)
    ensures IsLowStock(p) <==> IsLow(p) && p.currentStock >= 0
  {
  }

  /** min(stock / max(3 * reorderLevel, 1) * 100, 100) */
  function StockBarWidth(p: Product): (r: real)
    ensures r <= 100.0
    ensures p.currentStock >= 0 ==> r >= 0.0
    ensures p.currentStock >= Max1(3 * p.reorderLevel) ==> r == 100.0
    ensures p.currentStock < Max1(3 * p.reorderLevel) ==>
      r * (Max1(3 * p.reorderLevel) as real) == 100.0 * (p.currentStock as real)
  {
    var den := Max1(3 * p.reorderLevel);
    var w := (p.currentStock as real) / (den as real) * 100.0;
    RatioBounds(p.currentStock as real, den as real);
    if w < 100.0 then w else 100.0
  }

  function Max1(n: int): (r: int)
    ensures r >= 1 && r >= n && (r == 1 || r == n)
  {
    if n > 1 then n else 1
  }

  lemma RatioBounds(x: real, d: real)
    requires d > 0.0
    ensures x >= 0.0 ==> x / d * 100.0 >= 0.0
    ensures x >= d ==> x / d * 100.0 >= 100.0
    ensures x / d * 100.0 * d == 100.0 * x
  {
    assert x / d * d == x;
  }

  lemma BelowDenominator(x: real, d: real)
    requires d > 0.0 && x < d
    ensures x / d * 100.0 < 100.0
  {
    assert x / d * d == x;
    assert x / d < 1.0;
  }

  /** The bar is full exactly when the stock reaches its full mark. */
  lemma StockBarFullIff(p: Product)
    ensures StockBarWidth(p) == 100.0 <==> p.currentStock >= Max1(3 * p.reorderLevel)
  {
    var n := Max1(3 * p.reorderLevel);
    if p.currentStock < n {
      BelowDenominator(p.currentStock as real, n as real);
    }
  }
}
