/** The inventory store: products, stock movements, and the incremental stock
    rule applied when a movement is recorded. */
module InventoryStore {
  import opened Types
  import opened Seqs
  import opened Database

  function ProductHasUid(uid: string): Product -> bool {
    (p: Product) => p.uid == uid
  }

  function Max0(n: int): (r: int)
    ensures r >= 0 && r >= n && (r == 0 || r == n)
  {
    if n > 0 then n else 0
  }

  /** A sale takes its quantity out of stock; a purchase or an adjustment adds it. */
  function StockChange(m: StockMovement): (d: int)
    ensures m.movementType == Sale ==> d == -m.quantity
    ensures m.movementType != Sale ==> d == m.quantity
  {
    if m.movementType == Sale then -m.quantity else m.quantity
  }

  // ---- getters ----

  /** getProductByUid: the first product with that uid, or none. */
  function GetProductByUid(ps: seq<Product>, uid: string): (r: Option<Product>)
    ensures r.None? <==> forall i :: 0 <= i < |ps| ==> ps[i].uid != uid
    ensures r.Some? ==> exists i :: 0 <= i < |ps| && r.value == ps[i] && ps[i].uid == uid
                          && forall j :: 0 <= j < i ==> ps[j].uid != uid
  {
    FindIsFirst(ps, ProductHasUid(uid));
    Find(ps, ProductHasUid(uid))
  }

  predicate IsLowStock(p: Product) {
    p.currentStock <= p.reorderLevel && p.currentStock >= 0
  }

  /** getLowStockProducts: exactly the products with 0 <= stock <= reorder level, in order. */
  function GetLowStockProducts(ps: seq<Product>): (r: seq<Product>)
    ensures IsSubsequence(r, ps)
    ensures forall i :: 0 <= i < |r| ==> 0 <= r[i].currentStock <= r[i].reorderLevel
    ensures forall i :: 0 <= i < |ps| && 0 <= ps[i].currentStock <= ps[i].reorderLevel ==> ps[i] in r
    ensures forall x :: multiset(r)[x] == if 0 <= x.currentStock <= x.reorderLevel then multiset(ps)[x] else 0
  {
    FilterIsSubsequence(ps, IsLowStock);
    FilterMultiset(ps, IsLowStock);
    FilterMembers(ps, IsLowStock);
    Filter(ps, IsLowStock)
  }

  // ---- adding and updating products ----

  /** { ...data, uid, createdAt, updatedAt } */
  function StampedProduct(data: Product, uid: string, stamp: string): (r: Product)
    ensures r.uid == uid && r.createdAt == stamp && r.updatedAt == stamp
    ensures r.(uid := data.uid, createdAt := data.createdAt, updatedAt := data.updatedAt) == data
  {
    data.(uid := uid, createdAt := stamp, updatedAt := stamp)
  }

  /** Partial<Product>: the fields a caller may change. */
  datatype ProductPatch = ProductPatch(
    name: Option<string>,
    costPrice: Option<int>,
    sellingPrice: Option<int>,
    currentStock: Option<int>,
    reorderLevel: Option<int>,
    category: Option<ProductCategory>)

  /** { ...existing, ...data, updatedAt } */
  function MergeProduct(p: Product, d: ProductPatch, stamp: string): (r: Product)
    ensures r.uid == p.uid && r.createdAt == p.createdAt && r.updatedAt == stamp
    ensures r.name == d.name.GetOr(p.name) && r.category == d.category.GetOr(p.category)
    ensures r.costPrice == d.costPrice.GetOr(p.costPrice) && r.sellingPrice == d.sellingPrice.GetOr(p.sellingPrice)
    ensures r.currentStock == d.currentStock.GetOr(p.currentStock) && r.reorderLevel == d.reorderLevel.GetOr(p.reorderLevel)
  {
    Product(p.uid, d.name.GetOr(p.name), d.costPrice.GetOr(p.costPrice), d.sellingPrice.GetOr(p.sellingPrice),
      d.currentStock.GetOr(p.currentStock), d.reorderLevel.GetOr(p.reorderLevel), d.category.GetOr(p.category),
      p.createdAt, stamp)
  }

  /** The products after updateProduct: only the first product with the uid
      changes; an unknown uid changes nothing. */
  function ProductsUpdated(ps: seq<Product>, uid: string, d: ProductPatch, stamp: string): (r: seq<Product>)
    ensures |r| == |ps|
    ensures FirstIndex(ps, ProductHasUid(uid)).None? ==> r == ps
    ensures FirstIndex(ps, ProductHasUid(uid)).Some? ==>
      var i := FirstIndex(ps, ProductHasUid(uid)).value;
      r[i] == MergeProduct(ps[i], d, stamp) && forall j :: 0 <= j < |ps| && j != i ==> r[j] == ps[j]
  {
    match FirstIndex(ps, ProductHasUid(uid))
    case None => ps
    case Some(i) => ps[i := MergeProduct(ps[i], d, stamp)]
  }

  method AddProduct(db: Db, data: Product, uid: string, stamp: string)
    modifies db
    ensures db.Snapshot() == old(db.Snapshot()).(products := old(db.products) + [StampedProduct(data, uid, stamp)])
  {
    db.products := db.products + [StampedProduct(data, uid, stamp)];
  }

  method UpdateProduct(db: Db, uid: string, d: ProductPatch, stamp: string)
    modifies db
    ensures db.Snapshot() == old(db.Snapshot()).(products := ProductsUpdated(old(db.products), uid, d, stamp))
  {
    var found := FirstIndex(db.products, ProductHasUid(uid));
    if found.Some? {
      var i := found.value;
      db.products := db.products[i := MergeProduct(db.products[i], d, stamp)];
    }
  }

  // ---- stock movements ----

  function StampedMovement(data: StockMovement, uid: string, stamp: string): (r: StockMovement)
    ensures r.uid == uid && r.createdAt == stamp
    ensures r.(uid := data.uid, createdAt := data.createdAt) == data
  {
    data.(uid := uid, createdAt := stamp)
  }

  /** The products after a movement: the first product with the movement's
      product id gets stock max(0, stock + change); no other product changes. */
  function ApplyMovement(ps: seq<Product>, m: StockMovement, stamp: string): (r: seq<Product>)
    ensures |r| == |ps|
    ensures FirstIndex(ps, ProductHasUid(m.productId)).None? ==> r == ps
    ensures FirstIndex(ps, ProductHasUid(m.productId)).Some? ==>
      var i := FirstIndex(ps, ProductHasUid(m.productId)).value;
      r[i] == ps[i].(currentStock := Max0(ps[i].currentStock + StockChange(m)), updatedAt := stamp)
      && forall j :: 0 <= j < |ps| && j != i ==> r[j] == ps[j]
  {
    match FirstIndex(ps, ProductHasUid(m.productId))
    case None => ps
    case Some(i) => ps[i := ps[i].(currentStock := Max0(ps[i].currentStock + StockChange(m)), updatedAt := stamp)]
  }

  /** addStockMovement: the movement is always appended; then the first product
      with its product id, if any, gets the incremental stock update. */
  method AddStockMovement(db: Db, data: StockMovement, uid: string, stamp: string)
    modifies db
    ensures db.Snapshot() == old(db.Snapshot()).(
      stockMovements := old(db.stockMovements) + [StampedMovement(data, uid, stamp)],
      products := ApplyMovement(old(db.products), data, stamp))
  {
    db.stockMovements := db.stockMovements + [StampedMovement(data, uid, stamp)];
    var found := FirstIndex(db.products, ProductHasUid(data.productId));
    if found.Some? {
      var i := found.value;
      var stock := Max0(db.products[i].currentStock + StockChange(data));
      db.products := db.products[i := db.products[i].(currentStock := stock, updatedAt := stamp)];
    }
  }

  /** A movement never leaves a negative stock behind: if no stock was negative
      before, none is after. */
  lemma MovementKeepsStockNonNegative(ps: seq<Product>, m: StockMovement, stamp: string)
    requires forall i :: 0 <= i < |ps| ==> ps[i].currentStock >= 0
    ensures forall i :: 0 <= i < |ApplyMovement(ps, m, stamp)| ==> ApplyMovement(ps, m, stamp)[i].currentStock >= 0
  {
  }

  /** A movement changes no uid, so later lookups find the same product. */
  lemma MovementKeepsUids(ps: seq<Product>, m: StockMovement, stamp: string)
    ensures forall i :: 0 <= i < |ps| ==> ApplyMovement(ps, m, stamp)[i].uid == ps[i].uid
  {
  }

  /** The products after recording several movements one by one. */
  function ApplyMovements(ps: seq<Product>, ms: seq<StockMovement>, stamp: string): (r: seq<Product>)
    ensures |r| == |ps|
    decreases |ms|
  {
    if ms == [] then ps else ApplyMovements(ApplyMovement(ps, ms[0], stamp), ms[1..], stamp)
  }

  /** The incremental rule: starting from s, each change is added and the
      result clamped at 0 before the next change. */
  function Incremental(s: int, ds: seq<int>): int
    decreases |ds|
  {
    if ds == [] then s else Incremental(Max0(s + ds[0]), ds[1..])
  }

  function ProductMovesFor(uid: string): StockMovement -> bool {
    (m: StockMovement) => m.productId == uid
  }

  /** The product that lookups by uid u find takes a movement aimed at u. */
  lemma OwnMovementApplies(ps: seq<Product>, m: StockMovement, stamp: string, i: nat)
    requires i < |ps| && FirstIndex(ps, ProductHasUid(ps[i].uid)) == Some(i) && m.productId == ps[i].uid
    ensures ApplyMovement(ps, m, stamp)[i].currentStock == Max0(ps[i].currentStock + StockChange(m))
  {
  }

  /** ... and is untouched by a movement aimed at another uid. */
  lemma OtherMovementSkips(ps: seq<Product>, m: StockMovement, stamp: string, i: nat)
    requires i < |ps| && m.productId != ps[i].uid
    ensures ApplyMovement(ps, m, stamp)[i] == ps[i]
  {
    match FirstIndex(ps, ProductHasUid(m.productId))
    case None =>
    case Some(k) =>
      assert ps[k].uid == m.productId;
  }

  /** After a movement, uid lookups find the same positions as before. */
  lemma MovementKeepsLookup(ps: seq<Product>, m: StockMovement, stamp: string, u: string)
    ensures FirstIndex(ApplyMovement(ps, m, stamp), ProductHasUid(u)) == FirstIndex(ps, ProductHasUid(u))
  {
    MovementKeepsUids(ps, m, stamp);
    FirstIndexPointwise(ps, ApplyMovement(ps, m, stamp), ProductHasUid(u));
  }

  /** Recording movements one by one carries the stock of a product through the
      incremental rule, over the changes of exactly the movements aimed at it
      (provided it is the product that lookups by its uid find). */
  lemma {:induction false} ApplyMovementsIsIncremental(ps: seq<Product>, ms: seq<StockMovement>, stamp: string, i: nat)
    requires i < |ps| && FirstIndex(ps, ProductHasUid(ps[i].uid)) == Some(i)
    ensures ApplyMovements(ps, ms, stamp)[i].currentStock
         == Incremental(ps[i].currentStock, Map(Filter(ms, ProductMovesFor(ps[i].uid)), StockChange))
    decreases |ms|
  {
    if ms != [] {
      var m := ms[0];
      var u := ps[i].uid;
      var next := ApplyMovement(ps, m, stamp);
      MovementKeepsUids(ps, m, stamp);
      MovementKeepsLookup(ps, m, stamp, u);
      ApplyMovementsIsIncremental(next, ms[1..], stamp, i);
      var tail := Filter(ms[1..], ProductMovesFor(u));
      if m.productId == u {
        OwnMovementApplies(ps, m, stamp, i);
        assert Filter(ms, ProductMovesFor(u)) == [m] + tail;
        var ds := Map([m] + tail, StockChange);
        assert ds == [StockChange(m)] + Map(tail, StockChange);
        assert ds[0] == StockChange(m) && ds[1..] == Map(tail, StockChange);
        assert Incremental(ps[i].currentStock, ds) == Incremental(next[i].currentStock, Map(tail, StockChange));
      } else {
        OtherMovementSkips(ps, m, stamp, i);
        assert Filter(ms, ProductMovesFor(u)) == tail;
      }
    }
  }
}
