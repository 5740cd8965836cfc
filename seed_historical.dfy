/** Seeding of the historical records and the recalculation of every product's
    stock from the stock movements table. */
module SeedHistorical {
  import opened Types
  import opened Strings
  import opened Seqs
  import opened Database
  import opened InventoryStore

  // ---- record builders ----

  /** txn(...): a transaction carrying exactly the given fields; the circuit
      reference is stored as the circuit id. */
  function Txn(uid: string, stamp: string, date: Date, ty: TxnType, category: string, description: string,
               amount: int, quarter: Quarter, year: int, circuitRef: Option<string>, notes: Option<string>): (r: Transaction)
    ensures r.uid == uid && r.createdAt == stamp && r.updatedAt == stamp
    ensures r.date == date && r.txnType == ty && r.category == category && r.description == description
    ensures r.amount == amount && r.quarter == quarter && r.year == year
    ensures r.circuitId == circuitRef && r.notes == notes
    ensures r.subcategory.None? && r.eventId.None? && r.items.None?
  {
    Transaction(uid, date, ty, category, None, description, amount, circuitRef, quarter, year, None, None, notes, stamp, stamp)
  }

  /** sm(...): a stock movement carrying exactly the given fields; the product
      reference is stored as the product id. */
  function Sm(uid: string, stamp: string, date: Date, productRef: string, mt: MovementType, quantity: int,
              unitPrice: int, quarter: Quarter, year: int, circuitRef: Option<string>, notes: Option<string>): (r: StockMovement)
    ensures r.uid == uid && r.createdAt == stamp && r.date == date
    ensures r.productId == productRef && r.movementType == mt && r.quantity == quantity && r.unitPrice == unitPrice
    ensures r.quarter == quarter && r.year == year && r.circuitId == circuitRef && r.notes == notes
    ensures r.transactionId.None?
  {
    StockMovement(uid, productRef, mt, quantity, unitPrice, circuitRef, None, date, quarter, year, notes, stamp)
  }

  // ---- name lookups ----

  function NameIs(name: string): Circuit -> bool {
    (c: Circuit) => ToLower(c.name) == ToLower(name)
  }

  /** cid(name): the uid of the first circuit whose name equals name ignoring
      case, or '' when there is none. */
  function Cid(cs: seq<Circuit>, name: string): (r: string)
    ensures (forall i :: 0 <= i < |cs| ==> ToLower(cs[i].name) != ToLower(name)) ==> r == ""
    ensures (exists i :: 0 <= i < |cs| && ToLower(cs[i].name) == ToLower(name)) ==>
      exists i :: 0 <= i < |cs| && ToLower(cs[i].name) == ToLower(name) && r == cs[i].uid
        && forall j :: 0 <= j < i ==> ToLower(cs[j].name) != ToLower(name)
  {
    FindIsFirst(cs, NameIs(name));
    match Find(cs, NameIs(name))
    case Some(c) => c.uid
    case None => ""
  }

  function NameContains(fragment: string): Product -> bool {
    (p: Product) => Contains(ToLower(p.name), ToLower(fragment))
  }

  /** pid(fragment): the uid of the first product whose lower-cased name
      contains the lower-cased fragment, or '' when there is none. */
  function Pid(ps: seq<Product>, fragment: string): (r: string)
    ensures (forall i :: 0 <= i < |ps| ==> !Contains(ToLower(ps[i].name), ToLower(fragment))) ==> r == ""
    ensures (exists i :: 0 <= i < |ps| && Contains(ToLower(ps[i].name), ToLower(fragment))) ==>
      exists i :: 0 <= i < |ps| && Contains(ToLower(ps[i].name), ToLower(fragment)) && r == ps[i].uid
        && forall j :: 0 <= j < i ==> !Contains(ToLower(ps[j].name), ToLower(fragment))
  {
    FindIsFirst(ps, NameContains(fragment));
    match Find(ps, NameContains(fragment))
    case Some(p) => p.uid
    case None => ""
  }

  // ---- stock recalculation ----

  /** The recalculated stock of the product with this uid: the signed quantities
      of its movements summed from 0, then raised to 0 if negative. */
  function RefoldStock(ms: seq<StockMovement>, uid: string): (r: int)
    ensures r >= 0
  {
    Max0(SumBy(Filter(ms, ProductMovesFor(uid)), StockChange))
  }

  /** Only the movements of the product contribute: the others count as 0. */
  lemma RefoldCountsOnlyOwnMovements(ms: seq<StockMovement>, uid: string)
    ensures RefoldStock(ms, uid) == Max0(SumBy(ms, Restrict(ProductMovesFor(uid), StockChange)))
  {
    FilterSum(ms, ProductMovesFor(uid), StockChange);
  }

  /** The recalculated stock does not depend on the order of the movements. */
  lemma RefoldOrderIndependent(ms: seq<StockMovement>, ns: seq<StockMovement>, uid: string)
    requires multiset(ms) == multiset(ns)
    ensures RefoldStock(ms, uid) == RefoldStock(ns, uid)
  {
    RefoldCountsOnlyOwnMovements(ms, uid);
    RefoldCountsOnlyOwnMovements(ns, uid);
    SumByPermutation(ms, ns, Restrict(ProductMovesFor(uid), StockChange));
  }

  /** One product after recalculation. */
  function Recalculated1(p: Product, ms: seq<StockMovement>, stamp: string): (r: Product)
    ensures r.uid == p.uid && r.currentStock == RefoldStock(ms, p.uid) && r.updatedAt == stamp
    ensures r.(currentStock := p.currentStock, updatedAt := p.updatedAt) == p
  {
    p.(currentStock := RefoldStock(ms, p.uid), updatedAt := stamp)
  }

  /** The products after recalculation: each gets the refolded stock of its uid. */
  function Recalculated(ps: seq<Product>, ms: seq<StockMovement>, stamp: string): (r: seq<Product>)
    ensures |r| == |ps|
    ensures forall k :: 0 <= k < |ps| ==> r[k] == Recalculated1(ps[k], ms, stamp)
  {
    Map(ps, (p: Product) => Recalculated1(p, ms, stamp))
  }

  /** The inner loop over the movements of one product: a sale subtracts its
      quantity, anything else adds it. */
  method SumMovements(movements: seq<StockMovement>) returns (stock: int)
    ensures stock == SumBy(movements, StockChange)
  {
    stock := 0;
    var j := 0;
    while j < |movements|
      invariant 0 <= j <= |movements|
      invariant stock == SumBy(movements[..j], StockChange)
    {
      var m := movements[j];
      assert movements[..j + 1] == movements[..j] + [m];
      SumByConcat(movements[..j], [m], StockChange);
      if m.movementType == Sale {
        stock := stock - m.quantity;
      } else {
        stock := stock + m.quantity;
      }
      j := j + 1;
    }
    assert movements[..j] == movements;
  }

  /** The outer loop: every product's stock is recalculated from the movements
      table, selecting the product's movements by product id. */
  method RecalculateStock(db: Db, stamp: string)
    modifies db
    ensures db.Snapshot() == old(db.Snapshot()).(products := Recalculated(old(db.products), old(db.stockMovements), stamp))
  {
    ghost var target := Recalculated(old(db.products), old(db.stockMovements), stamp);
    var k := 0;
    while k < |db.products|
      invariant 0 <= k <= |db.products| == |old(db.products)|
      invariant db.Snapshot() == old(db.Snapshot()).(products := db.products)
      invariant forall i :: 0 <= i < k ==> db.products[i] == target[i]
      invariant forall i :: k <= i < |db.products| ==> db.products[i] == old(db.products)[i]
    {
      var p := db.products[k];
      var stock := SumMovements(Filter(db.stockMovements, ProductMovesFor(p.uid)));
      stock := Max0(stock);
      db.products := db.products[k := p.(currentStock := stock, updatedAt := stamp)];
      k := k + 1;
    }
    assert db.products == target;
  }

  // ---- seeding ----

  /** The tables after seedHistoricalData: nothing changes when any transaction
      exists already; otherwise the records are appended and every product's
      stock is recalculated from the whole movements table. */
  function SeededHistory(t: Tables, txns: seq<Transaction>, moves: seq<StockMovement>,
                         events: seq<MissionEvent>, stamp: string): (r: Tables)
    ensures |t.transactions| > 0 ==> r == t
    ensures |t.transactions| == 0 ==>
      r.transactions == txns && r.stockMovements == t.stockMovements + moves
      && r.events == t.events + events && r.circuits == t.circuits && r.documents == t.documents
      && r.products == Recalculated(t.products, t.stockMovements + moves, stamp)
  {
    if |t.transactions| > 0 then t
    else t.(transactions := txns, stockMovements := t.stockMovements + moves, events := t.events + events,
            products := Recalculated(t.products, t.stockMovements + moves, stamp))
  }

  /** Seeding twice adds nothing more than seeding once (the seed list is not empty). */
  lemma SeedHistoryIdempotent(t: Tables, txns: seq<Transaction>, moves: seq<StockMovement>,
                              events: seq<MissionEvent>, stamp: string, stamp2: string)
    requires |txns| > 0
    ensures SeededHistory(SeededHistory(t, txns, moves, events, stamp), txns, moves, events, stamp2)
         == SeededHistory(t, txns, moves, events, stamp)
  {
  }

  method SeedHistoricalData(db: Db, txns: seq<Transaction>, moves: seq<StockMovement>,
                            events: seq<MissionEvent>, stamp: string)
    modifies db
    ensures db.Snapshot() == SeededHistory(old(db.Snapshot()), txns, moves, events, stamp)
  {
    if |db.transactions| > 0 {
      return;
    }
    db.transactions := db.transactions + txns;
    db.stockMovements := db.stockMovements + moves;
    db.events := db.events + events;
    RecalculateStock(db, stamp);
  }

  // ---- the two stock rules side by side ----

  function SumInts(ds: seq<int>): int {
    if ds == [] then 0 else ds[0] + SumInts(ds[1..])
  }

  lemma {:induction false} SumIntsSnoc(ds: seq<int>, d: int)
    ensures SumInts(ds + [d]) == SumInts(ds) + d
  {
    if ds != [] {
      assert (ds + [d])[1..] == ds[1..] + [d];
      SumIntsSnoc(ds[1..], d);
    }
  }

  lemma {:induction false} SumByMap<T>(s: seq<T>, f: T -> int)
    ensures SumBy(s, f) == SumInts(Map(s, f))
  {
    if s != [] {
      SumByMap(s[1..], f);
      assert Map(s, f)[1..] == Map(s[1..], f);
    }
  }

  /** Clamping only ever raises the stock, so the incremental rule never ends
      below the refold rule. */
  lemma {:induction false} IncrementalAtLeastRefold(s: int, ds: seq<int>)
    requires s >= 0
    ensures Incremental(s, ds) >= s + SumInts(ds) && Incremental(s, ds) >= 0
    decreases |ds|
  {
    if ds != [] {
      IncrementalAtLeastRefold(Max0(s + ds[0]), ds[1..]);
    }
  }

  /** The rules agree while no running total dips below zero. */
  lemma {:induction false} IncrementalWithoutDip(s: int, ds: seq<int>)
    requires s >= 0
    requires forall k :: 0 <= k <= |ds| ==> s + SumInts(ds[..k]) >= 0
    ensures Incremental(s, ds) == s + SumInts(ds)
    decreases |ds|
  {
    if ds != [] {
      assert ds[..1] == [ds[0]];
      assert [ds[0]][1..] == [];
      assert s + SumInts(ds[..1]) >= 0;
      assert SumInts(ds[..1]) == ds[0];
      forall k | 0 <= k <= |ds[1..]| ensures (s + ds[0]) + SumInts(ds[1..][..k]) >= 0 {
        assert ds[..k + 1] == [ds[0]] + ds[1..][..k];
        assert ([ds[0]] + ds[1..][..k])[1..] == ds[1..][..k];
      }
      IncrementalWithoutDip(s + ds[0], ds[1..]);
      assert ds[..|ds|] == ds;
    }
  }

  /** A sale of 5 from 0 followed by a purchase of 5: 5 by the incremental rule,
      0 by the refold. */
  lemma RulesDisagreeAfterDip()
    ensures Incremental(0, [-5, 5]) == 5
    ensures Max0(0 + SumInts([-5, 5])) == 0
  {
    assert [-5, 5][1..] == [5];
  }

  lemma RefoldAsSumInts(ms: seq<StockMovement>, uid: string)
    ensures RefoldStock(ms, uid) == Max0(SumInts(Map(Filter(ms, ProductMovesFor(uid)), StockChange)))
  {
    SumByMap(Filter(ms, ProductMovesFor(uid)), StockChange);
  }

  lemma NoDipAsSumInts(own: seq<StockMovement>)
    requires forall k :: 0 <= k <= |own| ==> SumBy(own[..k], StockChange) >= 0
    ensures forall k :: 0 <= k <= |own| ==> 0 + SumInts(Map(own, StockChange)[..k]) >= 0
  {
    forall k | 0 <= k <= |own| ensures 0 + SumInts(Map(own, StockChange)[..k]) >= 0 {
      SumByMap(own[..k], StockChange);
      assert Map(own[..k], StockChange) == Map(own, StockChange)[..k];
    }
  }

  /** Applied to a product whose stock starts at 0, the incremental rule of
      addStockMovement never ends below the recalculated stock. */
  lemma IncrementalNotBelowRefold(ps: seq<Product>, ms: seq<StockMovement>, stamp: string, i: nat)
    requires i < |ps| && FirstIndex(ps, ProductHasUid(ps[i].uid)) == Some(i) && ps[i].currentStock == 0
    ensures ApplyMovements(ps, ms, stamp)[i].currentStock >= RefoldStock(ms, ps[i].uid)
  {
    var ds := Map(Filter(ms, ProductMovesFor(ps[i].uid)), StockChange);
    ApplyMovementsIsIncremental(ps, ms, stamp, i);
    RefoldAsSumInts(ms, ps[i].uid);
    IncrementalAtLeastRefold(0, ds);
    assert ApplyMovements(ps, ms, stamp)[i].currentStock == Incremental(0, ds);
  }

  /** ... and ends exactly at it when none of the product's running totals goes negative. */
  lemma IncrementalEqualsRefoldWithoutDip(ps: seq<Product>, ms: seq<StockMovement>, stamp: string, i: nat)
    requires i < |ps| && FirstIndex(ps, ProductHasUid(ps[i].uid)) == Some(i) && ps[i].currentStock == 0
    requires forall k :: 0 <= k <= |Filter(ms, ProductMovesFor(ps[i].uid))| ==>
               SumBy(Filter(ms, ProductMovesFor(ps[i].uid))[..k], StockChange) >= 0
    ensures ApplyMovements(ps, ms, stamp)[i].currentStock == RefoldStock(ms, ps[i].uid)
  {
    var own := Filter(ms, ProductMovesFor(ps[i].uid));
    var ds := Map(own, StockChange);
    ApplyMovementsIsIncremental(ps, ms, stamp, i);
    RefoldAsSumInts(ms, ps[i].uid);
    NoDipAsSumInts(own);
    IncrementalWithoutDip(0, ds);
    assert ds[..|ds|] == ds;
    assert SumInts(ds) >= 0;
    assert ApplyMovements(ps, ms, stamp)[i].currentStock == SumInts(ds);
  }
}
