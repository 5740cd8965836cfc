/** seedDatabase: the default circuits and products, added only to an empty
    circuits table, followed by the historical seeding. */
module Seed {
  import opened Types
  import opened Constants
  import opened Database
  import opened SeedHistorical

  /** One active circuit per default entry, with a generated uid each. */
  function DefaultCircuitRecords(uids: seq<string>, stamp: string): (r: seq<Circuit>)
    requires |uids| == |DEFAULT_CIRCUITS|
    ensures |r| == |DEFAULT_CIRCUITS|
    ensures forall i :: 0 <= i < |r| ==>
      r[i].uid == uids[i] && r[i].name == DEFAULT_CIRCUITS[i].name && r[i].country == DEFAULT_CIRCUITS[i].country
      && r[i].subBranches == Some(DEFAULT_CIRCUITS[i].subBranches) && r[i].contactPerson.None?
      && r[i].isActive && r[i].createdAt == stamp
  {
    seq(|uids|, i requires 0 <= i < |uids| =>
      Circuit(uids[i], DEFAULT_CIRCUITS[i].name, DEFAULT_CIRCUITS[i].country,
              Some(DEFAULT_CIRCUITS[i].subBranches), None, true, stamp))
  }

  /** One product per default entry, with stock 0 and the listed prices. */
  function DefaultProductRecords(uids: seq<string>, stamp: string): (r: seq<Product>)
    requires |uids| == |DEFAULT_PRODUCTS|
    ensures |r| == |DEFAULT_PRODUCTS|
    ensures forall i :: 0 <= i < |r| ==>
      r[i].uid == uids[i] && r[i].name == DEFAULT_PRODUCTS[i].name
      && r[i].costPrice == DEFAULT_PRODUCTS[i].costPrice && r[i].sellingPrice == DEFAULT_PRODUCTS[i].sellingPrice
      && r[i].currentStock == 0 && r[i].reorderLevel == DEFAULT_PRODUCTS[i].reorderLevel
      && r[i].category == DEFAULT_PRODUCTS[i].category && r[i].createdAt == stamp && r[i].updatedAt == stamp
  {
    seq(|uids|, i requires 0 <= i < |uids| =>
      Product(uids[i], DEFAULT_PRODUCTS[i].name, DEFAULT_PRODUCTS[i].costPrice, DEFAULT_PRODUCTS[i].sellingPrice,
              0, DEFAULT_PRODUCTS[i].reorderLevel, DEFAULT_PRODUCTS[i].category, stamp, stamp))
  }

  /** The fresh values one run of seedDatabase draws: uids for the default
      circuits and products, the already built historical records and a timestamp. */
  datatype SeedInput = SeedInput(
    circuitUids: seq<string>,
    productUids: seq<string>,
    txns: seq<Transaction>,
    moves: seq<StockMovement>,
    events: seq<MissionEvent>,
    stamp: string)

  predicate ValidInput(s: SeedInput) {
    |s.circuitUids| == |DEFAULT_CIRCUITS| && |s.productUids| == |DEFAULT_PRODUCTS| && |s.txns| > 0
  }

  /** The defaults are added only when the circuits table is empty. */
  function SeededDefaults(t: Tables, s: SeedInput): (r: Tables)
    requires ValidInput(s)
    ensures |t.circuits| > 0 ==> r == t
    ensures |t.circuits| == 0 ==>
      r == t.(circuits := DefaultCircuitRecords(s.circuitUids, s.stamp),
              products := t.products + DefaultProductRecords(s.productUids, s.stamp))
  {
    if |t.circuits| == 0 then
      t.(circuits := t.circuits + DefaultCircuitRecords(s.circuitUids, s.stamp),
         products := t.products + DefaultProductRecords(s.productUids, s.stamp))
    else t
  }

  /** The tables after seedDatabase. */
  function SeededDatabase(t: Tables, s: SeedInput): Tables
    requires ValidInput(s)
  {
    SeededHistory(SeededDefaults(t, s), s.txns, s.moves, s.events, s.stamp)
  }

  /** A second seedDatabase adds nothing: the circuits table and the
      transactions table are both non-empty after the first. */
  lemma SeedDatabaseIdempotent(t: Tables, s1: SeedInput, s2: SeedInput)
    requires ValidInput(s1) && ValidInput(s2)
    ensures SeededDatabase(SeededDatabase(t, s1), s2) == SeededDatabase(t, s1)
  {
    var d := SeededDefaults(t, s1);
    var once := SeededDatabase(t, s1);
    assert |d.circuits| > 0;
    assert once.circuits == d.circuits || |d.transactions| > 0;
    assert |once.circuits| > 0;
    assert |once.transactions| > 0;
  }

  /** Seeding an empty database yields exactly the eight default circuits. */
  lemma SeedEmptyCircuits(s: SeedInput)
    requires ValidInput(s)
    ensures SeededDatabase(EMPTY_TABLES, s).circuits == DefaultCircuitRecords(s.circuitUids, s.stamp)
    ensures |SeededDatabase(EMPTY_TABLES, s).products| == 13
  {
  }

  method SeedDatabase(db: Db, s: SeedInput)
    requires ValidInput(s)
    modifies db
    ensures db.Snapshot() == SeededDatabase(old(db.Snapshot()), s)
  {
    if |db.circuits| == 0 {
      db.circuits := db.circuits + DefaultCircuitRecords(s.circuitUids, s.stamp);
      db.products := db.products + DefaultProductRecords(s.productUids, s.stamp);
    }
    SeedHistoricalData(db, s.txns, s.moves, s.events, s.stamp);
  }
}
