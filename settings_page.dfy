/** The settings page's data operations: the backup envelope, import with a
    shape check and replace-all, and delete-all followed by reseeding. */
module SettingsPage {
  import opened Types
  import opened Database
  import opened Seed

  /** The parsed backup file. A field absent from the file is None; the version
      is the number found there (0 is falsy). */
  datatype Backup = Backup(
    version: Option<int>,
    exportedAt: string,
    transactions: Option<seq<Transaction>>,
    circuits: Option<seq<Circuit>>,
    products: Option<seq<Product>>,
    stockMovements: Option<seq<StockMovement>>,
    events: Option<seq<MissionEvent>>,
    documents: Option<seq<GeneratedDocument>>)

  /** handleExport: version 1 and all six collections. */
  function ExportBackup(t: Tables, stamp: string): (b: Backup)
    ensures b.version == Some(1) && b.exportedAt == stamp
    ensures b.transactions == Some(t.transactions) && b.circuits == Some(t.circuits)
    ensures b.products == Some(t.products) && b.stockMovements == Some(t.stockMovements)
    ensures b.events == Some(t.events) && b.documents == Some(t.documents)
  {
    Backup(Some(1), stamp, Some(t.transactions), Some(t.circuits), Some(t.products),
           Some(t.stockMovements), Some(t.events), Some(t.documents))
  }

  /** `!data.version || !data.transactions` rejects the file: a missing or zero
      version, or a missing transactions array (an empty array is accepted). */
  predicate ValidBackup(b: Backup) {
    b.version.Some? && b.version.value != 0 && b.transactions.Some?
  }

  /** The tables a valid import leaves: each is the backup's array, or empty
      when the backup has none. */
  function ImportedTables(b: Backup): (t: Tables)
    ensures t.transactions == b.transactions.GetOr([]) && t.circuits == b.circuits.GetOr([])
    ensures t.products == b.products.GetOr([]) && t.stockMovements == b.stockMovements.GetOr([])
    ensures t.events == b.events.GetOr([]) && t.documents == b.documents.GetOr([])
  {
    Tables(b.transactions.GetOr([]), b.circuits.GetOr([]), b.products.GetOr([]),
           b.stockMovements.GetOr([]), b.events.GetOr([]), b.documents.GetOr([]))
  }

  /** Export followed by import restores all six tables. */
  lemma ExportImportRoundTrip(t: Tables, stamp: string)
    ensures ValidBackup(ExportBackup(t, stamp))
    ensures ImportedTables(ExportBackup(t, stamp)) == t
  {
  }

  /** `if (rows?.length) await table.bulkAdd(rows)` */
  function BulkAddIfAny<T>(table: seq<T>, rows: Option<seq<T>>): (r: seq<T>)
    ensures r == table + rows.GetOr([])
  {
    if rows.Some? && |rows.value| > 0 then table + rows.value else table
  }

  method ImportBackup(db: Db, b: Backup) returns (accepted: bool)
    modifies db
    ensures accepted == ValidBackup(b)
    ensures accepted ==> db.Snapshot() == ImportedTables(b)
    ensures !accepted ==> db.Snapshot() == old(db.Snapshot())
  {
    if !ValidBackup(b) {
      return false;
    }
    db.transactions := [];
    db.circuits := [];
    db.products := [];
    db.stockMovements := [];
    db.events := [];
    db.documents := [];
    db.transactions := BulkAddIfAny(db.transactions, b.transactions);
    db.circuits := BulkAddIfAny(db.circuits, b.circuits);
    db.products := BulkAddIfAny(db.products, b.products);
    db.stockMovements := BulkAddIfAny(db.stockMovements, b.stockMovements);
    db.events := BulkAddIfAny(db.events, b.events);
    db.documents := BulkAddIfAny(db.documents, b.documents);
    return true;
  }

  /** handleDeleteAll: all six tables are cleared, then seedDatabase runs. */
  method DeleteAll(db: Db, s: SeedInput)
    requires ValidInput(s)
    modifies db
    ensures db.Snapshot() == SeededDatabase(EMPTY_TABLES, s)
  {
    db.transactions := [];
    db.circuits := [];
    db.products := [];
    db.stockMovements := [];
    db.events := [];
    db.documents := [];
    SeedDatabase(db, s);
  }

  /** After delete-all only the defaults and the seeded history exist. */
  lemma DeleteAllLeavesDefaults(s: SeedInput)
    requires ValidInput(s)
    ensures SeededDatabase(EMPTY_TABLES, s).circuits == DefaultCircuitRecords(s.circuitUids, s.stamp)
    ensures SeededDatabase(EMPTY_TABLES, s).transactions == s.txns
    ensures SeededDatabase(EMPTY_TABLES, s).documents == []
  {
  }
}
