/** The six IndexedDB tables, held in memory in insertion order. */
module Database {
  import opened Types

  /** The contents of all six tables at one moment. */
  datatype Tables = Tables(
    transactions: seq<Transaction>,
    circuits: seq<Circuit>,
    products: seq<Product>,
    stockMovements: seq<StockMovement>,
    events: seq<MissionEvent>,
    documents: seq<GeneratedDocument>)

  const EMPTY_TABLES: Tables := Tables([], [], [], [], [], [])

  class Db {
    var transactions: seq<Transaction>
    var circuits: seq<Circuit>
    var products: seq<Product>
    var stockMovements: seq<StockMovement>
    var events: seq<MissionEvent>
    var documents: seq<GeneratedDocument>

    /** A freshly opened database has six empty tables. */
    constructor()
      ensures Snapshot() == EMPTY_TABLES
    {
      transactions := [];
      circuits := [];
      products := [];
      stockMovements := [];
      events := [];
      documents := [];
    }

    function Snapshot(): Tables
      reads this
    {
      Tables(transactions, circuits, products, stockMovements, events, documents)
    }
  }
}
