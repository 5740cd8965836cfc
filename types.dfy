/** Records of the bookkeeping application: transactions, circuits, products,
    stock movements, events, generated documents and the mascot's tips.
    Money is kept in integer cents, dates as (year, month 0..11, day). */
module Types {

  datatype Option<+T> = None | Some(value: T) {
    function GetOr(default: T): T {
      match this
      case Some(v) => v
      case None => default
    }
  }

  /** `text || undefined`: an empty text field is stored as absent. */
  function NonEmpty(s: string): (r: Option<string>)
    ensures r.None? <==> s == ""
    ensures r.Some? ==> r.value == s
  {
    if s == "" then None else Some(s)
  }

  /** A reporting quarter, 1 to 4. */
  type Quarter = q: int | 1 <= q <= 4 witness 1

  /** A zero-based calendar month, as JavaScript's getMonth gives it. */
  type Month = m: int | 0 <= m < 12

  datatype Date = Date(year: int, month: Month, day: int)

  datatype TxnType = Receipt | Payment

  datatype TransactionItem = TransactionItem(
    productId: string,
    productName: string,
    quantity: int,
    unitPrice: int,
    total: int)

  datatype Transaction = Transaction(
    uid: string,
    date: Date,
    txnType: TxnType,
    category: string,
    subcategory: Option<string>,
    description: string,
    amount: int,
    circuitId: Option<string>,
    quarter: Quarter,
    year: int,
    eventId: Option<string>,
    items: Option<seq<TransactionItem>>,
    notes: Option<string>,
    createdAt: string,
    updatedAt: string)

  datatype Circuit = Circuit(
    uid: string,
    name: string,
    country: string,
    subBranches: Option<seq<string>>,
    contactPerson: Option<string>,
    isActive: bool,
    createdAt: string)

  datatype ProductCategory = Regalia | Badge | Clothing | Publication | Accessory

  datatype Product = Product(
    uid: string,
    name: string,
    costPrice: int,
    sellingPrice: int,
    currentStock: int,
    reorderLevel: int,
    category: ProductCategory,
    createdAt: string,
    updatedAt: string)

  datatype MovementType = Purchase | Sale | Adjustment

  datatype StockMovement = StockMovement(
    uid: string,
    productId: string,
    movementType: MovementType,
    quantity: int,
    unitPrice: int,
    circuitId: Option<string>,
    transactionId: Option<string>,
    date: Date,
    quarter: Quarter,
    year: int,
    notes: Option<string>,
    createdAt: string)

  datatype EventType = Retreat | Conference | Inauguration | OtherEvent

  datatype MissionEvent = MissionEvent(
    uid: string,
    name: string,
    eventType: EventType,
    startDate: Date,
    endDate: Date,
    notes: Option<string>,
    createdAt: string)

  datatype DocumentType =
    QuarterlyReport | AnnualReport | CircuitReport | StockReport | Invoice | ReceiptDoc | PnlReport

  datatype GeneratedDocument = GeneratedDocument(
    uid: string,
    docType: DocumentType,
    title: string,
    quarter: Option<int>,
    year: int,
    data: Option<string>,
    generatedAt: string)

  datatype Pose =
    Greeting | Presenting | Thinking | Celebrating | Pointing | Clipboard | Warning | Desk | Thumbsup | Waving

  datatype Priority = Low | Medium | High

  datatype Tip = Tip(
    id: string,
    message: string,
    action: Option<string>,
    actionRoute: Option<string>,
    priority: Priority,
    dismissed: bool)

  /** The text of a numeric form field, seen through parseFloat/parseInt:
      the empty string, text that parses to NaN, or text that parses to a number
      (cents for money fields, units for quantity fields). */
  datatype NumText = Empty | Invalid | Num(value: int)

  /** `parseFloat(text) || d` and `parseInt(text) || d`: NaN, empty text and 0 give d. */
  function OrDefault(t: NumText, d: int): (r: int)
    ensures t.Num? && t.value != 0 ==> r == t.value
    ensures !(t.Num? && t.value != 0) ==> r == d
  {
    if t.Num? && t.value != 0 then t.value else d
  }

  /** A key that orders dates as JavaScript's Date.getTime does, provided the
      month is in 0..11 and the day in 1..31; the function itself accepts any
      values. */
  function DateKey(d: Date): int {
    (d.year * 12 + d.month) * 32 + d.day
  }
}
