/** The application's constant tables: transaction categories, default circuits
    and products (prices in cents) and the quarter names. */
module Constants {
  import opened Types
  import opened Seqs

  datatype CategoryOption = CategoryOption(value: string, text: string, icon: string, optType: TxnType)

  const RECEIPT_CATEGORIES: seq<CategoryOption> := [
    CategoryOption("circuit_contribution", "Circuit Contribution", "Building2", Receipt),
    CategoryOption("donation_received", "Donation Received", "Heart", Receipt),
    CategoryOption("merchandise_sale", "Merchandise Sale", "ShoppingBag", Receipt),
    CategoryOption("event_income", "Event Income", "Calendar", Receipt),
    CategoryOption("debt_repayment", "Debt Repayment", "RotateCcw", Receipt),
    CategoryOption("opening_balance", "Opening Balance", "Wallet", Receipt),
    CategoryOption("other", "Other Income", "Plus", Receipt)
  ]

  const PAYMENT_CATEGORIES: seq<CategoryOption> := [
    CategoryOption("donation_given", "Donation Given", "HeartHandshake", Payment),
    CategoryOption("merchandise_purchase", "Merchandise Purchase", "Package", Payment),
    CategoryOption("transportation", "Transportation", "Truck", Payment),
    CategoryOption("postage", "Postage", "Mail", Payment),
    CategoryOption("event_expense", "Event Expense", "CalendarMinus", Payment),
    CategoryOption("airtime", "Airtime / Zoom", "Phone", Payment),
    CategoryOption("stationery", "Stationery", "Pencil", Payment),
    CategoryOption("gift", "Gift / Send-off", "Gift", Payment),
    CategoryOption("honorarium", "Honorarium", "Award", Payment),
    CategoryOption("other", "Other Expense", "Minus", Payment)
  ]

  const ALL_CATEGORIES: seq<CategoryOption> := RECEIPT_CATEGORIES + PAYMENT_CATEGORIES

  /** No two options of a list share a value. */
  predicate DistinctValues(opts: seq<CategoryOption>) {
    forall i, j :: 0 <= i < j < |opts| ==> opts[i].value != opts[j].value
  }

  /** Every receipt option is of type receipt, and the receipt values are distinct. */
  lemma ReceiptCategoriesWellFormed()
    ensures forall i :: 0 <= i < |RECEIPT_CATEGORIES| ==> RECEIPT_CATEGORIES[i].optType == Receipt
    ensures DistinctValues(RECEIPT_CATEGORIES)
  {
  }

  /** Every payment option is of type payment, and the payment values are distinct. */
  lemma PaymentCategoriesWellFormed()
    ensures forall i :: 0 <= i < |PAYMENT_CATEGORIES| ==> PAYMENT_CATEGORIES[i].optType == Payment
    ensures DistinctValues(PAYMENT_CATEGORIES)
  {
  }

  /** ALL_CATEGORIES.find(c => c.value === value)?.label || value */
  function CategoryDisplayLabel(value: string): (r: string)
    ensures (forall i :: 0 <= i < |ALL_CATEGORIES| ==> ALL_CATEGORIES[i].value != value) ==> r == value
    ensures forall i :: 0 <= i < |ALL_CATEGORIES| && ALL_CATEGORIES[i].value == value
                        && (forall j :: 0 <= j < i ==> ALL_CATEGORIES[j].value != value)
                        ==> r == (if ALL_CATEGORIES[i].text != "" then ALL_CATEGORIES[i].text else value)
  {
    match Find(ALL_CATEGORIES, (o: CategoryOption) => o.value == value)
    case Some(o) => if o.text != "" then o.text else value
    case None => value
  }

  /** 'other' is a value of both lists; the first match wins, so a payment
      filed under 'other' is labelled with the receipt list's "Other Income". */
  lemma OtherLabelIsIncome()
    ensures RECEIPT_CATEGORIES[6].value == "other" && PAYMENT_CATEGORIES[9].value == "other"
    ensures PAYMENT_CATEGORIES[9].text == "Other Expense"
    ensures CategoryDisplayLabel("other") == "Other Income"
  {
    var p := (o: CategoryOption) => o.value == "other";
    assert forall j :: 0 <= j < 6 ==> !p(ALL_CATEGORIES[j]);
    assert p(ALL_CATEGORIES[6]);
    assert FirstIndex(ALL_CATEGORIES, p) == Some(6);
  }

  // ---- default circuits and products ----

  datatype DefaultCircuit = DefaultCircuit(name: string, country: string, subBranches: seq<string>)

  const DEFAULT_CIRCUITS: seq<DefaultCircuit> := [
    DefaultCircuit("Hamburg", "Germany", ["Hannover", "Wesley"]),
    DefaultCircuit("Stuttgart", "Germany", []),
    DefaultCircuit("Dusseldorf", "Germany", []),
    DefaultCircuit("Holland", "Netherlands", []),
    DefaultCircuit("Italy", "Italy", ["Modena"]),
    DefaultCircuit("Belgium", "Belgium", []),
    DefaultCircuit("Finland", "Finland", []),
    DefaultCircuit("UK", "United Kingdom", [])
  ]

  datatype DefaultProduct = DefaultProduct(
    name: string, costPrice: int, sellingPrice: int, category: ProductCategory, reorderLevel: int)

  const DEFAULT_PRODUCTS: seq<DefaultProduct> := [
    DefaultProduct("Jacket (New)", 3500, 3700, Clothing, 10),
    DefaultProduct("Tree of Life (Big)", 3800, 7000, Accessory, 5),
    DefaultProduct("Regalia", 300, 800, Regalia, 10),
    DefaultProduct("Officer's Badge", 300, 500, Badge, 10),
    DefaultProduct("Gold Badge", 600, 1000, Badge, 3),
    DefaultProduct("Enrolment Badge", 200, 400, Badge, 10),
    DefaultProduct("Headgear (Cap)", 200, 400, Accessory, 10),
    DefaultProduct("Handbook", 250, 400, Publication, 20),
    DefaultProduct("Lacoste T-Shirt", 500, 800, Clothing, 10),
    DefaultProduct("Dues Card", 30, 200, Accessory, 20),
    DefaultProduct("Scarf", 360, 600, Accessory, 10),
    DefaultProduct("Europe Cloth", 2143, 3000, Clothing, 10),
    DefaultProduct("Enrolment Service Book", 136, 300, Publication, 5)
  ]

  lemma DefaultsWellFormed()
    ensures |DEFAULT_CIRCUITS| == 8 && |DEFAULT_PRODUCTS| == 13
    ensures forall i :: 0 <= i < |DEFAULT_PRODUCTS| ==>
      DEFAULT_PRODUCTS[i].sellingPrice >= DEFAULT_PRODUCTS[i].costPrice && DEFAULT_PRODUCTS[i].reorderLevel > 0
  {
  }

  const CURRENCY_SYMBOL := "€"
  const ORGANIZATION_NAME := "Europe Mission"

  // ---- quarters ----

  /** QUARTER_LABELS[q]: defined for 1..4 only. */
  function QuarterLabel(q: int): (r: Option<string>)
    ensures r.Some? <==> 1 <= q <= 4
  {
    if q == 1 then Some("January – March")
    else if q == 2 then Some("April – June")
    else if q == 3 then Some("July – September")
    else if q == 4 then Some("October – December")
    else None
  }

  /** QUARTER_MONTHS[q]: the three month names of quarter q. */
  function QuarterMonths(q: int): (r: Option<seq<string>>)
    ensures r.Some? <==> 1 <= q <= 4
    ensures r.Some? ==> |r.value| == 3
  {
    if q == 1 then Some(["January", "February", "March"])
    else if q == 2 then Some(["April", "May", "June"])
    else if q == 3 then Some(["July", "August", "September"])
    else if q == 4 then Some(["October", "November", "December"])
    else None
  }
}
