/** The circuits page: the circuit form (name, country, comma-separated
    sub-branches, contact), its save, and the per-circuit financial figures. */
module CircuitsPage {
  import opened Types
  import opened Seqs
  import opened Strings
  import opened Database
  import opened TransactionStore
  import opened CircuitStore

  // ---- sub-branches ----

  function NotEmpty(s: string): bool { s != "" }

  /** text.split(',').map((s) => s.trim()).filter(Boolean) */
  function ParseSubBranches(text: string): (r: seq<string>)
    ensures forall i :: 0 <= i < |r| ==> r[i] != "" && Trimmed(r[i]) && ',' !in r[i]
  {
    var pieces := Split(text, ',');
    var trimmed := Map(pieces, Trim);
    forall i | 0 <= i < |trimmed| ensures Trimmed(trimmed[i]) && ',' !in trimmed[i] {
      TrimIsTrimmed(pieces[i]);
      TrimIsInside(pieces[i]);
    }
    FilterMembers(trimmed, NotEmpty);
    var r := Filter(trimmed, NotEmpty);
    forall i | 0 <= i < |r| ensures r[i] != "" && Trimmed(r[i]) && ',' !in r[i] {
      assert r[i] in trimmed;
    }
    r
  }

  /** Every character of the trimmed text is one of the text's. */
  lemma TrimIsInside(s: string)
    ensures forall c :: c in Trim(s) ==> c in s
  {
    var t := TrimStart(s);
    TrimStartIsSuffix(s);
    TrimEndIsPrefix(t);
    forall c | c in Trim(s) ensures c in s {
      assert c in t;
    }
  }

  /** subBranches?.join(', ') || '' as openEdit fills the form. */
  function JoinSubBranches(bs: Option<seq<string>>): string {
    match bs
    case None => ""
    case Some(b) => Join(b, ", ")
  }

  /** A list of names the form can show and read back. */
  predicate CleanNames(bs: seq<string>) {
    forall i :: 0 <= i < |bs| ==> bs[i] != "" && Trimmed(bs[i]) && ',' !in bs[i]
  }

  function Padded(s: string): string { " " + s }

  /** Joining with ", " is joining with "," the names after the first, each
      preceded by a space. */
  lemma {:induction false} JoinCommaSpace(bs: seq<string>)
    requires |bs| >= 1
    ensures Join(bs, ", ") == Join([bs[0]] + Map(bs[1..], Padded), ",")
  {
    if |bs| > 1 {
      var rest := bs[1..];
      JoinCommaSpace(rest);
      var q := [bs[0]] + Map(bs[1..], Padded);
      assert q[1..] == [Padded(rest[0])] + Map(rest[1..], Padded);
      assert Join(bs, ", ") == bs[0] + ", " + Join(rest, ", ");
      assert Join(q, ",") == bs[0] + "," + Join(q[1..], ",");
      assert Padded(rest[0]) == " " + rest[0];
      JoinPadHead(rest);
    }
  }

  /** " " + join(rest) with "," is the padded list joined with ",". */
  lemma JoinPadHead(rest: seq<string>)
    requires |rest| >= 1
    ensures " " + Join([rest[0]] + Map(rest[1..], Padded), ",") == Join([Padded(rest[0])] + Map(rest[1..], Padded), ",")
  {
    var a := [rest[0]] + Map(rest[1..], Padded);
    var b := [Padded(rest[0])] + Map(rest[1..], Padded);
    assert a[1..] == b[1..];
    if |a| > 1 {
      assert Join(a, ",") == rest[0] + "," + Join(a[1..], ",");
      assert Join(b, ",") == " " + rest[0] + "," + Join(b[1..], ",");
    }
  }

  lemma TrimPadded(s: string)
    requires Trimmed(s)
    ensures Trim(Padded(s)) == s
  {
    TrimLeadingSpace(' ', s);
    TrimOfTrimmed(s);
  }

  /** Filling the form from a circuit and saving it gives back the same list
      of sub-branches when the names are non-empty, trimmed and comma-free. */
  lemma ParseJoinRoundTrip(bs: seq<string>)
    requires CleanNames(bs)
    ensures ParseSubBranches(JoinSubBranches(Some(bs))) == bs
  {
    if bs == [] {
      assert Split("", ',') == [""];
      assert Map([""], Trim) == [""];
    } else {
      JoinCommaSpace(bs);
      var q := [bs[0]] + Map(bs[1..], Padded);
      forall i | 0 <= i < |q| ensures ',' !in q[i] {
        if i > 0 {
          assert q[i] == " " + bs[i];
        }
      }
      SplitJoin(q, ',');
      var trimmed := Map(q, Trim);
      forall i | 0 <= i < |q| ensures trimmed[i] == bs[i] {
        if i == 0 {
          TrimOfTrimmed(bs[0]);
        } else {
          assert q[i] == Padded(bs[i]);
          TrimPadded(bs[i]);
        }
      }
      assert trimmed == bs;
      FilterKeepsAll(bs, NotEmpty);
    }
  }

  // ---- the form ----

  datatype CircuitForm = CircuitForm(name: string, country: string, subBranches: string, contact: string)

  const BLANK_CIRCUIT_FORM := CircuitForm("", "", "", "")

  /** openEdit: the form showing a circuit. */
  function FormOf(c: Circuit): CircuitForm {
    CircuitForm(c.name, c.country, JoinSubBranches(c.subBranches), c.contactPerson.GetOr(""))
  }

  /** Save is refused when the trimmed name or trimmed country is empty. */
  predicate SaveAllowed(f: CircuitForm) {
    Trim(f.name) != "" && Trim(f.country) != ""
  }

  /** The fields handleSave writes. */
  datatype CircuitData = CircuitData(name: string, country: string, subBranches: seq<string>, contactPerson: Option<string>)

  function DataOf(f: CircuitForm): (r: CircuitData)
    ensures r.name == Trim(f.name) && r.country == Trim(f.country)
    ensures r.contactPerson == NonEmpty(Trim(f.contact))
    ensures r.subBranches == ParseSubBranches(f.subBranches)
  {
    CircuitData(Trim(f.name), Trim(f.country), ParseSubBranches(f.subBranches), NonEmpty(Trim(f.contact)))
  }

  /** The new circuit: active, carrying the form's data. */
  function NewCircuit(d: CircuitData): (r: Circuit)
    ensures r.isActive
    ensures r.name == d.name && r.country == d.country && r.subBranches == Some(d.subBranches)
    ensures r.contactPerson == d.contactPerson
  {
    Circuit("", d.name, d.country, Some(d.subBranches), d.contactPerson, true, "")
  }

  function PatchOf(d: CircuitData): (r: CircuitPatch)
    ensures r.isActive.None?
    ensures r.name == Some(d.name) && r.country == Some(d.country)
    ensures r.subBranches == Some(Some(d.subBranches)) && r.contactPerson == Some(d.contactPerson)
  {
    CircuitPatch(Some(d.name), Some(d.country), Some(Some(d.subBranches)), Some(d.contactPerson), None)
  }

  /** A saved circuit has a non-empty, trimmed name and country, and a blank
      contact is stored as absent. */
  lemma SavedDataIsClean(f: CircuitForm)
    requires SaveAllowed(f)
    ensures var d := DataOf(f);
      d.name != "" && Trimmed(d.name) && d.country != "" && Trimmed(d.country)
      && CleanNames(d.subBranches)
      && (d.contactPerson.Some? ==> d.contactPerson.value != "" && Trimmed(d.contactPerson.value))
  {
    TrimIsTrimmed(f.name);
    TrimIsTrimmed(f.country);
    TrimIsTrimmed(f.contact);
  }

  /** A circuit whose fields are already in the shape a save leaves them. */
  predicate Clean(c: Circuit) {
    c.name != "" && Trimmed(c.name) && c.country != "" && Trimmed(c.country)
    && c.subBranches.Some? && CleanNames(c.subBranches.value)
    && c.contactPerson != Some("") && (c.contactPerson.Some? ==> Trimmed(c.contactPerson.value))
  }

  lemma ContactRoundTrip(c: Option<string>)
    requires c != Some("") && (c.Some? ==> Trimmed(c.value))
    ensures NonEmpty(Trim(c.GetOr(""))) == c
  {
    if c.Some? {
      TrimOfTrimmed(c.value);
    }
  }

  lemma CleanFormData(c: Circuit)
    requires Clean(c)
    ensures SaveAllowed(FormOf(c))
    ensures DataOf(FormOf(c)) == CircuitData(c.name, c.country, c.subBranches.value, c.contactPerson)
  {
    TrimOfTrimmed(c.name);
    TrimOfTrimmed(c.country);
    ContactRoundTrip(c.contactPerson);
    ParseJoinRoundTrip(c.subBranches.value);
  }

  /** Opening a clean circuit for editing and saving without a change leaves
      it as it was. */
  lemma UneditedSaveKeepsCircuit(c: Circuit)
    requires Clean(c)
    ensures SaveAllowed(FormOf(c))
    ensures MergeCircuit(c, PatchOf(DataOf(FormOf(c)))) == c
  {
    CleanFormData(c);
  }

  /** handleSave: nothing when refused; otherwise the edited circuit is updated
      or a new active circuit is added. */
  method SaveCircuit(db: Db, f: CircuitForm, editing: Option<Circuit>, uid: string, stamp: string)
    modifies db
    ensures !SaveAllowed(f) ==> db.Snapshot() == old(db.Snapshot())
    ensures SaveAllowed(f) && editing.Some? ==>
      db.Snapshot() == old(db.Snapshot()).(circuits := CircuitsUpdated(old(db.circuits), editing.value.uid, PatchOf(DataOf(f))))
    ensures SaveAllowed(f) && editing.None? ==>
      db.Snapshot() == old(db.Snapshot()).(circuits := old(db.circuits) + [StampedCircuit(NewCircuit(DataOf(f)), uid, stamp)])
  {
    if !SaveAllowed(f) {
      return;
    }
    if editing.Some? {
      UpdateCircuit(db, editing.value.uid, PatchOf(DataOf(f)));
    } else {
      AddCircuit(db, NewCircuit(DataOf(f)), uid, stamp);
    }
  }

  // ---- per-circuit figures ----

  datatype CircuitStats = CircuitStats(totalReceipts: int, totalPayments: int, balance: int, transactionCount: int)

  function OfCircuit(circuitId: string): Transaction -> bool {
    (t: Transaction) => t.circuitId == Some(circuitId)
  }

  function GetCircuitStats(transactions: seq<Transaction>, circuitId: string): CircuitStats {
    var own := Filter(transactions, OfCircuit(circuitId));
    var receipts := SumBy(Filter(own, IsOfType(Receipt)), AmountOf);
    var payments := SumBy(Filter(own, IsOfType(Payment)), AmountOf);
    CircuitStats(receipts, payments, receipts - payments, |own|)
  }

  /** The figures partition the circuit's transactions: the receipts and
      payments add up to all its amounts, and the count is the number of
      transactions carrying its id. */
  lemma CircuitStatsPartition(transactions: seq<Transaction>, circuitId: string)
    ensures var st := GetCircuitStats(transactions, circuitId);
      var own := Filter(transactions, OfCircuit(circuitId));
      st.balance == st.totalReceipts - st.totalPayments
      && st.totalReceipts + st.totalPayments == SumBy(own, AmountOf)
      && st.transactionCount == |own|
      && (forall i :: 0 <= i < |transactions| && transactions[i].circuitId == Some(circuitId) ==> transactions[i] in own)
      && (forall i :: 0 <= i < |own| ==> own[i].circuitId == Some(circuitId))
  {
    var own := Filter(transactions, OfCircuit(circuitId));
    FilterPartitionSum(own, IsOfType(Receipt), IsOfType(Payment), AmountOf);
    FilterMembers(transactions, OfCircuit(circuitId));
  }
}
