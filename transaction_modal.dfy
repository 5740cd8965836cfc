/** The transaction detail modal: a view mode, an edit form whose save checks
    and normalises the fields before updating the record, and a delete
    confirmation. */
module TransactionModal {
  import opened Types
  import opened Strings
  import opened Database
  import opened Helpers
  import opened TransactionStore

  datatype Mode = View | Edit | DeleteConfirm

  /** The edit form's fields. */
  datatype EditForm = EditForm(
    description: string,
    amount: NumText,
    date: Option<Date>,
    category: string,
    txnType: TxnType,
    circuitId: string,
    notes: string)

  /** The form loaded from a transaction (absent circuit and notes show as ''). */
  function FormOf(t: Transaction): (f: EditForm)
    ensures f.description == t.description && f.amount == Num(t.amount) && f.date == Some(t.date)
    ensures f.category == t.category && f.txnType == t.txnType
    ensures f.circuitId == t.circuitId.GetOr("") && f.notes == t.notes.GetOr("")
  {
    EditForm(t.description, Num(t.amount), Some(t.date), t.category, t.txnType, t.circuitId.GetOr(""), t.notes.GetOr(""))
  }

  /** The save check: a trimmed description, an amount that parses and is
      positive, and a date. The category is not checked. */
  predicate SaveAllowed(f: EditForm) {
    Trim(f.description) != "" && f.amount.Num? && f.amount.value > 0 && f.date.Some?
  }

  /** The update handleSave sends, or None when the check fails. Quarter and
      year follow the edited date; description and notes are trimmed; an empty
      circuit or empty notes are stored as absent. */
  function SavePatch(f: EditForm): (r: Option<TxnPatch>)
    ensures r.Some? <==> SaveAllowed(f)
    ensures r.Some? ==>
      r.value.date == f.date && r.value.txnType == Some(f.txnType) && r.value.category == Some(f.category)
      && r.value.description == Some(Trim(f.description)) && r.value.amount == Some(f.amount.value)
      && r.value.circuitId == Some(NonEmpty(f.circuitId)) && r.value.notes == Some(NonEmpty(Trim(f.notes)))
      && r.value.quarter == Some(GetQuarterFromDate(f.date.value)) && r.value.year == Some(f.date.value.year)
    ensures r.Some? ==> r.value.subcategory.None? && r.value.eventId.None? && r.value.items.None?
  {
    if !SaveAllowed(f) then None
    else
      var d := f.date.value;
      Some(TxnPatch(
        Some(d), Some(f.txnType), Some(f.category), None, Some(Trim(f.description)), Some(f.amount.value),
        Some(NonEmpty(f.circuitId)), Some(GetQuarterFromDate(d)), Some(d.year),
        None, None, Some(NonEmpty(Trim(f.notes)))))
  }

  /** The saved record: its period follows its date, its text fields are
      trimmed, it has no empty circuit or notes, and the fields the form does
      not show are kept. */
  lemma SavedRecordIsNormalised(t: Transaction, f: EditForm, stamp: string)
    requires SaveAllowed(f)
    ensures var r := Merge(t, SavePatch(f).value, stamp);
      Some(r.date) == f.date && r.quarter == GetQuarterFromDate(r.date) && r.year == r.date.year
      && r.amount > 0 && Trimmed(r.description) && r.description != ""
      && r.circuitId != Some("") && r.notes != Some("") && (r.notes.Some? ==> Trimmed(r.notes.value))
      && r.description == Trim(f.description) && r.amount == f.amount.value
      && r.txnType == f.txnType && r.category == f.category
      && r.circuitId == NonEmpty(f.circuitId) && r.notes == NonEmpty(Trim(f.notes))
      && r.items == t.items && r.eventId == t.eventId && r.subcategory == t.subcategory
      && r.uid == t.uid && r.createdAt == t.createdAt && r.updatedAt == stamp
  {
    TrimIsTrimmed(f.description);
    TrimIsTrimmed(f.notes);
  }

  /** The category is not part of the check: after a type toggle clears it,
      a save with otherwise valid fields stores the empty category. */
  lemma EmptyCategoryIsSaved(t: Transaction, f: EditForm, ty: TxnType, stamp: string)
    requires SaveAllowed(f)
    ensures var g := f.(txnType := ty, category := "");
      SaveAllowed(g) && Merge(t, SavePatch(g).value, stamp).category == ""
  {
  }

  /** What a record must satisfy for the form to hand it back unchanged. */
  predicate Normalised(t: Transaction) {
    Trimmed(t.description) && t.description != "" && t.amount > 0
    && t.quarter == GetQuarterFromDate(t.date) && t.year == t.date.year
    && t.circuitId != Some("") && t.notes != Some("")
    && (t.notes.Some? ==> Trimmed(t.notes.value))
  }

  lemma NotesRoundTrip(t: Transaction)
    requires t.notes != Some("") && (t.notes.Some? ==> Trimmed(t.notes.value))
    ensures NonEmpty(Trim(t.notes.GetOr(""))) == t.notes
  {
    if t.notes.Some? {
      TrimOfTrimmed(t.notes.value);
    }
  }

  lemma UneditedPatch(t: Transaction)
    requires Normalised(t)
    ensures SavePatch(FormOf(t)) == Some(TxnPatch(
      Some(t.date), Some(t.txnType), Some(t.category), None, Some(t.description), Some(t.amount),
      Some(t.circuitId), Some(t.quarter), Some(t.year), None, None, Some(t.notes)))
  {
    TrimOfTrimmed(t.description);
    NotesRoundTrip(t);
    var f := FormOf(t);
    assert NonEmpty(f.circuitId) == t.circuitId;
  }

  /** Saving the form of a normalised record without editing it changes only
      the update stamp. */
  lemma UneditedSaveKeepsRecord(t: Transaction, stamp: string)
    requires Normalised(t)
    ensures SaveAllowed(FormOf(t))
    ensures Merge(t, SavePatch(FormOf(t)).value, stamp) == t.(updatedAt := stamp)
  {
    UneditedPatch(t);
  }

  class Modal {
    var transaction: Transaction
    var mode: Mode
    var form: EditForm

    /** A transaction shown: view mode, every field loaded from it. */
    constructor(t: Transaction)
      ensures transaction == t && mode == View && form == FormOf(t)
    {
      transaction := t;
      mode := View;
      form := FormOf(t);
    }

    /** A new transaction passed in does the same as opening it. */
    method Load(t: Transaction)
      modifies this
      ensures transaction == t && mode == View && form == FormOf(t)
    {
      transaction := t;
      mode := View;
      form := FormOf(t);
    }

    method StartEdit()
      modifies this
      ensures mode == Edit && transaction == old(transaction) && form == old(form)
    {
      mode := Edit;
    }

    method AskDelete()
      modifies this
      ensures mode == DeleteConfirm && transaction == old(transaction) && form == old(form)
    {
      mode := DeleteConfirm;
    }

    /** The type toggle clears the category. */
    method ToggleType(ty: TxnType)
      modifies this
      ensures form == old(form).(txnType := ty, category := "")
      ensures mode == old(mode) && transaction == old(transaction)
    {
      form := form.(txnType := ty, category := "");
    }

    /** Cancel: every field back to the transaction's, and view mode. */
    method Cancel()
      modifies this
      ensures form == FormOf(transaction) && mode == View && transaction == old(transaction)
    {
      form := FormOf(transaction);
      mode := View;
    }

    /** Back from the delete confirmation, or closing the modal. */
    method BackToView()
      modifies this
      ensures mode == View && form == old(form) && transaction == old(transaction)
    {
      mode := View;
    }

    /** handleSave: a refused save changes nothing; otherwise the record is
        updated by uid and the modal returns to view mode. */
    method Save(db: Db, stamp: string)
      modifies this, db
      ensures transaction == old(transaction) && form == old(form)
      ensures !SaveAllowed(old(form)) ==> mode == old(mode) && db.Snapshot() == old(db.Snapshot())
      ensures SaveAllowed(old(form)) ==> mode == View
      ensures SaveAllowed(old(form)) ==>
        db.Snapshot() == old(db.Snapshot()).(transactions := UpdatedByUid(old(db.transactions), old(transaction).uid, SavePatch(old(form)).value, stamp))
    {
      var patch := SavePatch(form);
      if patch.None? {
        return;
      }
      UpdateTransaction(db, transaction.uid, patch.value, stamp);
      mode := View;
    }

    /** handleDelete: the record is deleted by uid and the modal closes. */
    method ConfirmDelete(db: Db)
      modifies db
      ensures db.Snapshot() == old(db.Snapshot()).(transactions := DeletedByUid(old(db.transactions), transaction.uid))
    {
      DeleteTransaction(db, transaction.uid);
    }
  }
}
