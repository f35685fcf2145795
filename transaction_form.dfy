/** The add-transaction form: its fields and reset, the temporary id, the
    submit checks, and the optimistic add followed by a replace or revert on the
    dashboard's list (the form's `onOptimisticAdd`, `onReplaceOptimistic` and
    `onRevertOptimistic` callbacks are the dashboard's `Ledger` methods). */
module TransactionForm {
  import opened Common
  import RowLists
  import Dashboard

  datatype FormData = FormData(merchant: string, category: string, amount: string, description: string)

  const InitialForm := FormData("", "Food", "", "")

  /** `makeTempId`: `temp-` and the browser's random UUID when it has one,
      else `temp-`, the clock and a random number joined by `-`. */
  function MakeTempId(uuid: Option<string>, clock: string, random: string): (r: string)
    ensures |r| >= 5 && r[..5] == "temp-"
    ensures uuid.Some? ==> r[5..] == uuid.value
    ensures uuid.None? ==> r[5..] == clock + "-" + random
  {
    match uuid
    case Some(u) => "temp-" + u
    case None => "temp-" + clock + "-" + random
  }

  /** Two different UUIDs give two different temporary ids. */
  lemma TempIdsDiffer(a: string, b: string, clock: string, random: string)
    requires a != b
    ensures MakeTempId(Some(a), clock, random) != MakeTempId(Some(b), clock, random)
  {
    assert MakeTempId(Some(a), clock, random)[5..] == a;
    assert MakeTempId(Some(b), clock, random)[5..] == b;
  }

  /** The text of the first failed submit check, if any. `amountValue` is
      `Number(formData.amount)`. */
  function SubmitError(f: FormData, amountValue: real): (r: Option<string>)
    ensures r.None? <==> !IsBlank(f.merchant) && f.amount != [] && amountValue > 0.0
    ensures IsBlank(f.merchant) ==> r == Some("Please enter the merchant name.")
    ensures !IsBlank(f.merchant) && r.Some? ==> r == Some("Please enter a valid amount.")
  {
    if IsBlank(f.merchant) then Some("Please enter the merchant name.")
    else if f.amount == [] || amountValue <= 0.0 then Some("Please enter a valid amount.")
    else None
  }

  /** The icon literal of the optimistic row as the file holds it: the UTF-8
      bytes of the card glyph read as Windows-1252 text. */
  const GarbledIcon := "\U{F0}\U{178}\U{2019}\U{B3}"

  /** The optimistic row as the source writes it: the form's merchant and
      category, the amount rounded to the cent, and the garbled icon. */
  function OptimisticRowAsWritten(f: FormData, tempId: string, amountValue: real, now: string): (r: Dashboard.Transaction)
    ensures r.id == tempId && r.isOptimistic && r.kind == Dashboard.Expense
    ensures r.merchant == f.merchant && r.category == f.category && r.amount == Fixed2(amountValue)
    ensures r.icon == GarbledIcon && r.icon != Dashboard.DefaultIcon
    ensures amountValue > 0.0 ==> r.amount >= 0.0
  {
    Dashboard.Transaction(tempId, f.merchant, f.category, Fixed2(amountValue), now,
                          GarbledIcon, Dashboard.Expense, true)
  }

  /** The optimistic row with the card glyph the list uses everywhere else. */
  function OptimisticRow(f: FormData, tempId: string, amountValue: real, now: string): (r: Dashboard.Transaction)
    ensures r.id == tempId && r.isOptimistic && r.kind == Dashboard.Expense
    ensures r.merchant == f.merchant && r.category == f.category && r.amount == Fixed2(amountValue)
    ensures r.icon == Dashboard.DefaultIcon
    ensures amountValue > 0.0 ==> r.amount >= 0.0
  {
    Dashboard.Transaction(tempId, f.merchant, f.category, Fixed2(amountValue), now,
                          Dashboard.DefaultIcon, Dashboard.Expense, true)
  }

  /** The garbled literal is the only difference between the two rows. */
  lemma OptimisticIconGarbled(f: FormData, tempId: string, amountValue: real, now: string)
    ensures OptimisticRowAsWritten(f, tempId, amountValue, now)
         == OptimisticRow(f, tempId, amountValue, now).(icon := GarbledIcon)
    ensures OptimisticRowAsWritten(f, tempId, amountValue, now) != OptimisticRow(f, tempId, amountValue, now)
  {
  }

  /** The row sent to the insert. */
  datatype InsertPayload = InsertPayload(
    userId: string, kind: string, amount: real, currency: string,
    category: string, merchant: string, purpose: Option<string>, note: Option<string>)

  function MakeInsertPayload(f: FormData, opt: Dashboard.Transaction, userId: string): (p: InsertPayload)
    ensures p.userId == userId && p.kind == "debit" && p.currency == "INR"
    ensures p.amount == opt.amount && p.category == opt.category && p.merchant == opt.merchant
    ensures p.purpose == p.note
    ensures p.note.None? <==> f.description == []
  {
    var text := if f.description == [] then None else Some(f.description);
    InsertPayload(userId, "debit", opt.amount, "INR", opt.category, opt.merchant, text, text)
  }

  /** The inserted row as the insert returns it; missing columns are None. */
  datatype InsertedRow = InsertedRow(
    id: string, merchant: Option<string>, category: Option<string>, amount: Option<real>,
    createdAt: Option<string>, icon: Option<string>, kind: Option<string>)

  /** `realRow`: each missing column falls back to the optimistic row; the
      kind is kept only when it is "income" or "expense". */
  function RealRow(ins: InsertedRow, opt: Dashboard.Transaction, now: string): (r: Dashboard.Transaction)
    ensures r.id == ins.id && !r.isOptimistic
    ensures r.merchant == ins.merchant.GetOr(opt.merchant) && r.category == ins.category.GetOr(opt.category)
    ensures r.amount == ins.amount.GetOr(opt.amount) && r.icon == ins.icon.GetOr(opt.icon)
    ensures r.date == ins.createdAt.GetOr(now)
    ensures ins.kind == Some("income") ==> r.kind == Dashboard.Income
    ensures ins.kind == Some("expense") ==> r.kind == Dashboard.Expense
    ensures ins.kind != Some("income") && ins.kind != Some("expense") ==> r.kind == opt.kind
  {
    Dashboard.Transaction(
      ins.id, ins.merchant.GetOr(opt.merchant), ins.category.GetOr(opt.category),
      ins.amount.GetOr(opt.amount), ins.createdAt.GetOr(now), ins.icon.GetOr(opt.icon),
      if ins.kind == Some("income") then Dashboard.Income
      else if ins.kind == Some("expense") then Dashboard.Expense
      else opt.kind,
      false)
  }

  /** The insert sends "debit", so a row that echoes it back (or has no kind)
      is shown as an expense. */
  lemma DebitShownAsExpense(ins: InsertedRow, f: FormData, tempId: string, amountValue: real, now: string, later: string)
    requires ins.kind == Some("debit") || ins.kind.None?
    ensures RealRow(ins, OptimisticRowAsWritten(f, tempId, amountValue, now), later).kind == Dashboard.Expense
    ensures RealRow(ins, OptimisticRow(f, tempId, amountValue, now), later).kind == Dashboard.Expense
  {
  }

  /** A stored row without an icon takes the optimistic row's icon, so as
      written the garbled literal reaches the list as the canonical row's icon. */
  lemma MissingIconStaysGarbled(ins: InsertedRow, f: FormData, tempId: string, amountValue: real, now: string, later: string)
    requires ins.icon.None?
    ensures RealRow(ins, OptimisticRowAsWritten(f, tempId, amountValue, now), later).icon == GarbledIcon
    ensures RealRow(ins, OptimisticRow(f, tempId, amountValue, now), later).icon == Dashboard.DefaultIcon
  {
  }

  datatype Field = Merchant | Amount | Description

  datatype AuthOutcome = AuthError(message: string) | NoUser | SignedIn(userId: string)
  datatype InsertOutcome = InsertError(message: string) | InsertReturned(rows: seq<InsertedRow>)

  /** The text the browser's TypeError carries when `inserted` is undefined. */
  const MissingRowError := "Cannot read properties of undefined (reading 'id')"

  const AddedMessage := "Transaction added successfully."

  /** The error a submit that passed the checks ends with, if any: a failed
      or empty user lookup, a failed insert, or an insert that returned no row
      (reading its `id` throws). None exactly when a row came back. */
  function SubmitFailure(auth: AuthOutcome, insert: InsertOutcome): (r: Option<string>)
    ensures r.None? <==> auth.SignedIn? && insert.InsertReturned? && insert.rows != []
    ensures auth.AuthError? ==> r == Some(Or(auth.message, "An unexpected error occurred."))
    ensures auth.NoUser? ==> r == Some("You must be logged in to add a transaction.")
    ensures auth.SignedIn? && insert.InsertError? ==> r == Some(Or(insert.message, "An unexpected error occurred."))
    ensures auth.SignedIn? && insert.InsertReturned? && insert.rows == [] ==> r == Some(MissingRowError)
  {
    match auth
    case AuthError(m) => Some(Or(m, "An unexpected error occurred."))
    case NoUser => Some("You must be logged in to add a transaction.")
    case SignedIn(_) =>
      match insert
      case InsertError(m) => Some(Or(m, "An unexpected error occurred."))
      case InsertReturned(rows) => if rows == [] then Some(MissingRowError) else None
  }

  class FormState {
    var data: FormData
    var loading: bool
    var error: Option<string>
    var success: Option<string>
    var showCategoryPicker: bool

    constructor ()
      ensures data == InitialForm && !loading && error == None && success == None && !showCategoryPicker
    {
      data, loading, error, success, showCategoryPicker := InitialForm, false, None, None, false;
    }

    /** `handleChange`: the named field takes the value; messages are cleared. */
    method HandleChange(field: Field, value: string)
      modifies this`data, this`error, this`success
      ensures data == match field
                      case Merchant => old(data).(merchant := value)
                      case Amount => old(data).(amount := value)
                      case Description => old(data).(description := value)
      ensures error == None && success == None
    {
      match field {
        case Merchant => data := data.(merchant := value);
        case Amount => data := data.(amount := value);
        case Description => data := data.(description := value);
      }
      error, success := None, None;
    }

    /** `handleAmountChange`: the picker opens once the amount has text. */
    method HandleAmountChange(value: string)
      modifies this`data, this`error, this`success, this`showCategoryPicker
      ensures data == old(data).(amount := value) && error == None && success == None
      ensures showCategoryPicker <==> value != [] && !IsBlank(value)
    {
      HandleChange(Amount, value);
      showCategoryPicker := value != [] && |Trim(value)| > 0;
    }

    /** A click on a category of the picker. */
    method PickCategory(cat: string)
      modifies this`data, this`showCategoryPicker
      ensures data == old(data).(category := cat) && !showCategoryPicker
    {
      data := data.(category := cat);
      showCategoryPicker := false;
    }

    /** `resetForm` */
    method ResetForm()
      modifies this`data, this`showCategoryPicker, this`error, this`success
      ensures data == InitialForm && data.category == "Food"
      ensures data.merchant == [] && data.amount == [] && data.description == []
      ensures !showCategoryPicker && error == None && success == None
    {
      data := InitialForm;
      showCategoryPicker := false;
      error, success := None, None;
    }

    /** The end of a successful submit as written: the message is set and then
        cleared again by `resetForm`, so it is never left to show. */
    method FinishSuccessAsWritten()
      modifies this`data, this`showCategoryPicker, this`error, this`success
      ensures data == InitialForm && !showCategoryPicker && error == None
      ensures success == None
    {
      success := Some(AddedMessage);
      ResetForm();
    }

    /** The end of a successful submit with the reset first, so the message stays. */
    method FinishSuccess()
      modifies this`data, this`showCategoryPicker, this`error, this`success
      ensures data == InitialForm && !showCategoryPicker && error == None
      ensures success == Some(AddedMessage)
    {
      ResetForm();
      success := Some(AddedMessage);
    }

    /** `handleSubmit`, as written. The temporary id comes from `uuid`,
        `clock` and `random`; `amountValue` is the parsed amount; `auth` and
        `insert` are the remote answers. The optimistic row, with its garbled
        icon, is added to `ledger` before either is awaited, and every failure
        reverts exactly that id. On success the message is cleared again by the
        reset. `sent` is the row handed to the insert, if one was. */
    method HandleSubmit(ledger: Dashboard.Ledger, uuid: Option<string>, clock: string, random: string,
                        amountValue: real, now: string, auth: AuthOutcome, insert: InsertOutcome)
      returns (sent: Option<InsertPayload>)
      modifies this, ledger`txs
      ensures success == None
      ensures SubmitError(old(data), amountValue).Some? ==>
                sent == None && loading == old(loading) && ledger.txs == old(ledger.txs) && data == old(data)
                && error == SubmitError(old(data), amountValue) && showCategoryPicker == old(showCategoryPicker)
      ensures SubmitError(old(data), amountValue).None? ==>
                var tempId := MakeTempId(uuid, clock, random);
                var opt := OptimisticRowAsWritten(old(data), tempId, amountValue, now);
                var shown := [opt] + old(ledger.txs);
                var failure := SubmitFailure(auth, insert);
                && !loading
                && sent == (if auth.SignedIn? then Some(MakeInsertPayload(old(data), opt, auth.userId)) else None)
                && (failure.Some? ==>
                      ledger.txs == RowLists.Without(shown, Dashboard.TxId, {tempId}) && error == failure
                      && data == old(data) && showCategoryPicker == old(showCategoryPicker))
                && (failure.None? ==>
                      ledger.txs == RowLists.Replace(shown, Dashboard.TxId, tempId, RealRow(insert.rows[0], opt, now))
                      && error == None && data == InitialForm && !showCategoryPicker)
    {
      error, success := None, None;
      sent := None;
      var invalid := SubmitError(data, amountValue);
      if invalid.Some? {
        error := invalid;
        return;
      }
      var tempId := MakeTempId(uuid, clock, random);
      var opt := OptimisticRowAsWritten(data, tempId, amountValue, now);
      ledger.OptimisticAdd(opt);
      loading := true;
      if auth.SignedIn? {
        sent := Some(MakeInsertPayload(data, opt, auth.userId));
      }
      var failure := SubmitFailure(auth, insert);
      if failure.Some? {
        error := failure;
        ledger.RevertOptimistic(tempId);
      } else {
        ledger.ReplaceOptimistic(tempId, RealRow(insert.rows[0], opt, now));
        FinishSuccessAsWritten();
      }
      loading := false;
    }
  }
}
