/** The dashboard page: the normalisation of a transaction row, the `txs` list
    with the three optimistic handlers and the fetch that overwrites it, the
    change-feed owner filter, and the balance and seven-day insight figures. */
module Dashboard {
  import opened Common
  import RowLists

  datatype Kind = Income | Expense

  /** A row the transaction list renders (`Transaction` plus `isOptimistic`). */
  datatype Transaction = Transaction(
    id: string, merchant: string, category: string, amount: real,
    date: string, icon: string, kind: Kind, isOptimistic: bool)

  /** A row of the securepay_transactions table as it arrives; missing columns
      are None, and so is an `icon` that is not a string. */
  datatype RawTransaction = RawTransaction(
    id: string, merchant: Option<string>, category: Option<string>, amount: Option<real>,
    createdAt: Option<string>, date: Option<string>, icon: Option<string>, kind: Option<string>)

  /** The card glyph the list falls back to. */
  const DefaultIcon := "\U{1F4B3}"

  function TxId(t: Transaction): string { t.id }

  /** `mapRowToTransaction`; `toLocale` stands for `new Date(c).toLocaleString()`. */
  function ToTransaction(d: RawTransaction, toLocale: string -> string): (r: Transaction)
    ensures r.id == d.id && !r.isOptimistic
    ensures r.kind == Income <==> d.kind == Some("income")
    ensures d.merchant.None? ==> r.merchant == "Unknown"
    ensures d.merchant.Some? ==> r.merchant == d.merchant.value
    ensures d.category.None? ==> r.category == "Other"
    ensures d.category.Some? ==> r.category == d.category.value
    ensures d.amount.None? ==> r.amount == 0.0
    ensures d.amount.Some? ==> r.amount == d.amount.value
    ensures r.icon != []
    ensures d.icon.Some? && d.icon.value != [] ==> r.icon == d.icon.value
    ensures d.icon.None? || d.icon.value == [] ==> r.icon == DefaultIcon
    ensures d.createdAt.Some? && d.createdAt.value != [] ==> r.date == toLocale(d.createdAt.value)
    ensures d.createdAt.None? || d.createdAt.value == [] ==> r.date == d.date.GetOr("")
  {
    Transaction(
      d.id, d.merchant.GetOr("Unknown"), d.category.GetOr("Other"), d.amount.GetOr(0.0),
      if d.createdAt.Some? && d.createdAt.value != [] then toLocale(d.createdAt.value) else d.date.GetOr(""),
      if d.icon.Some? && d.icon.value != [] then d.icon.value else DefaultIcon,
      if d.kind == Some("income") then Income else Expense,
      false)
  }

  function MapRows(rows: seq<RawTransaction>, toLocale: string -> string): (r: seq<Transaction>)
    ensures |r| == |rows|
    ensures forall i :: 0 <= i < |rows| ==> r[i] == ToTransaction(rows[i], toLocale)
  {
    seq(|rows|, i requires 0 <= i < |rows| => ToTransaction(rows[i], toLocale))
  }

  /** What a row adds to the balance. */
  function Signed(t: Transaction): real {
    if t.kind == Income then t.amount else -t.amount
  }

  /** `txs.reduce((sum, t) => sum + (t.type === "income" ? t.amount : -t.amount), 0)`,
      optimistic rows included. */
  function Balance(s: seq<Transaction>): real {
    if s == [] then 0.0 else Signed(s[0]) + Balance(s[1..])
  }

  lemma {:induction false} BalanceAppend(a: seq<Transaction>, b: seq<Transaction>)
    ensures Balance(a + b) == Balance(a) + Balance(b)
  {
    if a == [] {
      assert a + b == b;
    } else {
      assert (a + b)[1..] == a[1..] + b;
      BalanceAppend(a[1..], b);
    }
  }

  /** The balance shown while a write is pending counts the optimistic row; a
      revert takes it back out, and a replace counts the canonical row instead. */
  lemma BalanceThroughWrite(s: seq<Transaction>, opt: Transaction, canonical: Transaction)
    requires forall x :: x in s ==> x.id != opt.id
    ensures Balance([opt] + s) == Signed(opt) + Balance(s)
    ensures Balance(RowLists.Without([opt] + s, TxId, {opt.id})) == Balance(s)
    ensures Balance(RowLists.Replace([opt] + s, TxId, opt.id, canonical)) == Signed(canonical) + Balance(s)
  {
    assert ([opt] + s)[1..] == s;
    RowLists.RevertAfterAdd(s, TxId, opt);
    RowLists.ReplaceAfterAdd(s, TxId, opt, canonical);
    assert ([canonical] + s)[1..] == s;
  }

  const WeekMillis := 7 * 24 * 60 * 60 * 1000

  /** The `calcInsights` filter: the date parses and lies at most seven days
      before `now`. `parse` stands for `new Date(d).getTime()`, None for NaN. */
  predicate Recent(t: Transaction, now: int, parse: string -> Option<int>) {
    parse(t.date).Some? && now - parse(t.date).value <= WeekMillis
  }

  /** What a recent row adds to the seven-day figure. */
  function Weight(t: Transaction): real {
    if t.kind == Income then t.amount else if t.amount < 0.0 then -t.amount else t.amount
  }

  function Last7(s: seq<Transaction>, now: int, parse: string -> Option<int>): real {
    if s == [] then 0.0
    else (if Recent(s[0], now, parse) then Weight(s[0]) else 0.0) + Last7(s[1..], now, parse)
  }

  datatype Insights = Insights(last7Days: real, avgPerDay: real)

  /** `calcInsights` */
  function CalcInsights(rows: seq<Transaction>, now: int, parse: string -> Option<int>): (r: Insights)
    ensures r.last7Days == Last7(rows, now, parse)
    ensures r.avgPerDay * 7.0 == r.last7Days
  {
    var last7 := Last7(rows, now, parse);
    Insights(last7, last7 / 7.0)
  }

  lemma {:induction false} Last7Append(a: seq<Transaction>, b: seq<Transaction>, now: int, parse: string -> Option<int>)
    ensures Last7(a + b, now, parse) == Last7(a, now, parse) + Last7(b, now, parse)
  {
    if a == [] {
      assert a + b == b;
    } else {
      assert (a + b)[1..] == a[1..] + b;
      Last7Append(a[1..], b, now, parse);
    }
  }

  /** Expenses count by their absolute value, so the seven-day figure is never
      negative when no income row has a negative amount. */
  lemma {:induction false} Last7NonNegative(s: seq<Transaction>, now: int, parse: string -> Option<int>)
    requires forall i :: 0 <= i < |s| && s[i].kind == Income ==> s[i].amount >= 0.0
    ensures Last7(s, now, parse) >= 0.0
  {
    if s != [] {
      Last7NonNegative(s[1..], now, parse);
    }
  }

  /** Rows outside the window do not move the figure. */
  lemma {:induction false} Last7IgnoresOld(s: seq<Transaction>, now: int, parse: string -> Option<int>)
    requires forall i :: 0 <= i < |s| ==> !Recent(s[i], now, parse)
    ensures Last7(s, now, parse) == 0.0
  {
    if s != [] {
      Last7IgnoresOld(s[1..], now, parse);
    }
  }

  /** A change-feed row as far as the handler reads it. */
  datatype ChangedRow = ChangedRow(userId: Option<string>)
  /** `payload.new` and `payload.old`. */
  datatype ChangePayload = ChangePayload(newRow: Option<ChangedRow>, oldRow: Option<ChangedRow>)

  /** `(payload.new ?? payload.old)?.user_id` */
  function RecordOwner(p: ChangePayload): Option<string> {
    match (if p.newRow.Some? then p.newRow else p.oldRow)
    case Some(row) => row.userId
    case None => None
  }

  /** The change-feed handler refreshes exactly when a user is known and the
      changed record belongs to that user. */
  function TriggersRefresh(currentUserId: Option<string>, p: ChangePayload): (b: bool)
    ensures b ==> currentUserId.Some? && currentUserId.value != []
    ensures b ==> RecordOwner(p) == currentUserId
    ensures currentUserId.Some? && currentUserId.value != [] && RecordOwner(p) == currentUserId ==> b
  {
    currentUserId.Some? && currentUserId.value != [] && RecordOwner(p) == currentUserId
  }

  /** A record of another owner never triggers a refresh, and the old row is
      read only when the change carries no new row. */
  lemma OtherOwnersIgnored(currentUserId: string, p: ChangePayload)
    requires p.newRow.Some? && p.newRow.value.userId != Some(currentUserId)
    ensures !TriggersRefresh(Some(currentUserId), p)
    ensures p.oldRow.Some? && p.oldRow.value.userId == Some(currentUserId) ==> !TriggersRefresh(Some(currentUserId), p)
  {
  }

  datatype FetchOutcome = FetchFailed(message: Option<string>) | Fetched(rows: seq<RawTransaction>)

  /** The dashboard's state: the `txs` list (optimistic rows included), the
      loading and error flags, and the user the change feed compares against. */
  class Ledger {
    var txs: seq<Transaction>
    var loading: bool
    var error: Option<string>
    var currentUserId: Option<string>
    var userEmail: Option<string>

    constructor ()
      ensures txs == [] && !loading && error == None && currentUserId == None && userEmail == None
    {
      txs, loading, error := [], false, None;
      currentUserId, userEmail := None, None;
    }

    /** `handleOptimisticAdd`: the optimistic row goes in front of the old list. */
    method OptimisticAdd(t: Transaction)
      modifies this`txs
      ensures txs == [t] + old(txs)
      ensures |txs| == |old(txs)| + 1 && txs[0] == t && txs[1..] == old(txs)
    {
      txs := [t] + txs;
    }

    /** `handleRevertOptimistic` */
    method RevertOptimistic(tempId: string)
      modifies this`txs
      ensures txs == RowLists.Without(old(txs), TxId, {tempId})
      ensures RowLists.Count(txs, TxId, tempId) == 0
    {
      RowLists.CountWithout(txs, TxId, {tempId}, tempId);
      txs := RowLists.Without(txs, TxId, {tempId});
    }

    /** `handleReplaceOptimistic`: every row with the temporary id becomes the
        canonical row; nothing is collapsed. */
    method ReplaceOptimistic(tempId: string, realRow: Transaction)
      modifies this`txs
      ensures txs == RowLists.Replace(old(txs), TxId, tempId, realRow)
    {
      txs := RowLists.Replace(txs, TxId, tempId, realRow);
    }

    /** `fetchTransactions(user_id)`: without a user id nothing happens; a
        failure keeps the list; a success overwrites the whole list, pending
        optimistic rows included. */
    method FetchTransactions(userId: Option<string>, outcome: FetchOutcome, toLocale: string -> string)
      modifies this`txs, this`loading, this`error
      ensures userId.None? || userId.value == [] ==>
                txs == old(txs) && loading == old(loading) && error == old(error)
      ensures userId.Some? && userId.value != [] ==> !loading
      ensures userId.Some? && userId.value != [] && outcome.FetchFailed? ==>
                txs == old(txs) && error == Some(outcome.message.GetOr("Failed to load transactions"))
      ensures userId.Some? && userId.value != [] && outcome.Fetched? ==>
                txs == MapRows(outcome.rows, toLocale) && error == None
                && forall i :: 0 <= i < |txs| ==> !txs[i].isOptimistic
    {
      if userId.None? || userId.value == [] {
        return;
      }
      loading := true;
      error := None;
      match outcome {
        case FetchFailed(m) =>
          error := Some(m.GetOr("Failed to load transactions"));
        case Fetched(rows) =>
          txs := MapRows(rows, toLocale);
      }
      loading := false;
    }

    /** The mount effect once the identity service answers: the user is
        remembered for the change feed and the list is fetched for that user. */
    method UserLoaded(user: Option<AuthUser>, outcome: FetchOutcome, toLocale: string -> string)
      modifies this
      ensures user.None? ==>
                txs == old(txs) && currentUserId == old(currentUserId) && userEmail == old(userEmail)
                && error == old(error) && loading == old(loading)
      ensures user.Some? ==> currentUserId == Some(user.value.id) && userEmail == user.value.email
      ensures user.Some? && user.value.id == [] ==>
                txs == old(txs) && loading == old(loading) && error == old(error)
      ensures user.Some? && user.value.id != [] ==> !loading
      ensures user.Some? && user.value.id != [] && outcome.FetchFailed? ==>
                txs == old(txs) && error == Some(outcome.message.GetOr("Failed to load transactions"))
      ensures user.Some? && user.value.id != [] && outcome.Fetched? ==>
                txs == MapRows(outcome.rows, toLocale) && error == None
    {
      if user.Some? {
        currentUserId := Some(user.value.id);
        userEmail := user.value.email;
        FetchTransactions(Some(user.value.id), outcome, toLocale);
      }
    }

    /** `handleAdded`, the form's `onAdded`: refetch for the user, if any. */
    method HandleAdded(user: Option<string>, outcome: FetchOutcome, toLocale: string -> string)
      modifies this`txs, this`loading, this`error
      ensures user.None? || user.value == [] ==>
                txs == old(txs) && loading == old(loading) && error == old(error)
      ensures user.Some? && user.value != [] ==> !loading
      ensures user.Some? && user.value != [] && outcome.FetchFailed? ==>
                txs == old(txs) && error == Some(outcome.message.GetOr("Failed to load transactions"))
      ensures user.Some? && user.value != [] && outcome.Fetched? ==>
                txs == MapRows(outcome.rows, toLocale) && error == None
    {
      if user.Some? {
        FetchTransactions(user, outcome, toLocale);
      }
    }

    /** The change-feed handler; `outcome` is the answer of the refetch it
        starts, if it starts one. */
    method OnChange(p: ChangePayload, outcome: FetchOutcome, toLocale: string -> string) returns (refreshed: bool)
      modifies this`txs, this`loading, this`error
      ensures refreshed == TriggersRefresh(old(currentUserId), p)
      ensures !refreshed ==> txs == old(txs) && loading == old(loading) && error == old(error)
      ensures refreshed ==> !loading
      ensures refreshed && outcome.FetchFailed? ==>
                txs == old(txs) && error == Some(outcome.message.GetOr("Failed to load transactions"))
      ensures refreshed && outcome.Fetched? ==> txs == MapRows(outcome.rows, toLocale) && error == None
    {
      refreshed := TriggersRefresh(currentUserId, p);
      if refreshed {
        FetchTransactions(currentUserId, outcome, toLocale);
      }
    }
  }
}
