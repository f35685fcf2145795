/** The scheduled-payments page: the normalisation of a remote row, the form and
    its save check, the optimistic `schedules` list with its prepend, filter,
    confirm and restore updaters, and the one-line schedule summary. */
module ScheduledPayments {
  import opened Common
  import RowLists

  /** A row of the scheduled_payments table as it arrives. Every optional column
      may be missing (null or undefined); `active` is None also when the column
      holds something that is not a boolean. */
  datatype RawSchedule = RawSchedule(
    id: string, userId: string, payee: string,
    category: Option<string>, amount: Option<real>, currency: Option<string>,
    scheduleType: Option<string>, intervalValue: Option<int>, nextRun: Option<string>,
    active: Option<bool>, note: Option<string>,
    createdAt: Option<string>, updatedAt: Option<string>)

  /** The closed record the page renders. */
  datatype Scheduled = Scheduled(
    id: string, userId: string, payee: string,
    category: Option<string>, amount: real, currency: string,
    scheduleType: string, intervalValue: Option<int>, nextRun: Option<string>,
    active: bool, note: Option<string>,
    createdAt: Option<string>, updatedAt: Option<string>,
    isOptimistic: bool)

  function IdOf(s: Scheduled): string { s.id }

  /** `mapRowToScheduled` */
  function ToScheduled(d: RawSchedule): (r: Scheduled)
    ensures r.id == d.id && r.userId == d.userId && r.payee == d.payee
    ensures d.amount.None? ==> r.amount == 0.0
    ensures d.currency.None? ==> r.currency == "INR"
    ensures d.scheduleType.None? ==> r.scheduleType == "monthly"
    ensures d.active.None? ==> r.active
    ensures d.amount.Some? ==> r.amount == d.amount.value
    ensures d.currency.Some? ==> r.currency == d.currency.value
    ensures d.scheduleType.Some? ==> r.scheduleType == d.scheduleType.value
    ensures d.active.Some? ==> r.active == d.active.value
    ensures r.category == d.category && r.intervalValue == d.intervalValue
    ensures r.nextRun == d.nextRun && r.note == d.note
    ensures r.createdAt == d.createdAt && r.updatedAt == d.updatedAt
    ensures !r.isOptimistic
  {
    Scheduled(
      d.id, d.userId, d.payee,
      d.category, d.amount.GetOr(0.0), d.currency.GetOr("INR"),
      d.scheduleType.GetOr("monthly"), d.intervalValue, d.nextRun,
      d.active.GetOr(true), d.note,
      d.createdAt, d.updatedAt,
      false)
  }

  /** The row a confirmed record is stored as. */
  function ToRaw(s: Scheduled): RawSchedule {
    RawSchedule(
      s.id, s.userId, s.payee,
      s.category, Some(s.amount), Some(s.currency),
      Some(s.scheduleType), s.intervalValue, s.nextRun,
      Some(s.active), s.note, s.createdAt, s.updatedAt)
  }

  /** Normalisation loses nothing of a confirmed record: reading back the row
      it is stored as gives the record itself. */
  lemma ToScheduledRoundTrip(s: Scheduled)
    requires !s.isOptimistic
    ensures ToScheduled(ToRaw(s)) == s
  {
  }

  /** Normalisation is idempotent: a normalised row normalises to itself. */
  lemma ToScheduledIdempotent(d: RawSchedule)
    ensures ToScheduled(ToRaw(ToScheduled(d))) == ToScheduled(d)
  {
    ToScheduledRoundTrip(ToScheduled(d));
  }

  function MapRows(rows: seq<RawSchedule>): (r: seq<Scheduled>)
    ensures |r| == |rows|
    ensures forall i :: 0 <= i < |rows| ==> r[i] == ToScheduled(rows[i])
  {
    seq(|rows|, i requires 0 <= i < |rows| => ToScheduled(rows[i]))
  }

  /** `s.interval_value ?? "—"` inside a template string. */
  function IntervalText(v: Option<int>): (r: string)
    ensures r != []
  {
    match v
    case Some(n) => IntText(n)
    case None => "\U{2014}"
  }

  /** `scheduleSummary` */
  function Summary(s: Scheduled): (r: string)
    ensures s.scheduleType == "daily" ==> r == "Every day"
    ensures s.scheduleType == "weekly" ==> r == "Every week (interval " + IntervalText(s.intervalValue) + ")"
    ensures s.scheduleType == "monthly" ==> r == "Every month (day " + IntervalText(s.intervalValue) + ")"
    ensures s.scheduleType == "custom" ==> r == "Every " + IntervalText(s.intervalValue) + " days"
    ensures !IsKnownType(s.scheduleType) ==> r == s.scheduleType
  {
    if s.scheduleType == "daily" then "Every day"
    else if s.scheduleType == "weekly" then "Every week (interval " + IntervalText(s.intervalValue) + ")"
    else if s.scheduleType == "monthly" then "Every month (day " + IntervalText(s.intervalValue) + ")"
    else if s.scheduleType == "custom" then "Every " + IntervalText(s.intervalValue) + " days"
    else s.scheduleType
  }

  predicate IsKnownType(t: string) {
    t == "daily" || t == "weekly" || t == "monthly" || t == "custom"
  }

  /** The seventh character of the summary of a known schedule type. */
  lemma SummaryMarker(s: Scheduled)
    requires IsKnownType(s.scheduleType)
    ensures |Summary(s)| > 6
    ensures s.scheduleType == "daily" ==> Summary(s)[6] == 'd'
    ensures s.scheduleType == "weekly" ==> Summary(s)[6] == 'w'
    ensures s.scheduleType == "monthly" ==> Summary(s)[6] == 'm'
    ensures s.scheduleType == "custom" ==> Summary(s)[6] == IntervalText(s.intervalValue)[0]
  {
  }

  /** The summaries of two different known schedule types are never equal, so
      the wording always tells the kind of schedule apart. */
  lemma SummaryTellsTypesApart(a: Scheduled, b: Scheduled)
    requires IsKnownType(a.scheduleType) && IsKnownType(b.scheduleType)
    requires a.scheduleType != b.scheduleType
    ensures Summary(a) != Summary(b)
  {
    SummaryMarker(a);
    SummaryMarker(b);
    var c := if a.scheduleType == "custom" then a else b;
    assert IntervalText(c.intervalValue)[0] !in "dwm";
  }

  /** The edit form. Every field is the text of an input. */
  datatype ScheduleForm = ScheduleForm(
    payee: string, category: string, amount: string, currency: string,
    scheduleType: string, intervalValue: string, note: string)

  const EmptyForm := ScheduleForm("", "", "", "INR", "monthly", "", "")

  /** The text of the first failed save check, if any. */
  function SaveError(f: ScheduleForm): (r: Option<string>)
    ensures r.None? <==> f.payee != [] && f.amount != []
    ensures r.Some? ==> r.value == "Please provide payee and amount."
  {
    if f.payee == [] || f.amount == [] then Some("Please provide payee and amount.") else None
  }

  /** The row sent to the remote upsert. */
  datatype Payload = Payload(
    id: Option<string>, userId: string, payee: string, category: Option<string>,
    amount: real, currency: string, scheduleType: string,
    intervalValue: Option<int>, note: Option<string>, updatedAt: string)

  function NonEmpty(s: string): Option<string> {
    if s == [] then None else Some(s)
  }

  /** The payload of a save. `amountValue` is `parseFloat(form.amount)` and
      `intervalNumber` is `Number(form.interval_value)`. */
  function MakePayload(f: ScheduleForm, userId: string, editing: Option<Scheduled>,
                       amountValue: real, intervalNumber: int, now: string): (p: Payload)
    ensures p.userId == userId && p.payee == f.payee && p.scheduleType == f.scheduleType
    ensures p.amount == Fixed2(amountValue)
    ensures p.currency == Or(f.currency, "INR") && p.currency != []
    ensures p.category.None? <==> f.category == []
    ensures p.note.None? <==> f.note == []
    ensures p.intervalValue.None? <==> f.intervalValue == []
    ensures p.id.Some? <==> editing.Some? && editing.value.id != []
    ensures p.id.Some? ==> p.id.value == editing.value.id
  {
    Payload(
      if editing.Some? && editing.value.id != [] then Some(editing.value.id) else None,
      userId, f.payee, NonEmpty(f.category), Fixed2(amountValue), Or(f.currency, "INR"),
      f.scheduleType, if f.intervalValue == [] then None else Some(intervalNumber),
      NonEmpty(f.note), now)
  }

  /** `temp-${Date.now()}` */
  function TempId(stamp: int): (r: string)
    ensures |r| > 5 && r[..5] == "temp-" && r[5..] == IntText(stamp)
  {
    "temp-" + IntText(stamp)
  }

  /** Saves at different clock readings get different temporary ids. */
  lemma TempIdsDiffer(a: int, b: int)
    requires a != b
    ensures TempId(a) != TempId(b)
  {
    IntTextInjective(a, b);
    assert TempId(a)[5..] == IntText(a) && TempId(b)[5..] == IntText(b);
  }

  /** The temporary row shown while the upsert is in flight. */
  function OptimisticRow(tempId: string, p: Payload, now: string): (r: Scheduled)
    ensures r.id == tempId && r.isOptimistic && r.active
    ensures r.userId == p.userId && r.payee == p.payee && r.amount == p.amount
  {
    Scheduled(tempId, p.userId, p.payee, p.category, p.amount, p.currency,
              p.scheduleType, p.intervalValue, None, true, p.note,
              Some(now), Some(now), true)
  }

  /** The confirm updater: the canonical row first, then every other row that
      has neither the temporary id nor the canonical id. */
  function Confirmed(s: seq<Scheduled>, tempId: string, canonical: Scheduled): seq<Scheduled>
  {
    [canonical] + RowLists.Without(s, IdOf, {tempId, canonical.id})
  }

  /** After a confirm exactly one row has the canonical id, none has the
      temporary id, and every other id keeps its rows in their order. */
  lemma ConfirmLeavesOne(s: seq<Scheduled>, tempId: string, canonical: Scheduled)
    ensures Confirmed(s, tempId, canonical)[0] == canonical
    ensures RowLists.Count(Confirmed(s, tempId, canonical), IdOf, canonical.id) == 1
    ensures tempId != canonical.id ==> RowLists.Count(Confirmed(s, tempId, canonical), IdOf, tempId) == 0
    ensures forall k :: k != tempId && k != canonical.id ==>
              RowLists.Count(Confirmed(s, tempId, canonical), IdOf, k) == RowLists.Count(s, IdOf, k)
  {
    var rest := RowLists.Without(s, IdOf, {tempId, canonical.id});
    assert Confirmed(s, tempId, canonical)[1..] == rest;
    RowLists.CountWithout(s, IdOf, {tempId, canonical.id}, canonical.id);
    RowLists.CountWithout(s, IdOf, {tempId, canonical.id}, tempId);
    forall k | k != tempId && k != canonical.id
      ensures RowLists.Count(Confirmed(s, tempId, canonical), IdOf, k) == RowLists.Count(s, IdOf, k)
    {
      RowLists.CountWithout(s, IdOf, {tempId, canonical.id}, k);
    }
  }

  /** Editing: when the list held the edited schedule and the optimistic row,
      confirming the canonical row with the edited id leaves one row for it,
      whatever was shown before. */
  lemma ConfirmCollapsesEditedRow(s: seq<Scheduled>, tempId: string, edited: Scheduled, canonical: Scheduled)
    requires edited in s && canonical.id == edited.id
    ensures RowLists.Count(s, IdOf, edited.id) >= 1
    ensures RowLists.Count(Confirmed(s, tempId, canonical), IdOf, edited.id) == 1
  {
    RowLists.CountZero(s, IdOf, edited.id);
    ConfirmLeavesOne(s, tempId, canonical);
  }

  datatype FetchOutcome = NoUser | FetchFailed(message: Option<string>) | Fetched(rows: seq<RawSchedule>)
  datatype UpsertOutcome = UpsertFailed(message: Option<string>) | UpsertReturned(row: Option<RawSchedule>)
  datatype DeleteOutcome = Deleted | DeleteFailed(message: Option<string>)

  class SchedulesPage {
    var loading: bool
    var schedules: seq<Scheduled>
    var error: Option<string>
    var formOpen: bool
    var editing: Option<Scheduled>
    var form: ScheduleForm

    constructor ()
      ensures loading && schedules == [] && error == None
      ensures !formOpen && editing == None && form == EmptyForm
    {
      loading, schedules, error := true, [], None;
      formOpen, editing, form := false, None, EmptyForm;
    }

    /** `setSchedules((s) => [optimistic, ...s])` */
    method Prepend(row: Scheduled)
      modifies this`schedules
      ensures schedules == [row] + old(schedules)
    {
      schedules := [row] + schedules;
    }

    /** `setSchedules((s) => s.filter((x) => x.id !== id))` */
    method Drop(id: string)
      modifies this`schedules
      ensures schedules == RowLists.Without(old(schedules), IdOf, {id})
    {
      schedules := RowLists.Without(schedules, IdOf, {id});
    }

    /** `setSchedules((s) => [real, ...s.filter((x) => x.id !== tempId && x.id !== real.id)])` */
    method Confirm(tempId: string, canonical: Scheduled)
      modifies this`schedules
      ensures schedules == Confirmed(old(schedules), tempId, canonical)
    {
      schedules := Confirmed(schedules, tempId, canonical);
    }

    /** `fetchSchedules`, with the identity service's and the query's answers
        given as `outcome`. A failure keeps the list shown. */
    method FetchSchedules(outcome: FetchOutcome)
      modifies this`loading, this`schedules, this`error
      ensures !loading
      ensures outcome.NoUser? ==> schedules == [] && error == None
      ensures outcome.FetchFailed? ==>
                schedules == old(schedules) && error == Some(outcome.message.GetOr("Failed to load schedules."))
      ensures outcome.Fetched? ==> schedules == MapRows(outcome.rows) && error == None
      ensures outcome.Fetched? ==> forall i :: 0 <= i < |schedules| ==> !schedules[i].isOptimistic
    {
      loading := true;
      error := None;
      match outcome {
        case NoUser =>
          schedules := [];
        case FetchFailed(m) =>
          error := Some(m.GetOr("Failed to load schedules."));
        case Fetched(rows) =>
          schedules := MapRows(rows);
      }
      loading := false;
    }

    method ResetForm()
      modifies this`form
      ensures form == EmptyForm
    {
      form := EmptyForm;
    }

    /** `openAdd` */
    method OpenAdd()
      modifies this`form, this`editing, this`formOpen
      ensures form == EmptyForm && editing == None && formOpen
    {
      ResetForm();
      editing := None;
      formOpen := true;
    }

    /** `openEdit`; `amountText` is `String(s.amount)`. */
    method OpenEdit(s: Scheduled, amountText: string)
      modifies this`form, this`editing, this`formOpen
      ensures editing == Some(s) && formOpen
      ensures form == ScheduleForm(
                s.payee, s.category.GetOr(""), amountText, s.currency, s.scheduleType,
                if s.intervalValue.Some? && s.intervalValue.value != 0 then IntText(s.intervalValue.value) else "",
                s.note.GetOr(""))
    {
      editing := Some(s);
      form := ScheduleForm(
        s.payee, s.category.GetOr(""), amountText, s.currency, s.scheduleType,
        if s.intervalValue.Some? && s.intervalValue.value != 0 then IntText(s.intervalValue.value) else "",
        s.note.GetOr(""));
      formOpen := true;
    }

    /** `saveSchedule`: check the form, prepend the optimistic row, then either
        drop it (failed upsert, or no row returned) or confirm the canonical row.
        `user` is the signed-in user's id, `stamp` the clock reading the
        temporary id is built from, `upsert` the remote answer; `sent` is
        the payload handed to the upsert, if one was. */
    method SaveSchedule(user: Option<string>, stamp: int, amountValue: real, intervalNumber: int,
                        now: string, upsert: UpsertOutcome) returns (sent: Option<Payload>)
      modifies this`schedules, this`error, this`formOpen
      ensures SaveError(old(form)).Some? ==>
                sent == None && schedules == old(schedules) && error == SaveError(old(form))
                && formOpen == old(formOpen)
      ensures SaveError(old(form)).None? && user.None? ==>
                sent == None && schedules == old(schedules) && error == Some("Not signed in.")
                && formOpen == old(formOpen)
      ensures SaveError(old(form)).None? && user.Some? ==>
                var p := MakePayload(form, user.value, editing, amountValue, intervalNumber, now);
                var tempId := TempId(stamp);
                var shown := [OptimisticRow(tempId, p, now)] + old(schedules);
                && sent == Some(p) && !formOpen
                && (upsert.UpsertFailed? ==>
                      schedules == RowLists.Without(shown, IdOf, {tempId})
                      && error == Some(upsert.message.GetOr("Failed to save schedule.")))
                && (upsert.UpsertReturned? && upsert.row.None? ==>
                      schedules == RowLists.Without(shown, IdOf, {tempId})
                      && error == Some("No row returned from upsert"))
                && (upsert.UpsertReturned? && upsert.row.Some? ==>
                      schedules == Confirmed(shown, tempId, ToScheduled(upsert.row.value)) && error == None)
    {
      error := None;
      sent := None;
      var invalid := SaveError(form);
      if invalid.Some? {
        error := invalid;
        return;
      }
      if user.None? {
        error := Some("Not signed in.");
        return;
      }
      var p := MakePayload(form, user.value, editing, amountValue, intervalNumber, now);
      var tempId := TempId(stamp);
      Prepend(OptimisticRow(tempId, p, now));
      formOpen := false;
      sent := Some(p);
      match upsert {
        case UpsertFailed(m) =>
          Drop(tempId);
          error := Some(m.GetOr("Failed to save schedule."));
        case UpsertReturned(row) =>
          if row.None? {
            Drop(tempId);
            error := Some("No row returned from upsert");
          } else {
            Confirm(tempId, ToScheduled(row.value));
          }
      }
    }

    /** `deleteSchedule`: nothing happens unless the user confirms; the row is
        filtered out at once and the earlier list comes back if the remote
        delete fails. */
    method DeleteSchedule(id: string, confirmed: bool, outcome: DeleteOutcome)
      modifies this`schedules, this`error
      ensures !confirmed ==> schedules == old(schedules) && error == old(error)
      ensures confirmed && outcome.Deleted? ==>
                schedules == RowLists.Without(old(schedules), IdOf, {id}) && error == old(error)
      ensures confirmed && outcome.DeleteFailed? ==>
                schedules == old(schedules) && error == Some(outcome.message.GetOr("Delete failed."))
    {
      if !confirmed {
        return;
      }
      var prev := schedules;
      Drop(id);
      if outcome.DeleteFailed? {
        schedules := prev;
        error := Some(outcome.message.GetOr("Delete failed."));
      }
    }
  }
}
