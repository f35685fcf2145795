/** The savings-goal form: the number fields as the form reads them, the
    amount to save per period, the monthly estimate for weekly goals, the
    checks before saving, the goal handed to the parent, and reset. */
module BudgetGoal {
  import opened Common

  /** A `type="number"` input holds either nothing or a number. */
  datatype NumText = Empty | Num(value: real)

  datatype Unit = Months | Weeks

  /** `Number(target || 0)` */
  function TargetNum(t: NumText): (r: real)
    ensures t.Empty? ==> r == 0.0
    ensures t.Num? ==> r == t.value
  {
    if t.Num? then t.value else 0.0
  }

  /** `Math.max(1, Math.floor(Number(duration) || 0))`: the whole number of
      periods, never below one. */
  function DurationNum(d: NumText): (r: int)
    ensures r >= 1
    ensures d.Num? && d.value >= 1.0 ==> r as real <= d.value < r as real + 1.0
    ensures d.Empty? || d.value < 1.0 ==> r == 1
  {
    var whole := if d.Num? then d.value.Floor else 0;
    if whole > 1 then whole else 1
  }

  /** The amount to save each period: the target spread evenly over the
      periods, and 0 for a zero target. */
  function PerPeriod(targetNum: real, durationNum: int): (r: real)
    requires durationNum >= 1
    ensures r * durationNum as real == targetNum
    ensures targetNum > 0.0 ==> 0.0 < r <= targetNum
    ensures targetNum == 0.0 ==> r == 0.0
  {
    if targetNum == 0.0 then 0.0 else targetNum / durationNum as real
  }

  /** `friendlyUnit` */
  function FriendlyUnit(u: Unit): (r: string)
    ensures u == Months ==> r == "month"
    ensures u == Weeks ==> r == "week"
  {
    if u == Months then "month" else "week"
  }

  /** The two units read differently. */
  lemma FriendlyUnitInjective(a: Unit, b: Unit)
    ensures FriendlyUnit(a) == FriendlyUnit(b) <==> a == b
  {
    assert |FriendlyUnit(Months)| == 5 && |FriendlyUnit(Weeks)| == 4;
  }

  /** The monthly estimate, shown only for a weekly goal with something to
      save: 52 weeks over 12 months. */
  function PerMonthIfWeeks(u: Unit, perPeriod: real): (r: Option<real>)
    ensures r.Some? <==> u == Weeks && perPeriod > 0.0
    ensures r.Some? ==> r.value * 12.0 == perPeriod * 52.0 && r.value > perPeriod
  {
    if u == Weeks && perPeriod > 0.0 then Some(perPeriod * (52.0 / 12.0)) else None
  }

  const NameError := "Please give the goal a name."
  const TargetError := "Enter a positive target amount."
  const DurationError := "Enter a duration (>=1)."

  /** `validate`, its checks in order; the duration check is kept as written. */
  function Validate(name: string, targetNum: real, durationNum: int): (r: Option<string>)
    ensures IsBlank(name) ==> r == Some(NameError)
    ensures !IsBlank(name) && targetNum <= 0.0 ==> r == Some(TargetError)
    ensures !IsBlank(name) && targetNum > 0.0 && durationNum >= 1 ==> r == None
  {
    if IsBlank(name) then Some(NameError)
    else if targetNum == 0.0 || targetNum <= 0.0 then Some(TargetError)
    else if durationNum == 0 || durationNum <= 0 then Some(DurationError)
    else None
  }

  /** The duration message cannot appear, because the form's duration is
      always at least one; so the form's checks are the name and the target. */
  lemma DurationCheckNeverFires(name: string, target: NumText, duration: NumText)
    ensures Validate(name, TargetNum(target), DurationNum(duration)) != Some(DurationError)
    ensures Validate(name, TargetNum(target), DurationNum(duration)) == None
            <==> !IsBlank(name) && TargetNum(target) > 0.0
  {
  }

  /** The goal passed to `onSave`. */
  datatype Goal = Goal(
    id: string,
    name: string,
    target: real,
    duration: int,
    unit: Unit,
    startDate: Option<string>,
    note: Option<string>,
    createdAt: string)

  /** `x || null` for an optional text field. */
  function NonEmpty(s: Option<string>): (r: Option<string>)
    ensures r.Some? <==> s.Some? && s.value != []
    ensures r.Some? ==> r == s
  {
    if s.Some? && s.value != [] then s else None
  }

  /** The goal built by `handleSave`, from the clock reading `stamp` and the
      timestamp text `now`. */
  function MakeGoal(name: string, target: NumText, duration: NumText, u: Unit,
                    startDate: Option<string>, note: string, stamp: int, now: string): (g: Goal)
    ensures g.id == "local-" + IntText(stamp)
    ensures g.name == Trim(name)
    ensures g.target == Fixed2(TargetNum(target))
    ensures g.duration == DurationNum(duration) && g.unit == u && g.createdAt == now
    ensures g.startDate == NonEmpty(startDate)
    ensures g.note == NonEmpty(Some(note))
  {
    Goal("local-" + IntText(stamp), Trim(name), Fixed2(TargetNum(target)),
         DurationNum(duration), u, NonEmpty(startDate), NonEmpty(Some(note)), now)
  }

  /** A goal that passed the checks has a non-empty trimmed name, a
      duration of at least one, a target rounded to the cent that is not
      negative, and an id marked as local. */
  lemma SavedGoalShape(name: string, target: NumText, duration: NumText, u: Unit,
                       startDate: Option<string>, note: string, stamp: int, now: string)
    requires Validate(name, TargetNum(target), DurationNum(duration)) == None
    ensures var g := MakeGoal(name, target, duration, u, startDate, note, stamp, now);
            && g.name != [] && g.duration >= 1 && g.target >= 0.0
            && g.target * 100.0 == Cents(TargetNum(target)) as real
            && g.id[..6] == "local-"
  {
    var g := MakeGoal(name, target, duration, u, startDate, note, stamp, now);
    assert g.id == "local-" + IntText(stamp);
  }

  /** Goals saved at different clock readings get different ids. */
  lemma GoalIdsDiffer(name: string, target: NumText, duration: NumText, u: Unit,
                      startDate: Option<string>, note: string, now: string, stamp1: int, stamp2: int)
    requires stamp1 != stamp2
    ensures MakeGoal(name, target, duration, u, startDate, note, stamp1, now).id
         != MakeGoal(name, target, duration, u, startDate, note, stamp2, now).id
  {
    IntTextInjective(stamp1, stamp2);
    assert ("local-" + IntText(stamp1))[6..] == IntText(stamp1);
    assert ("local-" + IntText(stamp2))[6..] == IntText(stamp2);
  }

  /** A target below half a cent passes the checks and is saved as 0. */
  lemma SubCentTargetSavedAsZero()
    ensures Validate("Shirt", TargetNum(Num(0.001)), DurationNum(Num(3.0))) == None
    ensures MakeGoal("Shirt", Num(0.001), Num(3.0), Months, None, "", 0, "").target == 0.0
  {
    assert "Shirt"[0] == 'S' && !IsSpace("Shirt"[0]);
    assert Cents(0.001) == 0;
  }

  /** The initial values a parent may pass in. */
  datatype Defaults = Defaults(
    name: Option<string>,
    target: Option<real>,
    duration: Option<real>,
    unit: Option<Unit>,
    startDate: Option<string>,
    note: Option<string>)

  class GoalForm {
    var name: string
    var target: NumText
    var duration: NumText
    var unit: Unit
    var startDate: Option<string>
    var note: string
    var error: Option<string>
    var saving: bool

    /** The initial state: the given values, else empty fields, a duration
        of 3 and months. */
    constructor (d: Defaults)
      ensures name == d.name.GetOr("")
      ensures target == (if d.target.Some? then Num(d.target.value) else Empty)
      ensures duration == Num(d.duration.GetOr(3.0))
      ensures unit == d.unit.GetOr(Months) && startDate == d.startDate && note == d.note.GetOr("")
      ensures error == None && !saving
    {
      name := d.name.GetOr("");
      target := if d.target.Some? then Num(d.target.value) else Empty;
      duration := Num(d.duration.GetOr(3.0));
      unit := d.unit.GetOr(Months);
      startDate := d.startDate;
      note := d.note.GetOr("");
      error, saving := None, false;
    }

    /** The amount shown per period. */
    function ShownPerPeriod(): (r: real)
      reads this
      ensures r * DurationNum(duration) as real == TargetNum(target)
    {
      PerPeriod(TargetNum(target), DurationNum(duration))
    }

    /** `handleSave`: the goal passed to the parent, if the checks pass.
        `onSaveThrew` says whether the parent's callback failed. */
    method HandleSave(stamp: int, now: string, onSaveThrew: bool) returns (saved: Option<Goal>)
      modifies this`error, this`saving
      ensures !saving
      ensures var v := Validate(name, TargetNum(target), DurationNum(duration));
              && (v.Some? ==> saved == None && error == v)
              && (v.None? ==> saved == Some(MakeGoal(name, target, duration, unit, startDate, note, stamp, now))
                              && error == (if onSaveThrew then Some("Save failed.") else None))
    {
      error := None;
      var v := Validate(name, TargetNum(target), DurationNum(duration));
      if v.Some? {
        error := v;
        saved := None;
        saving := false;
        return;
      }
      saving := true;
      saved := Some(MakeGoal(name, target, duration, unit, startDate, note, stamp, now));
      if onSaveThrew {
        error := Some("Save failed.");
      }
      saving := false;
    }

    /** The Reset button. */
    method Reset()
      modifies this`name, this`target, this`duration, this`unit, this`startDate, this`note, this`error
      ensures name == "" && target == Empty && duration == Num(3.0) && unit == Months
      ensures startDate == None && note == "" && error == None
    {
      name, target, duration, unit := "", Empty, Num(3.0), Months;
      startDate, note, error := None, "", None;
    }
  }
}
