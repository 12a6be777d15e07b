/**
 * The JavaFX budget view-model (`mvvm/mybudget/MyBudgetViewModel`).  The
 * selected period type and date are observable properties whose change
 * listeners keep the per-type date memory and the net income text: a
 * property set fires its listener only when the value really changes.
 */
module FxBudget {
  import opened Wrappers
  import opened Entities
  import opened JavaText
  import opened BudgetPeriods

  /* ----- the period memory, as a function of the previous one ----- */

  /** `selectedDate.set(d)` with its listener: a new non-null date is
      remembered under the selected type's name, if a type is selected. */
  function FxSetDate(m: PeriodMemory, d: Option<Date>): PeriodMemory {
    if d == m.date then m
    else if d.Some? && m.periodType.Some? then
      PeriodMemory(m.periodType, d, m.dates[PeriodKey(m.periodType) := d.value])
    else PeriodMemory(m.periodType, d, m.dates)
  }

  /** The date `updateDateForPeriodType` moves to: the remembered one, else the
      start of the period holding the current date, or `now` without one. */
  function TargetDate(m: PeriodMemory, t: PeriodType, now: Date, startOf: (PeriodType, Date) -> Date): Date {
    if PeriodKey(Some(t)) in m.dates then m.dates[PeriodKey(Some(t))]
    else startOf(t, m.date.GetOr(now))
  }

  /** `selectedPeriodType.set(t)` with its listener. */
  function FxSetType(m: PeriodMemory, t: Option<PeriodType>, now: Date,
                     startOf: (PeriodType, Date) -> Date): PeriodMemory
  {
    if t == m.periodType then m
    else if t.None? then PeriodMemory(None, m.date, m.dates)
    else
      var switched := PeriodMemory(t, m.date, m.dates);
      FxSetDate(switched, Some(TargetDate(switched, t.value, now, startOf)))
  }

  /** A new non-null date picked while a type is selected is remembered for
      it, from any state, and no other type's date changes; setting the date
      already shown changes nothing; a null date never touches the memory. */
  lemma SetDateRemembers(m: PeriodMemory, d: Option<Date>)
    ensures d != m.date && d.Some? && m.periodType.Some? ==>
      FxSetDate(m, d).dates == m.dates[PeriodKey(m.periodType) := d.value]
    ensures d != m.date && d.Some? && m.periodType.Some? ==> Consistent(FxSetDate(m, d))
    ensures d == m.date ==> FxSetDate(m, d) == m
    ensures d.None? ==> FxSetDate(m, d).dates == m.dates
    ensures d.Some? && m.periodType.Some? && Consistent(m) ==> Consistent(FxSetDate(m, d))
    ensures FxSetDate(m, d).date == d && FxSetDate(m, d).periodType == m.periodType
  {
  }

  /** Selecting a type with a remembered date shows that date; otherwise the
      start of the current (or `now`'s) period; a null type changes nothing
      but the selection. */
  lemma SetTypeShowsTarget(m: PeriodMemory, t: Option<PeriodType>, now: Date,
                           startOf: (PeriodType, Date) -> Date)
    ensures FxSetType(m, t, now, startOf).periodType == t
    ensures t.None? ==> FxSetType(m, t, now, startOf).date == m.date
    ensures t.None? ==> FxSetType(m, t, now, startOf).dates == m.dates
    ensures t.Some? && t != m.periodType && t.value.name in m.dates ==>
      FxSetType(m, t, now, startOf).date == Some(m.dates[t.value.name])
    ensures t.Some? && t != m.periodType && t.value.name !in m.dates ==>
      FxSetType(m, t, now, startOf).date == Some(startOf(t.value, m.date.GetOr(now)))
  {
  }

  /** From a consistent state, switching from `a` to a differently named `b`
      and back returns to `a`'s date. */
  lemma SwitchAndBackRestoresDate(m: PeriodMemory, a: PeriodType, b: PeriodType, now: Date,
                                  startOf: (PeriodType, Date) -> Date)
    requires m.periodType == Some(a) && m.date.Some? && Consistent(m) && a.name != b.name
    ensures FxSetType(FxSetType(m, Some(b), now, startOf), Some(a), now, startOf).date == m.date
  {
    var m1 := FxSetType(m, Some(b), now, startOf);
    assert m1.dates[a.name] == m.date.value;
  }

  /** A switch to a type with nothing remembered, whose period start is the
      date already shown, fires no date change, so that type's date is not
      remembered. */
  lemma UnchangedDateIsNotRemembered(m: PeriodMemory, t: PeriodType, now: Date,
                                     startOf: (PeriodType, Date) -> Date)
    requires m.periodType != Some(t) && t.name !in m.dates
    requires m.date == Some(startOf(t, m.date.GetOr(now)))
    ensures FxSetType(m, Some(t), now, startOf).date == m.date
    ensures t.name !in FxSetType(m, Some(t), now, startOf).dates
    ensures !Consistent(FxSetType(m, Some(t), now, startOf))
  {
  }

  /** The consequence: `year` shows `d1` (already a year start, so nothing is
      remembered), the view goes back to `month` and moves to `d2`, and
      returning to `year` shows `d2`'s year rather than `d1`. */
  lemma ForgetsDateShownUnderNewType(m: PeriodMemory, month: PeriodType, year: PeriodType,
                                     d1: Date, d2: Date, now: Date, startOf: (PeriodType, Date) -> Date)
    requires m.periodType == Some(month) && m.date == Some(d1) && Consistent(m)
    requires month.name != year.name && year.name !in m.dates
    requires startOf(year, d1) == d1 && d2 != d1 && startOf(year, d2) != d1
    ensures var m1 := FxSetType(m, Some(year), now, startOf);
      m1.date == Some(d1) &&
      var m2 := FxSetType(m1, Some(month), now, startOf);
      var m3 := FxSetDate(m2, Some(d2));
      FxSetType(m3, Some(year), now, startOf).date == Some(startOf(year, d2))
      && FxSetType(m3, Some(year), now, startOf).date != Some(d1)
  {
    var m1 := FxSetType(m, Some(year), now, startOf);
    assert year.name !in m1.dates;
    var m2 := FxSetType(m1, Some(month), now, startOf);
    assert m2.date == Some(d1);
    var m3 := FxSetDate(m2, Some(d2));
    assert year.name !in m3.dates;
  }

  /** The view-model; the document enters as `book`. */
  class MyBudgetViewModel {
    var book: BudgetBook
    /** `BudgetCategoryType.getStartOfBudgetPeriod`. */
    const startOf: (PeriodType, Date) -> Date
    /** `TextFormatter.getFormattedCurrency`. */
    const formatCurrency: int -> string

    var periodType: Option<PeriodType>
    var date: Option<Date>
    var periodDates: map<string, Date>
    var netIncomeText: Option<string>
    /** How many `budgetTreeChanged` events have been fired. */
    var treeChangedEvents: nat

    function Memory(): PeriodMemory
      reads this
    {
      PeriodMemory(periodType, date, periodDates)
    }

    /** `updateNetIncome`'s text: the formatted net income with its HTML tags
        stripped, after a label. */
    function NetIncomeText(): string
      reads this
    {
      "Net Income: " + StripTags(formatCurrency(BudgetedNetIncome(book, periodType, date)))
    }

    constructor (book: BudgetBook, startOf: (PeriodType, Date) -> Date, formatCurrency: int -> string)
      ensures this.book == book && this.startOf == startOf && this.formatCurrency == formatCurrency
      ensures Memory() == PeriodMemory(None, None, map[])
      ensures netIncomeText == None && treeChangedEvents == 0
    {
      this.book := book;
      this.startOf := startOf;
      this.formatCurrency := formatCurrency;
      periodType, date, periodDates := None, None, map[];
      netIncomeText, treeChangedEvents := None, 0;
    }

    /** `calculateBudgetedNetIncome`. */
    method CalculateBudgetedNetIncome() returns (total: int)
      ensures total == BudgetedNetIncome(book, periodType, date)
    {
      if periodType.None? || date.None? {
        return 0;
      }
      total := 0;
      var categories := book.ofType(periodType.value);
      for i := 0 to |categories|
        invariant total == NetIncome(categories[..i], book.amountAt, date.value)
      {
        var category := categories[i];
        var amount := book.amountAt(category, date.value);
        total := total + if category.isIncome then amount else -amount;
        NetIncomeAppend(categories[..i], [category], book.amountAt, date.value);
        assert categories[..i + 1] == categories[..i] + [category];
      }
      assert categories[..|categories|] == categories;
    }

    method UpdateNetIncome()
      modifies this`netIncomeText
      ensures netIncomeText == Some(NetIncomeText())
    {
      var net := CalculateBudgetedNetIncome();
      var formatted := StripTags(formatCurrency(net));
      netIncomeText := Some("Net Income: " + formatted);
    }

    /** `selectedDate.set(d)`, then its change listener. */
    method SetSelectedDate(d: Option<Date>)
      modifies this`date, this`periodDates, this`netIncomeText, this`treeChangedEvents
      ensures Memory() == FxSetDate(old(Memory()), d)
      ensures d != old(date) && d.Some? && periodType.Some? ==>
        netIncomeText == Some(NetIncomeText()) && treeChangedEvents == old(treeChangedEvents) + 1
      ensures !(d != old(date) && d.Some? && periodType.Some?) ==>
        netIncomeText == old(netIncomeText) && treeChangedEvents == old(treeChangedEvents)
    {
      if d == date {
        return;
      }
      date := d;
      if d.Some? && periodType.Some? {
        periodDates := periodDates[PeriodKey(periodType) := d.value];
        UpdateNetIncome();
        treeChangedEvents := treeChangedEvents + 1;
      }
    }

    /** `updateDateForPeriodType`: show the remembered date, or the start of
        the period holding the current date (`now` without one). */
    method UpdateDateForPeriodType(t: PeriodType, now: Date)
      requires periodType == Some(t)
      modifies this`date, this`periodDates, this`netIncomeText, this`treeChangedEvents
      ensures Memory() == FxSetDate(old(Memory()), Some(TargetDate(old(Memory()), t, now, startOf)))
      ensures date != old(date) ==>
        netIncomeText == Some(NetIncomeText()) && treeChangedEvents == old(treeChangedEvents) + 1
      ensures date == old(date) ==>
        netIncomeText == old(netIncomeText) && treeChangedEvents == old(treeChangedEvents)
    {
      var key := PeriodKey(Some(t));
      if key in periodDates {
        SetSelectedDate(Some(periodDates[key]));
      } else {
        var current := if date.Some? then date.value else now;
        SetSelectedDate(Some(startOf(t, current)));
      }
    }

    /** `selectedPeriodType.set(t)`, then its change listener; `now` stands
        for `new Date()`. */
    method SetSelectedPeriodType(t: Option<PeriodType>, now: Date)
      modifies this`periodType, this`date, this`periodDates, this`netIncomeText, this`treeChangedEvents
      ensures Memory() == FxSetType(old(Memory()), t, now, startOf)
      ensures t != old(periodType) && t.Some? ==>
        netIncomeText == Some(NetIncomeText())
        && treeChangedEvents == old(treeChangedEvents) + (if date != old(date) then 2 else 1)
      ensures !(t != old(periodType) && t.Some?) ==>
        netIncomeText == old(netIncomeText) && treeChangedEvents == old(treeChangedEvents)
    {
      if t == periodType {
        return;
      }
      periodType := t;
      if t.Some? {
        UpdateDateForPeriodType(t.value, now);
        UpdateNetIncome();
        treeChangedEvents := treeChangedEvents + 1;
      }
    }

    /** `setBudgetAmount`: with a category and a selected date, the category
        stores the amount at that date and the net income is recomputed.
        `setAmount` is `BudgetCategory.setAmount`, giving the budget after the
        write, or `None` when it throws `InvalidValueException` (which is
        swallowed). */
    method SetBudgetAmount(category: Option<Category>, amount: int,
                           setAmount: (BudgetBook, Category, Date, int) -> Option<BudgetBook>)
      modifies this`book, this`netIncomeText
      ensures category.None? || date.None? || setAmount(old(book), category.value, date.value, amount).None? ==>
        book == old(book) && netIncomeText == old(netIncomeText)
      ensures category.Some? && date.Some? && setAmount(old(book), category.value, date.value, amount).Some? ==>
        book == setAmount(old(book), category.value, date.value, amount).value
        && netIncomeText == Some(NetIncomeText())
    {
      if category.Some? && date.Some? {
        var written := setAmount(book, category.value, date.value, amount);
        if written.Some? {
          book := written.value;
          UpdateNetIncome();
        }
      }
    }

    /** `getBudgetCategoryTypes`: one period type per key of the period-type
        enumeration, in its order; `typeOf` is `ModelFactory.getBudgetCategoryType`. */
    method GetBudgetCategoryTypes(keys: seq<string>, typeOf: string -> PeriodType)
      returns (types: seq<PeriodType>)
      ensures |types| == |keys|
      ensures forall i :: 0 <= i < |keys| ==> types[i] == typeOf(keys[i])
    {
      types := [];
      for i := 0 to |keys|
        invariant |types| == i
        invariant forall j :: 0 <= j < i ==> types[j] == typeOf(keys[j])
      {
        types := types + [typeOf(keys[i])];
      }
    }
  }
}
