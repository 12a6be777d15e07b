/**
 * The Swing budget view-model (`viewmodel/MyBudgetViewModel`): the budget
 * tree's selected period type and date, the last date shown per period type,
 * the budgeted net income text, and the property-change events it fires.
 */
module SwingBudget {
  import opened Wrappers
  import opened Entities
  import opened JavaLists
  import opened BudgetPeriods

  /** The property-change events, with their old and new values. */
  datatype Event =
    | TreeStructureChanged
    | PeriodTypeChanged(fromType: Option<PeriodType>, toType: PeriodType)
    | SelectedDateChanged(fromDate: Option<Date>, toDate: Option<Date>)
    | NetIncomeTextChanged(fromText: Option<string>, toText: string)

  /** `PropertyChangeSupport.firePropertyChange`: no event when the old and the
      new value are equal and non-null. */
  function Fired<T(==)>(before: Option<T>, after: Option<T>, e: Event): (r: seq<Event>)
    ensures r == [] <==> before.Some? && before == after
    ensures r != [] ==> r == [e]
  {
    if before.Some? && after.Some? && before == after then [] else [e]
  }

  /* ----- the period memory, as a function of the previous one ----- */

  /** `setSelectedDate(d)` once a type is selected: the date moves to the start
      of its period, and is remembered under the type's name. */
  function AfterSetDate(m: PeriodMemory, d: Date, startOf: (PeriodType, Date) -> Date): PeriodMemory
    requires m.periodType.Some?
  {
    var normalized := startOf(m.periodType.value, d);
    PeriodMemory(m.periodType, Some(normalized), m.dates[PeriodKey(m.periodType) := normalized])
  }

  /** The memory once the outgoing type's date is saved under its name. */
  function SavedDates(m: PeriodMemory): map<string, Date> {
    if m.periodType.Some? && m.date.Some? then m.dates[PeriodKey(m.periodType) := m.date.value]
    else m.dates
  }

  /** Switching to `t` needs a date to fall back on when `t` has none remembered. */
  predicate CanSwitch(m: PeriodMemory, t: PeriodType) {
    m.periodType == Some(t) || t.name in SavedDates(m) || m.date.Some?
  }

  /** `setSelectedBudgetPeriodType(t)` for a non-null `t`. */
  function AfterSetType(m: PeriodMemory, t: PeriodType, startOf: (PeriodType, Date) -> Date): PeriodMemory
    requires CanSwitch(m, t)
  {
    if m.periodType == Some(t) then m
    else
      var saved := SavedDates(m);
      if t.name in saved then PeriodMemory(Some(t), Some(saved[t.name]), saved)
      else
        var fallback := startOf(t, m.date.value);
        PeriodMemory(Some(t), Some(fallback), saved[t.name := fallback])
  }

  lemma SetDateIsConsistent(m: PeriodMemory, d: Date, startOf: (PeriodType, Date) -> Date)
    requires m.periodType.Some?
    ensures Consistent(AfterSetDate(m, d, startOf))
    ensures AfterSetDate(m, d, startOf).date == Some(startOf(m.periodType.value, d))
    ensures forall k :: k in m.dates && k != PeriodKey(m.periodType) ==>
      k in AfterSetDate(m, d, startOf).dates && AfterSetDate(m, d, startOf).dates[k] == m.dates[k]
  {
  }

  /** A real switch establishes the invariant (from any state, the first
      switch included), a switch to the current type keeps it, and a
      remembered date wins over the fallback. */
  lemma SetTypeIsConsistent(m: PeriodMemory, t: PeriodType, startOf: (PeriodType, Date) -> Date)
    requires CanSwitch(m, t)
    ensures m.periodType != Some(t) ==> Consistent(AfterSetType(m, t, startOf))
    ensures Consistent(m) ==> Consistent(AfterSetType(m, t, startOf))
    ensures AfterSetType(m, t, startOf).periodType == Some(t)
    ensures m.periodType != Some(t) && t.name in SavedDates(m) ==>
      AfterSetType(m, t, startOf).date == Some(SavedDates(m)[t.name])
    ensures m.periodType != Some(t) && t.name !in SavedDates(m) ==>
      AfterSetType(m, t, startOf).date == Some(startOf(t, m.date.value))
  {
  }

  /** Switching from `a` to `b` and back, with no date change between,
      returns to `a`'s date. */
  lemma SwitchAndBackRestoresDate(m: PeriodMemory, a: PeriodType, b: PeriodType,
                                  startOf: (PeriodType, Date) -> Date)
    requires m.periodType == Some(a) && m.date.Some? && a != b
    ensures CanSwitch(m, b)
    ensures CanSwitch(AfterSetType(m, b, startOf), a)
    ensures AfterSetType(AfterSetType(m, b, startOf), a, startOf) == PeriodMemory(Some(a), m.date,
      AfterSetType(AfterSetType(m, b, startOf), a, startOf).dates)
  {
    var m1 := AfterSetType(m, b, startOf);
    assert m1.date.Some?;
    var m2 := AfterSetType(m1, a, startOf);
    assert SavedDates(m1)[a.name] == m.date.value;
  }

  /** The month/week scenario of the budget view: pick a date under `a`, switch
      to `b`, pick another date there, switch back: `a` shows its own date's
      period again. */
  lemma DatePersistsAcrossPeriodTypes(m: PeriodMemory, a: PeriodType, b: PeriodType,
                                      d1: Date, d2: Date, startOf: (PeriodType, Date) -> Date)
    requires m.periodType == Some(a) && a.name != b.name
    ensures var m1 := AfterSetDate(m, d1, startOf);
      CanSwitch(m1, b) &&
      var m2 := AfterSetType(m1, b, startOf);
      m2.periodType.Some? &&
      var m3 := AfterSetDate(m2, d2, startOf);
      CanSwitch(m3, a) &&
      AfterSetType(m3, a, startOf).date == Some(startOf(a, d1))
  {
    var m1 := AfterSetDate(m, d1, startOf);
    var m2 := AfterSetType(m1, b, startOf);
    var m3 := AfterSetDate(m2, d2, startOf);
    assert m3.periodType == Some(b);
    assert m3.dates[a.name] == startOf(a, d1);
    assert SavedDates(m3)[a.name] == startOf(a, d1);
  }

  /** Types with the same name share one remembered date: a date picked under
      `b` is what `a` shows after switching back. */
  lemma EqualNamesShareOneSlot(m: PeriodMemory, a: PeriodType, b: PeriodType,
                               d: Date, startOf: (PeriodType, Date) -> Date)
    requires m.periodType == Some(a) && m.date.Some? && a != b && a.name == b.name
    ensures var m1 := AfterSetType(m, b, startOf);
      m1.periodType.Some? &&
      var m2 := AfterSetDate(m1, d, startOf);
      CanSwitch(m2, a) &&
      AfterSetType(m2, a, startOf).date == Some(startOf(b, d))
  {
    var m1 := AfterSetType(m, b, startOf);
    var m2 := AfterSetDate(m1, d, startOf);
    assert SavedDates(m2)[a.name] == startOf(b, d);
  }

  /** The selection helper keeps exactly the budget category rows. */
  lemma SelectedCategoriesExactly(rows: seq<RowValue>, c: Category)
    ensures c in Collect(rows, AsCategory) <==> CategoryRow(c) in rows
  {
    CollectMembers(rows, AsCategory, c);
    if CategoryRow(c) in rows {
      var i :| 0 <= i < |rows| && rows[i] == CategoryRow(c);
      assert AsCategory(rows[i]) == Some(c);
    }
  }

  /** The view-model.  The tree table model's selected type and date are
      held here; the document enters as `book`. */
  class MyBudgetViewModel {
    const book: BudgetBook
    /** `BudgetCategoryType.getStartOfBudgetPeriod`. */
    const startOf: (PeriodType, Date) -> Date
    /** `TextFormatter.getHtmlWrapper(TextFormatter.getFormattedCurrency(_))`. */
    const formatHtml: int -> string

    var periodType: Option<PeriodType>
    var date: Option<Date>
    var periodDates: map<string, Date>
    var netIncomeText: Option<string>
    var events: seq<Event>

    function Memory(): PeriodMemory
      reads this
    {
      PeriodMemory(periodType, date, periodDates)
    }

    /** The net income text for the current selection. */
    function NetIncomeText(): string
      reads this
    {
      formatHtml(BudgetedNetIncome(book, periodType, date))
    }

    constructor (book: BudgetBook, startOf: (PeriodType, Date) -> Date, formatHtml: int -> string,
                 periodType: Option<PeriodType>, date: Option<Date>)
      ensures this.book == book && this.startOf == startOf && this.formatHtml == formatHtml
      ensures Memory() == PeriodMemory(periodType, date, map[])
      ensures netIncomeText == Some(NetIncomeText())
      ensures events == [TreeStructureChanged, NetIncomeTextChanged(None, NetIncomeText())]
    {
      this.book := book;
      this.startOf := startOf;
      this.formatHtml := formatHtml;
      this.periodType := periodType;
      this.date := date;
      periodDates := map[];
      netIncomeText := None;
      events := [];
      new;
      Refresh();
    }

    /** `calculateBudgetedNetIncome`: sums +amount for income and -amount for
        expense categories of the selected type, at the selected date. */
    method CalculateBudgetedNetIncome() returns (total: int)
      ensures total == BudgetedNetIncome(book, periodType, date)
    {
      if periodType.None? || date.None? {
        return 0;
      }
      total := 0;
      var categories := book.ofType(periodType.value);
      var i := 0;
      while i < |categories|
        invariant 0 <= i <= |categories|
        invariant total == NetIncome(categories[..i], book.amountAt, date.value)
      {
        var category := categories[i];
        var amount := book.amountAt(category, date.value);
        total := total + if category.isIncome then amount else -amount;
        NetIncomeAppend(categories[..i], [category], book.amountAt, date.value);
        assert categories[..i + 1] == categories[..i] + [category];
        i := i + 1;
      }
      assert categories[..i] == categories;
    }

    /** `updateNetIncomeText`: reformats the net income, and announces it
        when the text changed. */
    method UpdateNetIncomeText()
      modifies this`netIncomeText, this`events
      ensures netIncomeText == Some(NetIncomeText())
      ensures events == old(events)
        + Fired(old(netIncomeText), netIncomeText, NetIncomeTextChanged(old(netIncomeText), NetIncomeText()))
    {
      var previous := netIncomeText;
      var netIncome := CalculateBudgetedNetIncome();
      var formatted := formatHtml(netIncome);
      netIncomeText := Some(formatted);
      if previous.None? || previous.value != formatted {
        events := events + [NetIncomeTextChanged(previous, formatted)];
      }
    }

    method NotifyTreeStructureChanged()
      modifies this`events
      ensures events == old(events) + [TreeStructureChanged]
    {
      events := events + [TreeStructureChanged];
    }

    /** `refresh`: the tree is redrawn and the net income text recomputed. */
    method Refresh()
      modifies this`netIncomeText, this`events
      ensures netIncomeText == Some(NetIncomeText())
      ensures events == old(events) + [TreeStructureChanged]
        + Fired(old(netIncomeText), netIncomeText, NetIncomeTextChanged(old(netIncomeText), NetIncomeText()))
    {
      NotifyTreeStructureChanged();
      UpdateNetIncomeText();
    }

    /** `setSelectedDate`.  The source dereferences the selected type, so a
        date may only be picked once a type is selected. */
    method SetSelectedDate(d: Option<Date>)
      requires d.Some? ==> periodType.Some?
      modifies this
      ensures d.None? ==>
        Memory() == old(Memory()) && netIncomeText == old(netIncomeText) && events == old(events)
      ensures d.Some? ==> Memory() == AfterSetDate(old(Memory()), d.value, startOf)
      ensures d.Some? ==> netIncomeText == Some(NetIncomeText())
      ensures d.Some? ==>
        events == old(events)
          + (if old(date) != date then [SelectedDateChanged(old(date), date)] else [])
          + [TreeStructureChanged]
          + Fired(old(netIncomeText), netIncomeText, NetIncomeTextChanged(old(netIncomeText), NetIncomeText()))
    {
      if d.None? {
        return;
      }
      var normalized := startOf(periodType.value, d.value);
      var current := date;
      var dateChanged := current.None? || current.value != normalized;
      if dateChanged {
        date := Some(normalized);
        events := events + [SelectedDateChanged(current, Some(normalized))];
      }
      periodDates := periodDates[PeriodKey(periodType) := normalized];
      NotifyTreeStructureChanged();
      UpdateNetIncomeText();
    }

    /** `setSelectedBudgetPeriodType`. */
    method SetSelectedBudgetPeriodType(t: Option<PeriodType>)
      requires t.Some? ==> CanSwitch(Memory(), t.value)
      modifies this
      ensures t.None? || old(periodType) == t ==>
        Memory() == old(Memory()) && netIncomeText == old(netIncomeText) && events == old(events)
      ensures t.Some? && old(periodType) != t ==>
        Memory() == AfterSetType(old(Memory()), t.value, startOf)
        && netIncomeText == Some(NetIncomeText())
        && events == old(events)
          + [PeriodTypeChanged(old(periodType), t.value)]
          + Fired(old(date), date, SelectedDateChanged(old(date), date))
          + [TreeStructureChanged]
          + Fired(old(netIncomeText), netIncomeText, NetIncomeTextChanged(old(netIncomeText), NetIncomeText()))
    {
      if t.None? {
        return;
      }
      var newType := t.value;
      var currentType := periodType;
      if currentType == Some(newType) {
        return;
      }
      var currentDate := date;
      if currentType.Some? && currentDate.Some? {
        periodDates := periodDates[PeriodKey(currentType) := currentDate.value];
      }
      periodType := Some(newType);
      var key := PeriodKey(periodType);
      if key in periodDates {
        date := Some(periodDates[key]);
      } else {
        var fallback := startOf(newType, date.value);
        date := Some(fallback);
        periodDates := periodDates[key := fallback];
      }
      events := events + [PeriodTypeChanged(currentType, newType)]
        + Fired(currentDate, date, SelectedDateChanged(currentDate, date));
      NotifyTreeStructureChanged();
      UpdateNetIncomeText();
    }

    /** `getSelectedBudgetCategories`: the selected rows that are budget
        categories, in order; none for a null selection. */
    method GetSelectedBudgetCategories(rowValues: Option<seq<RowValue>>) returns (categories: seq<Category>)
      ensures rowValues.None? ==> categories == []
      ensures rowValues.Some? ==> categories == Collect(rowValues.value, AsCategory)
    {
      categories := [];
      if rowValues.None? {
        return;
      }
      var values := rowValues.value;
      var i := 0;
      while i < |values|
        invariant 0 <= i <= |values|
        invariant categories == Collect(values[..i], AsCategory)
      {
        CollectAppend(values[..i], [values[i]], AsCategory);
        assert values[..i + 1] == values[..i] + [values[i]];
        if values[i].CategoryRow? {
          categories := categories + [values[i].category];
        }
        i := i + 1;
      }
      assert values[..i] == values;
    }
  }
}
