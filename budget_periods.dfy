/**
 * What the two MyBudget view-models share: the key under which a period
 * type's last date is remembered, the remembered state itself, and the
 * budgeted net income of a period.
 */
module BudgetPeriods {
  import opened Wrappers
  import opened Entities
  import opened JavaLists

  /** `periodKey`: the type's name, or "" for no type. */
  function PeriodKey(t: Option<PeriodType>): string {
    match t
    case Some(pt) => pt.name
    case None => ""
  }

  /** Two period types share one memory slot exactly when their names are
      equal, whatever else distinguishes them. */
  lemma PeriodKeysShareSlot(a: PeriodType, b: PeriodType)
    ensures PeriodKey(Some(a)) == PeriodKey(Some(b)) <==> a.name == b.name
  {
  }

  /** The selected period type, the selected date, and the last date shown
      for each period-type name. */
  datatype PeriodMemory = PeriodMemory(
    periodType: Option<PeriodType>,
    date: Option<Date>,
    dates: map<string, Date>)

  /** The invariant both view-models aim for: the selected date is the one
      remembered for the selected type. */
  predicate Consistent(m: PeriodMemory) {
    m.periodType.Some? && m.date.Some? ==>
      PeriodKey(m.periodType) in m.dates && m.dates[PeriodKey(m.periodType)] == m.date.value
  }

  /** One category's contribution to net income: its budgeted amount,
      negated for an expense category. */
  function SignedAmount(c: Category, amountAt: (Category, Date) -> int, d: Date): int {
    if c.isIncome then amountAt(c, d) else -amountAt(c, d)
  }

  /** The budgeted net income of `categories` at `d`. */
  function NetIncome(categories: seq<Category>, amountAt: (Category, Date) -> int, d: Date): int {
    if categories == [] then 0
    else SignedAmount(categories[0], amountAt, d) + NetIncome(categories[1..], amountAt, d)
  }

  /** The plain sum of the budgeted amounts of `categories` at `d`. */
  function Total(categories: seq<Category>, amountAt: (Category, Date) -> int, d: Date): int {
    if categories == [] then 0
    else amountAt(categories[0], d) + Total(categories[1..], amountAt, d)
  }

  /** `calculateBudgetedNetIncome`: no type or no date gives 0; otherwise the
      net income of the categories of that period type, at that date. */
  function BudgetedNetIncome(book: BudgetBook, t: Option<PeriodType>, d: Option<Date>): int {
    if t.None? || d.None? then 0 else NetIncome(book.ofType(t.value), book.amountAt, d.value)
  }

  /** Net income adds up piece by piece, which is what the accumulating loop does. */
  lemma {:induction false} NetIncomeAppend(s: seq<Category>, t: seq<Category>,
                                          amountAt: (Category, Date) -> int, d: Date)
    ensures NetIncome(s + t, amountAt, d) == NetIncome(s, amountAt, d) + NetIncome(t, amountAt, d)
  {
    if s == [] {
      assert s + t == t;
    } else {
      assert (s + t)[1..] == s[1..] + t;
      NetIncomeAppend(s[1..], t, amountAt, d);
    }
  }

  /** Net income is the income categories' total less the expense categories' total. */
  lemma {:induction false} NetIncomeIsIncomeLessExpense(s: seq<Category>,
                                                       amountAt: (Category, Date) -> int, d: Date)
    ensures NetIncome(s, amountAt, d)
         == Total(Filter(s, (c: Category) => c.isIncome), amountAt, d)
          - Total(Filter(s, (c: Category) => !c.isIncome), amountAt, d)
  {
    if s != [] {
      var income := (c: Category) => c.isIncome;
      var expense := (c: Category) => !c.isIncome;
      NetIncomeIsIncomeLessExpense(s[1..], amountAt, d);
      var head := [s[0]];
      assert Filter(s, income) == (if s[0].isIncome then head else []) + Filter(s[1..], income);
      assert Filter(s, expense) == (if s[0].isIncome then [] else head) + Filter(s[1..], expense);
      TotalAppend(if s[0].isIncome then head else [], Filter(s[1..], income), amountAt, d);
      TotalAppend(if s[0].isIncome then [] else head, Filter(s[1..], expense), amountAt, d);
    }
  }

  lemma {:induction false} TotalAppend(s: seq<Category>, t: seq<Category>,
                                      amountAt: (Category, Date) -> int, d: Date)
    ensures Total(s + t, amountAt, d) == Total(s, amountAt, d) + Total(t, amountAt, d)
  {
    if s == [] {
      assert s + t == t;
    } else {
      assert (s + t)[1..] == s[1..] + t;
      TotalAppend(s[1..], t, amountAt, d);
    }
  }

  /** Taking one category out of the list takes its signed amount out of
      the net income. */
  lemma NetIncomeRemoveAt(t: seq<Category>, i: nat, amountAt: (Category, Date) -> int, d: Date)
    requires i < |t|
    ensures NetIncome(t, amountAt, d)
         == SignedAmount(t[i], amountAt, d) + NetIncome(t[..i] + t[i+1..], amountAt, d)
  {
    assert t == t[..i] + ([t[i]] + t[i+1..]);
    NetIncomeAppend(t[..i], [t[i]] + t[i+1..], amountAt, d);
    NetIncomeAppend([t[i]], t[i+1..], amountAt, d);
    NetIncomeAppend(t[..i], t[i+1..], amountAt, d);
  }

  /** Removing one copy of `c` from both sides keeps two equal multisets equal. */
  lemma MultisetRemoveAt(s: seq<Category>, t: seq<Category>, i: nat)
    requires s != [] && i < |t| && t[i] == s[0] && multiset(s) == multiset(t)
    ensures multiset(s[1..]) == multiset(t[..i] + t[i+1..])
  {
    assert s == [s[0]] + s[1..];
    assert t == t[..i] + [t[i]] + t[i+1..];
    var rest := t[..i] + t[i+1..];
    assert multiset(t) == multiset([s[0]]) + multiset(rest);
    forall x ensures multiset(s[1..])[x] == multiset(rest)[x] {
      assert (multiset([s[0]]) + multiset(s[1..]))[x] == (multiset([s[0]]) + multiset(rest))[x];
    }
  }

  /** Net income does not depend on the order of the categories: any
      rearrangement of the same categories gives the same total. */
  lemma {:induction false} NetIncomePermutation(s: seq<Category>, t: seq<Category>,
                                               amountAt: (Category, Date) -> int, d: Date)
    requires multiset(s) == multiset(t)
    ensures NetIncome(s, amountAt, d) == NetIncome(t, amountAt, d)
    decreases |s|
  {
    if s == [] {
      assert |t| == |multiset(t)| == 0;
    } else {
      assert s[0] in multiset(t);
      var i :| 0 <= i < |t| && t[i] == s[0];
      MultisetRemoveAt(s, t, i);
      NetIncomePermutation(s[1..], t[..i] + t[i+1..], amountAt, d);
      NetIncomeRemoveAt(t, i, amountAt, d);
    }
  }
}
