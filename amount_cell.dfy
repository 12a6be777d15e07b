/**
 * The text of a budget table amount cell
 * (`swing/MyBudgetTableAmountCellRenderer`): the budgeted amount, the
 * children's total, optionally the actual amounts, indented by the
 * category's depth and wrapped in `<html>`.
 */
module BudgetAmountCell {
  import opened Wrappers
  import opened Entities

  /** The row values the table hands the renderer: the category, its budgeted
      amount, its children's total, its depth, its actual amount and the
      actual amount including subcategories. */
  datatype CellValues = CellValues(
    category: Category, budgetAmount: int, childTotal: int, depth: int,
    actual: int, actualIncludingSubs: int)

  /** One indentation step. */
  const Nbsp: string := "&nbsp&nbsp&nbsp "

  /** `n` indentation steps; none for `n <= 0`. */
  function Indent(n: int): string
    decreases n
  {
    if n <= 0 then "" else Nbsp + Indent(n - 1)
  }

  predicate HasBudgetValue(v: CellValues) {
    v.budgetAmount != 0 || v.childTotal != 0
  }

  predicate HasActualValue(v: CellValues) {
    v.actual != 0 || v.actualIncludingSubs != 0
  }

  function Bracketed(s: string): string {
    " (" + s + ")"
  }

  /** The part before the optional actual amounts.  `currency(x, a, b)` is the
      text `TextFormatter.appendFormattedCurrency` appends for `x` and its two
      flags; `isRed` is `InternalFormatter.isRed`. */
  function MainPart(v: CellValues, show: bool, currency: (int, bool, bool) -> string,
                    isRed: (Category, int) -> bool): string
  {
    if !HasBudgetValue(v) then
      if HasActualValue(v) && !show then
        currency(v.actual, v.actual < 0, isRed(v.category, v.actual))
        + (if v.actualIncludingSubs != v.actual
           then Bracketed(currency(v.actualIncludingSubs, v.actualIncludingSubs < 0,
                                   isRed(v.category, v.actualIncludingSubs)))
           else "")
      else "---"
    else
      currency(v.budgetAmount, isRed(v.category, v.budgetAmount), false)
      + (if v.childTotal != v.budgetAmount && v.childTotal != 0
         then Bracketed(currency(v.childTotal, isRed(v.category, v.childTotal), false))
         else "")
  }

  /** The actual amounts shown after a budget under show-current-budget. */
  function ActualPart(v: CellValues, currency: (int, bool, bool) -> string): string {
    " / "
    + (if v.actual != 0 then currency(v.actual, v.actual < 0, v.actual < 0) else "---")
    + (if v.actualIncludingSubs != v.actual
       then Bracketed(currency(v.actualIncludingSubs, v.actualIncludingSubs < 0, v.actualIncludingSubs < 0))
       else "")
  }

  function Body(v: CellValues, show: bool, currency: (int, bool, bool) -> string,
                isRed: (Category, int) -> bool): string
  {
    MainPart(v, show, currency, isRed)
    + (if show && HasBudgetValue(v) then ActualPart(v, currency) else "")
  }

  /** The cell text. */
  function CellText(v: CellValues, show: bool, currency: (int, bool, bool) -> string,
                    isRed: (Category, int) -> bool): string
  {
    "<html>" + Indent(v.depth) + Body(v, show, currency, isRed) + "</html>"
  }

  /** Each indentation step is sixteen characters. */
  lemma {:induction false} IndentLength(n: int)
    ensures |Indent(n)| == if n <= 0 then 0 else 16 * n
    decreases n
  {
    if n > 0 {
      IndentLength(n - 1);
    }
  }

  /** The depth only moves the body: two cells that differ only in depth
      have the same body and their texts differ only in the indentation. */
  lemma DepthOnlyIndents(v: CellValues, d: int, show: bool, currency: (int, bool, bool) -> string,
                         isRed: (Category, int) -> bool)
    ensures Body(v.(depth := d), show, currency, isRed) == Body(v, show, currency, isRed)
    ensures CellText(v.(depth := d), show, currency, isRed)
      == "<html>" + Indent(d) + Body(v, show, currency, isRed) + "</html>"
  {
  }

  /** "---" stands for an empty cell: no budget, and either no actual amount or
      the show-current-budget preference on. */
  lemma EmptyCellShowsDashes(v: CellValues, show: bool, currency: (int, bool, bool) -> string,
                             isRed: (Category, int) -> bool)
    requires !HasBudgetValue(v) && (!HasActualValue(v) || show)
    ensures Body(v, show, currency, isRed) == "---"
  {
  }

  /** Without a budget and with the preference off, an actual amount is shown
      on its own, with the subtotal in brackets only when it differs. */
  lemma ActualOnlyCell(v: CellValues, currency: (int, bool, bool) -> string,
                       isRed: (Category, int) -> bool)
    requires !HasBudgetValue(v) && HasActualValue(v)
    ensures v.actualIncludingSubs == v.actual ==>
      Body(v, false, currency, isRed) == currency(v.actual, v.actual < 0, isRed(v.category, v.actual))
    ensures v.actualIncludingSubs != v.actual ==>
      Body(v, false, currency, isRed) == currency(v.actual, v.actual < 0, isRed(v.category, v.actual))
        + " (" + currency(v.actualIncludingSubs, v.actualIncludingSubs < 0,
                          isRed(v.category, v.actualIncludingSubs)) + ")"
  {
  }

  /** A budget row's body: the budget amount, the differing non-zero child
      total in brackets, then the actuals when the preference is on. */
  lemma BudgetBody(v: CellValues, show: bool, currency: (int, bool, bool) -> string,
                   isRed: (Category, int) -> bool)
    requires HasBudgetValue(v)
    ensures MainPart(v, show, currency, isRed)
         == currency(v.budgetAmount, isRed(v.category, v.budgetAmount), false)
          + (if v.childTotal != v.budgetAmount && v.childTotal != 0
             then Bracketed(currency(v.childTotal, isRed(v.category, v.childTotal), false))
             else "")
    ensures !show ==> Body(v, show, currency, isRed) == MainPart(v, show, currency, isRed)
    ensures show ==> Body(v, show, currency, isRed) == MainPart(v, show, currency, isRed) + ActualPart(v, currency)
  {
    if !show {
      assert MainPart(v, show, currency, isRed) + "" == MainPart(v, show, currency, isRed);
    }
  }

  /** A budget row's body is the budget amount followed by the rest. */
  lemma BudgetBodySplit(v: CellValues, show: bool, currency: (int, bool, bool) -> string,
                        isRed: (Category, int) -> bool)
    requires HasBudgetValue(v)
    ensures Body(v, show, currency, isRed)
         == currency(v.budgetAmount, isRed(v.category, v.budgetAmount), false)
          + ((if v.childTotal != v.budgetAmount && v.childTotal != 0
              then Bracketed(currency(v.childTotal, isRed(v.category, v.childTotal), false))
              else "")
             + (if show then ActualPart(v, currency) else ""))
  {
    BudgetBody(v, show, currency, isRed);
    var amount := currency(v.budgetAmount, isRed(v.category, v.budgetAmount), false);
    var child := if v.childTotal != v.budgetAmount && v.childTotal != 0
      then Bracketed(currency(v.childTotal, isRed(v.category, v.childTotal), false))
      else "";
    if show {
      Associative(amount, child, ActualPart(v, currency));
    } else {
      assert child + "" == child;
    }
  }

  lemma PrefixOfAppend(a: string, b: string)
    ensures |a| <= |a + b| && (a + b)[..|a|] == a
  {
  }

  /** With a budget, the body opens with the budgeted amount, whatever the
      preference. */
  lemma BudgetCellOpensWithBudget(v: CellValues, show: bool, currency: (int, bool, bool) -> string,
                                  isRed: (Category, int) -> bool)
    requires HasBudgetValue(v)
    ensures var amount := currency(v.budgetAmount, isRed(v.category, v.budgetAmount), false);
      |amount| <= |Body(v, show, currency, isRed)|
      && Body(v, show, currency, isRed)[..|amount|] == amount
  {
    var amount := currency(v.budgetAmount, isRed(v.category, v.budgetAmount), false);
    var child := if v.childTotal != v.budgetAmount && v.childTotal != 0
      then Bracketed(currency(v.childTotal, isRed(v.category, v.childTotal), false))
      else "";
    BudgetBodySplit(v, show, currency, isRed);
    PrefixOfAppend(amount, child + (if show then ActualPart(v, currency) else ""));
  }

  /** With a budget and the preference off, the children's total follows the
      budget in brackets exactly when it is non-zero and differs from the
      budget; otherwise the budget stands alone. */
  lemma BudgetCellBracketsChildTotal(v: CellValues, currency: (int, bool, bool) -> string,
                                     isRed: (Category, int) -> bool)
    requires HasBudgetValue(v)
    ensures v.childTotal == 0 || v.childTotal == v.budgetAmount ==>
      Body(v, false, currency, isRed) == currency(v.budgetAmount, isRed(v.category, v.budgetAmount), false)
    ensures v.childTotal != 0 && v.childTotal != v.budgetAmount ==>
      Body(v, false, currency, isRed) == currency(v.budgetAmount, isRed(v.category, v.budgetAmount), false)
        + Bracketed(currency(v.childTotal, isRed(v.category, v.childTotal), false))
  {
    BudgetBody(v, false, currency, isRed);
    var amount := currency(v.budgetAmount, isRed(v.category, v.budgetAmount), false);
    if v.childTotal == 0 || v.childTotal == v.budgetAmount {
      assert amount + "" == amount;
    }
  }

  /** With a budget, turning the preference on appends the actual amounts
      and changes nothing before them; with it off the actual amounts do not
      matter at all. */
  lemma PreferenceAppendsActuals(v: CellValues, w: CellValues, currency: (int, bool, bool) -> string,
                                 isRed: (Category, int) -> bool)
    requires HasBudgetValue(v)
    requires w == v.(actual := w.actual, actualIncludingSubs := w.actualIncludingSubs)
    ensures Body(v, true, currency, isRed) == Body(v, false, currency, isRed) + ActualPart(v, currency)
    ensures CellText(w, false, currency, isRed) == CellText(v, false, currency, isRed)
  {
    BudgetBody(v, true, currency, isRed);
    BudgetBody(v, false, currency, isRed);
    BudgetBody(w, false, currency, isRed);
  }

  /** The cell text is the indented body wrapped in `<html>` tags. */
  lemma CellTextWrapsBody(v: CellValues, show: bool, currency: (int, bool, bool) -> string,
                          isRed: (Category, int) -> bool)
    ensures CellText(v, show, currency, isRed)
         == "<html>" + (Indent(v.depth) + Body(v, show, currency, isRed)) + "</html>"
  {
    Associative("<html>", Indent(v.depth), Body(v, show, currency, isRed));
  }

  lemma Associative(a: string, b: string, c: string)
    ensures a + b + c == a + (b + c)
  {
  }

  /** The renderer; `text` is the label text it sets.  `currency` and `isRed`
      stand for the formatter calls. */
  class AmountCellRenderer {
    var sb: string
    var text: string
    const currency: (int, bool, bool) -> string
    const isRed: (Category, int) -> bool

    constructor (currency: (int, bool, bool) -> string, isRed: (Category, int) -> bool)
      ensures this.currency == currency && this.isRed == isRed
      ensures sb == "" && text == ""
    {
      this.currency := currency;
      this.isRed := isRed;
      sb, text := "", "";
    }

    /** Appends the budget or actual amount, or "---". */
    method AppendMainPart(v: CellValues, show: bool)
      modifies this`sb
      ensures sb == old(sb) + MainPart(v, show, currency, isRed)
    {
      var hasBudgetValue := v.budgetAmount != 0 || v.childTotal != 0;
      var hasActualValue := v.actual != 0 || v.actualIncludingSubs != 0;
      if !hasBudgetValue {
        if hasActualValue && !show {
          sb := sb + currency(v.actual, v.actual < 0, isRed(v.category, v.actual));
          if v.actualIncludingSubs != v.actual {
            AppendBracketed(currency(v.actualIncludingSubs, v.actualIncludingSubs < 0,
                                     isRed(v.category, v.actualIncludingSubs)));
          }
        } else {
          sb := sb + "---";
        }
      } else {
        sb := sb + currency(v.budgetAmount, isRed(v.category, v.budgetAmount), false);
        if v.childTotal != v.budgetAmount && v.childTotal != 0 {
          AppendBracketed(currency(v.childTotal, isRed(v.category, v.childTotal), false));
        }
      }
    }

    /** Appends `" / "` and the actual amounts. */
    method AppendActualPart(v: CellValues)
      modifies this`sb
      ensures sb == old(sb) + ActualPart(v, currency)
    {
      ghost var start := sb;
      ghost var actual := if v.actual != 0 then currency(v.actual, v.actual < 0, v.actual < 0) else "---";
      ghost var subtotal := if v.actualIncludingSubs != v.actual
        then Bracketed(currency(v.actualIncludingSubs, v.actualIncludingSubs < 0, v.actualIncludingSubs < 0))
        else "";
      sb := sb + " / ";
      if v.actual != 0 {
        sb := sb + currency(v.actual, v.actual < 0, v.actual < 0);
      } else {
        sb := sb + "---";
      }
      assert sb == start + " / " + actual;
      if v.actualIncludingSubs != v.actual {
        AppendBracketed(currency(v.actualIncludingSubs, v.actualIncludingSubs < 0, v.actualIncludingSubs < 0));
      } else {
        assert sb == start + " / " + actual + subtotal;
      }
      Associative(start, " / " + actual, subtotal);
      Associative(start, " / ", actual);
    }

    method AppendBracketed(amount: string)
      modifies this`sb
      ensures sb == old(sb) + Bracketed(amount)
    {
      sb := sb + " (";
      sb := sb + amount;
      sb := sb + ")";
    }

    /** Puts `depth` indentation steps in front, one at a time. */
    method InsertIndent(depth: int)
      modifies this`sb
      ensures sb == Indent(depth) + old(sb)
    {
      var i := 0;
      while i < depth
        invariant i == 0 || 0 < i <= depth
        invariant sb == Indent(i) + old(sb)
      {
        sb := Nbsp + sb;
        i := i + 1;
      }
    }

    /** Appends the body: the main part, then the actual amounts when the
        preference is on and the row has a budget. */
    method AppendBody(v: CellValues, show: bool)
      modifies this`sb
      ensures sb == old(sb) + Body(v, show, currency, isRed)
    {
      AppendMainPart(v, show);
      if show && (v.budgetAmount != 0 || v.childTotal != 0) {
        AppendActualPart(v);
      }
    }

    /** The text-building part of `getTableCellRendererComponent` for a value
        array (`Some`) under the show-current-budget preference `show`;
        anything else leaves the text alone. */
    method Render(value: Option<CellValues>, show: bool)
      modifies this`sb, this`text
      ensures value.None? ==> sb == old(sb) && text == old(text)
      ensures value.Some? ==> text == CellText(value.value, show, currency, isRed) && sb == text
    {
      if value.None? {
        return;
      }
      var v := value.value;
      sb := "";
      AppendBody(v, show);
      assert sb == Body(v, show, currency, isRed) by {
        assert "" + Body(v, show, currency, isRed) == Body(v, show, currency, isRed);
      }
      InsertIndent(v.depth);
      sb := "<html>" + sb;
      sb := sb + "</html>";
      CellTextWrapsBody(v, show, currency, isRed);
      text := sb;
    }
  }
}
