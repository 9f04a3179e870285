/** The budget progress list: one row per comparison, with a progress bar
    capped at 100, a colour and exactly one message chosen by the same
    thresholds as the budgets page's status line. */
module BudgetProgressList {
  import opened Types
  import opened Spending
  import BudgetsPage

  /** `Math.min(percentage, 100)`. */
  function ProgressValue(p: int): (v: int)
    ensures v <= 100 && v <= p
    ensures v == p || v == 100
  {
    if p < 100 then p else 100
  }

  /** The text colour of a row's percentage. */
  datatype Tone = Destructive | Amber | Primary

  function ToneOf(p: int): Tone {
    if p > 100 then Destructive else if p > 80 then Amber else Primary
  }

  /** The three messages a row can show. */
  datatype Message = Exceeded(over: int) | Used(percent: int) | OnTrack

  /** Each message has its own condition; the row shows every one whose
      condition holds. */
  function Messages(item: BudgetComparison): seq<Message> {
    var p := item.percentage;
    (if p > 100 then [Exceeded(item.spent - item.budgeted)] else [])
    + (if p > 80 && p <= 100 then [Used(p)] else [])
    + (if p <= 80 then [OnTrack] else [])
  }

  /** The three conditions never overlap and always cover: a row shows
      exactly one message, the one the budgets page's status names, and its
      colour follows the same thresholds. */
  lemma MessagesSpec(item: BudgetComparison)
    ensures |Messages(item)| == 1
    ensures Messages(item)[0].Exceeded? <==> BudgetsPage.StatusOf(item.percentage) == BudgetsPage.OverBudget
    ensures Messages(item)[0].Used? <==> BudgetsPage.StatusOf(item.percentage) == BudgetsPage.ApproachingLimit
    ensures Messages(item)[0].OnTrack? <==> BudgetsPage.StatusOf(item.percentage) == BudgetsPage.WithinBudget
    ensures Messages(item)[0].Exceeded? ==> Messages(item)[0].over == item.spent - item.budgeted
    ensures Messages(item)[0].Used? ==> Messages(item)[0].percent == item.percentage
    ensures ToneOf(item.percentage) == Destructive <==> Messages(item)[0].Exceeded?
    ensures ToneOf(item.percentage) == Amber <==> Messages(item)[0].Used?
    ensures ToneOf(item.percentage) == Primary <==> Messages(item)[0].OnTrack?
  {
  }

  /** For a comparison whose percentage was computed from its own spent and
      budgeted, an exceeded message always reports a positive overspend. */
  lemma ExceededIsPositive(item: BudgetComparison)
    requires item.percentage == Percent(item.spent, item.budgeted)
    requires item.percentage > 100
    ensures item.budgeted > 0
    ensures Messages(item)[0] == Exceeded(item.spent - item.budgeted)
    ensures item.spent - item.budgeted > 0
  {
    var b, p, spent := item.budgeted, item.percentage, item.spent;
    assert b > 0;
    MulAtLeast(2 * b, p, 101);
    assert 200 * spent >= 2 * b * p - b;
  }

  lemma MulAtLeast(x: int, p: int, q: int)
    requires x >= 0 && p >= q
    ensures x * p >= x * q
  {
    assert x * p - x * q == x * (p - q);
  }

  /** One rendered row. */
  datatype Row = Row(category: Category, spent: int, budgeted: int, progress: int,
                     percentage: int, tone: Tone, messages: seq<Message>)

  function RowOf(item: BudgetComparison): Row {
    Row(item.category, item.spent, item.budgeted, ProgressValue(item.percentage),
        item.percentage, ToneOf(item.percentage), Messages(item))
  }

  /** The card: a placeholder when there is nothing to show, else the rows. */
  datatype View = Placeholder | Rows(rows: seq<Row>)

  function Render(data: seq<BudgetComparison>): (v: View)
    ensures v.Placeholder? <==> data == []
    ensures v.Rows? ==> |v.rows| == |data|
    ensures v.Rows? ==> forall i :: 0 <= i < |data| ==>
      v.rows[i].category == data[i].category && v.rows[i].progress <= 100
      && |v.rows[i].messages| == 1
  {
    if data == [] then Placeholder
    else
      var rows := seq(|data|, i requires 0 <= i < |data| => RowOf(data[i]));
      assert forall i :: 0 <= i < |data| ==> |rows[i].messages| == 1 by {
        forall i | 0 <= i < |data| ensures |rows[i].messages| == 1 {
          MessagesSpec(data[i]);
        }
      }
      Rows(rows)
  }
}
