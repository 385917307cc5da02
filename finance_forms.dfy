/**
 * The expense and earning forms. Each form's Save button is enabled only
 * when its two required text fields are filled in; the notes are optional.
 */
module FinanceForms {

  datatype ExpenseForm = ExpenseForm(amount: string, category: string, notes: string)

  datatype EarningForm = EarningForm(amount: string, source: string, notes: string)

  /** The expense form's Save button is disabled while the amount or the category is empty. */
  predicate ExpenseSaveDisabled(form: ExpenseForm)
  {
    form.amount == "" || form.category == ""
  }

  /** The earning form's Save button is disabled while the amount or the source is empty. */
  predicate EarningSaveDisabled(form: EarningForm)
  {
    form.amount == "" || form.source == ""
  }

  /** Saving an expense needs both required fields and nothing of the notes. */
  lemma ExpenseSaveRule(form: ExpenseForm, notes: string)
    ensures !ExpenseSaveDisabled(form) <==> |form.amount| > 0 && |form.category| > 0
    ensures ExpenseSaveDisabled(form.(notes := notes)) == ExpenseSaveDisabled(form)
  {
  }

  /** Saving an earning needs both required fields and nothing of the notes. */
  lemma EarningSaveRule(form: EarningForm, notes: string)
    ensures !EarningSaveDisabled(form) <==> |form.amount| > 0 && |form.source| > 0
    ensures EarningSaveDisabled(form.(notes := notes)) == EarningSaveDisabled(form)
  {
  }

  /** The two forms follow the same rule: an earning form behaves as an expense form whose category is the source. */
  lemma SameRule(form: EarningForm)
    ensures EarningSaveDisabled(form) == ExpenseSaveDisabled(ExpenseForm(form.amount, form.source, form.notes))
  {
  }
}
