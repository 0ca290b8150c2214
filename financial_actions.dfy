/** lib/actions/financial.ts: the financial_transactions table. */
module FinancialActions {
  import opened Wrappers
  import opened Ordering
  import opened Store
  import opened Actions

  /** The submitted transaction form; `amount` is what `parseFloat` returns (`None` is NaN). */
  datatype FinancialForm = FinancialForm(
    kind: string,
    category: string,
    amount: Option<real>,
    description: string,
    transactionDate: string)

  /** The columns an insert or update writes (user_id aside); `kind` is the `type` column.
      The amount is sent as parsed, NaN included. */
  datatype FinancialFields = FinancialFields(
    kind: string,
    category: string,
    amount: Option<real>,
    description: string,
    transactionDate: string)

  /** The payload both createFinancialTransaction and updateFinancialTransaction send:
      every field passes through, and an unparsable amount is not replaced. */
  function FinancialPayload(f: FinancialForm): (p: FinancialFields)
    ensures p.kind == f.kind && p.category == f.category && p.description == f.description
    ensures p.transactionDate == f.transactionDate
    ensures p.amount == f.amount
  {
    FinancialFields(f.kind, f.category, f.amount, f.description, f.transactionDate)
  }

  const Resource: ServerActions<FinancialForm, FinancialFields> := ServerActions(
    FinancialPayload,
    Redirect("/login"),
    Some("/dashboard/financial"),
    "Failed to create financial transaction",
    "Failed to update financial transaction",
    "Failed to delete financial transaction",
    "Failed to fetch financial transactions",
    (p: FinancialFields) => p.transactionDate,
    false)

  method CreateFinancialTransaction(table: Table<FinancialFields>, user: Option<User>, form: FinancialForm, ok: bool)
    returns (r: Result<Option<string>>)
    requires table.Valid()
    modifies table
    ensures table.Valid()
    ensures user.None? ==> r == Err(Redirect("/login")) && table.rows == old(table.rows)
    ensures user.Some? && !ok ==> r == Err(Thrown("Failed to create financial transaction")) && table.rows == old(table.rows)
    ensures user.Some? && ok ==> r == Ok(Some("/dashboard/financial"))
                                 && table.rows == Inserted(old(table.rows), old(table.nextId),
                                                           user.value.id, FinancialPayload(form))
  {
    r := Create(Resource, table, user, form, ok);
  }

  method UpdateFinancialTransaction(table: Table<FinancialFields>, id: nat, form: FinancialForm, ok: bool)
    returns (r: Result<Option<string>>)
    requires table.Valid()
    modifies table
    ensures table.Valid()
    ensures r == if ok then Ok(Some("/dashboard/financial")) else Err(Thrown("Failed to update financial transaction"))
    ensures table.rows == if ok then Updated(old(table.rows), id, FinancialPayload(form)) else old(table.rows)
  {
    r := Update(Resource, table, id, form, ok);
  }

  method DeleteFinancialTransaction(table: Table<FinancialFields>, id: nat, ok: bool)
    returns (r: Result<Option<string>>)
    requires table.Valid()
    modifies table
    ensures table.Valid()
    ensures r == if ok then Ok(Some("/dashboard/financial")) else Err(Thrown("Failed to delete financial transaction"))
    ensures table.rows == if ok then Deleted(old(table.rows), id) else old(table.rows)
  {
    r := Delete(Resource, table, id, ok);
  }

  /** The list is every row once, latest transaction date first. */
  method GetFinancialTransactions(table: Table<FinancialFields>, ok: bool)
    returns (r: Result<seq<Row<FinancialFields>>>)
    requires table.Valid()
    ensures r.Ok? <==> ok
    ensures r.Err? ==> r.error == Thrown("Failed to fetch financial transactions")
    ensures r.Ok? ==> multiset(r.value) == multiset(table.rows.Values)
    ensures r.Ok? ==> forall i, j :: 0 <= i < j < |r.value| ==>
                        LexLeq(r.value[j].fields.transactionDate, r.value[i].fields.transactionDate)
  {
    r := List(Resource, table, ok);
  }
}
