/** lib/actions/production.ts: the production_records table. Unlike the other
    actions files it throws instead of redirecting and revalidates nothing. */
module ProductionActions {
  import opened Wrappers
  import opened Ordering
  import opened Store
  import opened Actions

  /** The submitted production form; `quantity` is what `parseFloat` returns (`None` is NaN). */
  datatype ProductionForm = ProductionForm(
    date: string,
    shift: string,
    materialType: string,
    quantity: Option<real>,
    quality: string,
    location: string,
    notes: string)

  /** The columns an insert or update writes (user_id aside); `materialType` is `material_type`. */
  datatype ProductionFields = ProductionFields(
    date: string,
    shift: string,
    materialType: string,
    quantity: Option<real>,
    quality: string,
    location: string,
    notes: Option<string>)

  /** The payload both createProductionRecord and updateProductionRecord send. */
  function ProductionPayload(f: ProductionForm): (p: ProductionFields)
    ensures p.date == f.date && p.shift == f.shift && p.quality == f.quality && p.location == f.location
    ensures p.materialType == f.materialType && p.quantity == f.quantity
    ensures p.notes.None? <==> f.notes == ""
    ensures p.notes.Some? ==> p.notes.value == f.notes
  {
    ProductionFields(f.date, f.shift, f.materialType, f.quantity, f.quality, f.location, OrNull(f.notes))
  }

  const Resource: ServerActions<ProductionForm, ProductionFields> := ServerActions(
    ProductionPayload,
    Thrown("Not authenticated"),
    None,
    "Failed to create production record",
    "Failed to update production record",
    "Failed to delete production record",
    "Failed to fetch production records",
    (p: ProductionFields) => p.date,
    false)

  method CreateProductionRecord(table: Table<ProductionFields>, user: Option<User>, form: ProductionForm, ok: bool)
    returns (r: Result<Option<string>>)
    requires table.Valid()
    modifies table
    ensures table.Valid()
    ensures user.None? ==> r == Err(Thrown("Not authenticated")) && table.rows == old(table.rows)
    ensures user.Some? && !ok ==> r == Err(Thrown("Failed to create production record")) && table.rows == old(table.rows)
    ensures user.Some? && ok ==> r == Ok(None)
                                 && table.rows == Inserted(old(table.rows), old(table.nextId),
                                                           user.value.id, ProductionPayload(form))
  {
    r := Create(Resource, table, user, form, ok);
  }

  method UpdateProductionRecord(table: Table<ProductionFields>, id: nat, form: ProductionForm, ok: bool)
    returns (r: Result<Option<string>>)
    requires table.Valid()
    modifies table
    ensures table.Valid()
    ensures r == if ok then Ok(None) else Err(Thrown("Failed to update production record"))
    ensures table.rows == if ok then Updated(old(table.rows), id, ProductionPayload(form)) else old(table.rows)
  {
    r := Update(Resource, table, id, form, ok);
  }

  method DeleteProductionRecord(table: Table<ProductionFields>, id: nat, ok: bool)
    returns (r: Result<Option<string>>)
    requires table.Valid()
    modifies table
    ensures table.Valid()
    ensures r == if ok then Ok(None) else Err(Thrown("Failed to delete production record"))
    ensures table.rows == if ok then Deleted(old(table.rows), id) else old(table.rows)
  {
    r := Delete(Resource, table, id, ok);
  }

  /** The list is every row once, latest date first. */
  method GetProductionRecords(table: Table<ProductionFields>, ok: bool)
    returns (r: Result<seq<Row<ProductionFields>>>)
    requires table.Valid()
    ensures r.Ok? <==> ok
    ensures r.Err? ==> r.error == Thrown("Failed to fetch production records")
    ensures r.Ok? ==> multiset(r.value) == multiset(table.rows.Values)
    ensures r.Ok? ==> forall i, j :: 0 <= i < j < |r.value| ==> LexLeq(r.value[j].fields.date, r.value[i].fields.date)
  {
    r := List(Resource, table, ok);
  }
}
