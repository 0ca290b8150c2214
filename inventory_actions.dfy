/** lib/actions/inventory.ts: the inventory_items table. */
module InventoryActions {
  import opened Wrappers
  import opened Ordering
  import opened Store
  import opened Actions

  /** The submitted inventory form. Numeric fields hold what `parseInt` /
      `parseFloat` return for the field's text; `None` is NaN. */
  datatype InventoryForm = InventoryForm(
    name: string,
    category: string,
    sku: string,
    currentStock: Option<int>,
    minimumStock: Option<int>,
    maximumStock: Option<int>,
    unitCost: Option<real>,
    location: string)

  /** The columns an insert or update writes (user_id aside). */
  datatype InventoryFields = InventoryFields(
    name: string,
    category: string,
    sku: Option<string>,
    currentStock: int,
    minimumStock: int,
    maximumStock: Option<int>,
    unitCost: Option<real>,
    location: Option<string>)

  /** The payload both createInventoryItem and updateInventoryItem send. */
  function InventoryPayload(f: InventoryForm): (p: InventoryFields)
    ensures p.name == f.name && p.category == f.category
    ensures p.sku.None? <==> f.sku == ""
    ensures p.location.None? <==> f.location == ""
    ensures p.sku.Some? ==> p.sku.value == f.sku
    ensures p.location.Some? ==> p.location.value == f.location
    ensures p.currentStock == 0 <==> f.currentStock == None || f.currentStock == Some(0)
    ensures p.minimumStock == 0 <==> f.minimumStock == None || f.minimumStock == Some(0)
    ensures p.currentStock != 0 ==> f.currentStock == Some(p.currentStock)
    ensures p.minimumStock != 0 ==> f.minimumStock == Some(p.minimumStock)
    ensures p.maximumStock.None? <==> f.maximumStock == None || f.maximumStock == Some(0)
    ensures p.unitCost.None? <==> f.unitCost == None || f.unitCost == Some(0.0)
    ensures p.maximumStock.Some? ==> p.maximumStock == f.maximumStock
    ensures p.unitCost.Some? ==> p.unitCost == f.unitCost
  {
    InventoryFields(
      f.name,
      f.category,
      OrNull(f.sku),
      IntOrZero(f.currentStock),
      IntOrZero(f.minimumStock),
      IntOrNull(f.maximumStock),
      RealOrNull(f.unitCost),
      OrNull(f.location))
  }

  /** A payload as the actions build it: no empty text and no zero in a nullable column. */
  predicate Normalised(p: InventoryFields) {
    p.sku != Some("") && p.location != Some("")
    && p.maximumStock != Some(0) && p.unitCost != Some(0.0)
  }

  lemma PayloadNormalised(f: InventoryForm)
    ensures Normalised(InventoryPayload(f))
  {
  }

  /** An entered 0 for the maximum stock or the unit cost is stored as null, each field on its own. */
  lemma EnteredZeroStoredAsNull(f: InventoryForm)
    ensures f.maximumStock == Some(0) ==> InventoryPayload(f).maximumStock == None
    ensures f.unitCost == Some(0.0) ==> InventoryPayload(f).unitCost == None
  {
  }

  /** What a stored row becomes once its nullable columns go through `|| null`:
      empty text and zero numbers turn into null, everything else is kept. */
  function Normalise(p: InventoryFields): (r: InventoryFields)
    ensures Normalised(r)
    ensures Normalised(p) ==> r == p
    ensures r.name == p.name && r.category == p.category
    ensures r.currentStock == p.currentStock && r.minimumStock == p.minimumStock
  {
    p.(sku := if p.sku == Some("") then None else p.sku,
       maximumStock := if p.maximumStock == Some(0) then None else p.maximumStock,
       unitCost := if p.unitCost == Some(0.0) then None else p.unitCost,
       location := if p.location == Some("") then None else p.location)
  }

  const Resource: ServerActions<InventoryForm, InventoryFields> := ServerActions(
    InventoryPayload,
    Redirect("/login"),
    Some("/dashboard/inventory"),
    "Failed to create inventory item",
    "Failed to update inventory item",
    "Failed to delete inventory item",
    "Failed to fetch inventory items",
    (p: InventoryFields) => p.name,
    true)

  method CreateInventoryItem(table: Table<InventoryFields>, user: Option<User>, form: InventoryForm, ok: bool)
    returns (r: Result<Option<string>>)
    requires table.Valid()
    modifies table
    ensures table.Valid()
    ensures user.None? ==> r == Err(Redirect("/login")) && table.rows == old(table.rows)
    ensures user.Some? && !ok ==> r == Err(Thrown("Failed to create inventory item")) && table.rows == old(table.rows)
    ensures user.Some? && ok ==> r == Ok(Some("/dashboard/inventory"))
                                 && table.rows == Inserted(old(table.rows), old(table.nextId),
                                                           user.value.id, InventoryPayload(form))
  {
    r := Create(Resource, table, user, form, ok);
  }

  method UpdateInventoryItem(table: Table<InventoryFields>, id: nat, form: InventoryForm, ok: bool)
    returns (r: Result<Option<string>>)
    requires table.Valid()
    modifies table
    ensures table.Valid()
    ensures r == if ok then Ok(Some("/dashboard/inventory")) else Err(Thrown("Failed to update inventory item"))
    ensures table.rows == if ok then Updated(old(table.rows), id, InventoryPayload(form)) else old(table.rows)
  {
    r := Update(Resource, table, id, form, ok);
  }

  method DeleteInventoryItem(table: Table<InventoryFields>, id: nat, ok: bool)
    returns (r: Result<Option<string>>)
    requires table.Valid()
    modifies table
    ensures table.Valid()
    ensures r == if ok then Ok(Some("/dashboard/inventory")) else Err(Thrown("Failed to delete inventory item"))
    ensures table.rows == if ok then Deleted(old(table.rows), id) else old(table.rows)
  {
    r := Delete(Resource, table, id, ok);
  }

  /** The list is every row once, ordered by name ascending. */
  method GetInventoryItems(table: Table<InventoryFields>, ok: bool) returns (r: Result<seq<Row<InventoryFields>>>)
    requires table.Valid()
    ensures r.Ok? <==> ok
    ensures r.Err? ==> r.error == Thrown("Failed to fetch inventory items")
    ensures r.Ok? ==> multiset(r.value) == multiset(table.rows.Values)
    ensures r.Ok? ==> forall i, j :: 0 <= i < j < |r.value| ==> LexLeq(r.value[i].fields.name, r.value[j].fields.name)
  {
    r := List(Resource, table, ok);
  }
}
