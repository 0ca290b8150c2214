/** lib/actions/equipment.ts: the equipment table. */
module EquipmentActions {
  import opened Wrappers
  import opened Ordering
  import opened Store
  import opened Actions

  /** The submitted equipment form: every field is text. */
  datatype EquipmentForm = EquipmentForm(
    name: string,
    kind: string,
    model: string,
    serialNumber: string,
    status: string,
    location: string,
    purchaseDate: string)

  /** The columns an insert or update writes (user_id aside); `kind` is the `type` column. */
  datatype EquipmentFields = EquipmentFields(
    name: string,
    kind: string,
    model: Option<string>,
    serialNumber: Option<string>,
    status: string,
    location: Option<string>,
    purchaseDate: Option<string>)

  /** The payload both createEquipment and updateEquipment send. */
  function EquipmentPayload(f: EquipmentForm): (p: EquipmentFields)
    ensures p.name == f.name && p.kind == f.kind && p.status == f.status
    ensures p.model.None? <==> f.model == ""
    ensures p.serialNumber.None? <==> f.serialNumber == ""
    ensures p.location.None? <==> f.location == ""
    ensures p.purchaseDate.None? <==> f.purchaseDate == ""
    ensures p.model.Some? ==> p.model.value == f.model
    ensures p.serialNumber.Some? ==> p.serialNumber.value == f.serialNumber
    ensures p.location.Some? ==> p.location.value == f.location
    ensures p.purchaseDate.Some? ==> p.purchaseDate.value == f.purchaseDate
  {
    EquipmentFields(
      f.name,
      f.kind,
      OrNull(f.model),
      OrNull(f.serialNumber),
      f.status,
      OrNull(f.location),
      OrNull(f.purchaseDate))
  }

  /** A payload as the actions build it: no nullable column holds empty text. */
  predicate Normalised(p: EquipmentFields) {
    p.model != Some("") && p.serialNumber != Some("") && p.location != Some("") && p.purchaseDate != Some("")
  }

  /** What a stored row becomes once its nullable columns go through `|| null`. */
  function Normalise(p: EquipmentFields): (r: EquipmentFields)
    ensures Normalised(r)
    ensures Normalised(p) ==> r == p
    ensures r.name == p.name && r.kind == p.kind && r.status == p.status
  {
    p.(model := if p.model == Some("") then None else p.model,
       serialNumber := if p.serialNumber == Some("") then None else p.serialNumber,
       location := if p.location == Some("") then None else p.location,
       purchaseDate := if p.purchaseDate == Some("") then None else p.purchaseDate)
  }

  lemma PayloadNormalised(f: EquipmentForm)
    ensures Normalised(EquipmentPayload(f))
  {
  }

  const Resource: ServerActions<EquipmentForm, EquipmentFields> := ServerActions(
    EquipmentPayload,
    Redirect("/login"),
    Some("/dashboard/equipment"),
    "Failed to create equipment",
    "Failed to update equipment",
    "Failed to delete equipment",
    "Failed to fetch equipment",
    (p: EquipmentFields) => p.name,
    true)

  method CreateEquipment(table: Table<EquipmentFields>, user: Option<User>, form: EquipmentForm, ok: bool)
    returns (r: Result<Option<string>>)
    requires table.Valid()
    modifies table
    ensures table.Valid()
    ensures user.None? ==> r == Err(Redirect("/login")) && table.rows == old(table.rows)
    ensures user.Some? && !ok ==> r == Err(Thrown("Failed to create equipment")) && table.rows == old(table.rows)
    ensures user.Some? && ok ==> r == Ok(Some("/dashboard/equipment"))
                                 && table.rows == Inserted(old(table.rows), old(table.nextId),
                                                           user.value.id, EquipmentPayload(form))
  {
    r := Create(Resource, table, user, form, ok);
  }

  method UpdateEquipment(table: Table<EquipmentFields>, id: nat, form: EquipmentForm, ok: bool)
    returns (r: Result<Option<string>>)
    requires table.Valid()
    modifies table
    ensures table.Valid()
    ensures r == if ok then Ok(Some("/dashboard/equipment")) else Err(Thrown("Failed to update equipment"))
    ensures table.rows == if ok then Updated(old(table.rows), id, EquipmentPayload(form)) else old(table.rows)
  {
    r := Update(Resource, table, id, form, ok);
  }

  method DeleteEquipment(table: Table<EquipmentFields>, id: nat, ok: bool)
    returns (r: Result<Option<string>>)
    requires table.Valid()
    modifies table
    ensures table.Valid()
    ensures r == if ok then Ok(Some("/dashboard/equipment")) else Err(Thrown("Failed to delete equipment"))
    ensures table.rows == if ok then Deleted(old(table.rows), id) else old(table.rows)
  {
    r := Delete(Resource, table, id, ok);
  }

  /** The list is every row once, ordered by name ascending. */
  method GetEquipment(table: Table<EquipmentFields>, ok: bool) returns (r: Result<seq<Row<EquipmentFields>>>)
    requires table.Valid()
    ensures r.Ok? <==> ok
    ensures r.Err? ==> r.error == Thrown("Failed to fetch equipment")
    ensures r.Ok? ==> multiset(r.value) == multiset(table.rows.Values)
    ensures r.Ok? ==> forall i, j :: 0 <= i < j < |r.value| ==> LexLeq(r.value[i].fields.name, r.value[j].fields.name)
  {
    r := List(Resource, table, ok);
  }
}
