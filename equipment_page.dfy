/** pages/Equipment.tsx: the status badge, the form's initial values, and the
    page itself as an instance of the resource page. */
module EquipmentPage {
  import opened Wrappers
  import opened Ui
  import opened Store
  import opened ResourcePage
  import opened EquipmentActions

  /** getStatusColor: each known status has its own variant; any other text is secondary. */
  function GetStatusColor(status: string): (v: Variant)
    ensures v == Default <==> status == "operational"
    ensures v == Destructive <==> status == "down"
    ensures v == Outline <==> status == "retired"
    ensures v == Secondary <==> status != "operational" && status != "down" && status != "retired"
  {
    match status
    case "operational" => Default
    case "maintenance" => Secondary
    case "down" => Destructive
    case "retired" => Outline
    case _ => Secondary
  }

  /** "maintenance" and an unknown status are shown alike. */
  lemma MaintenanceLooksUnknown(status: string)
    requires status != "operational" && status != "maintenance" && status != "down" && status != "retired"
    ensures GetStatusColor(status) == GetStatusColor("maintenance")
  {
  }

  /** The values the form's inputs start with. The status select defaults to
      "operational" for new equipment, and also for a row with an empty status. */
  function EquipmentFormFor(editing: Option<EquipmentFields>): (f: EquipmentForm)
    ensures editing.None? ==> f.status == "operational"
    ensures editing.Some? && editing.value.status != "" ==> f.status == editing.value.status
  {
    match editing
    case None => EquipmentForm("", "", "", "", "operational", "", "")
    case Some(p) =>
      EquipmentForm(
        p.name,
        p.kind,
        p.model.GetOr(""),
        p.serialNumber.GetOr(""),
        if p.status == "" then "operational" else p.status,
        p.location.GetOr(""),
        p.purchaseDate.GetOr(""))
  }

  /** Saving the edit form unchanged writes back the row it was filled from, with
      empty text in its nullable columns turned into null and an empty status
      turned into "operational". */
  lemma EditUnchangedStoresNormalised(p: EquipmentFields)
    ensures EquipmentPayload(EquipmentFormFor(Some(p)))
            == Normalise(p).(status := if p.status == "" then "operational" else p.status)
  {
  }

  /** So a row as the actions store it, with a status set, comes back unchanged. */
  lemma EditUnchangedRoundTrip(p: EquipmentFields)
    requires Normalised(p) && p.status != ""
    ensures EquipmentPayload(EquipmentFormFor(Some(p))) == p
  {
    EditUnchangedStoresNormalised(p);
  }

  /** An unchanged new-equipment form is saved as operational with every optional column null. */
  lemma NewEquipmentDefaults()
    ensures EquipmentPayload(EquipmentFormFor(None))
            == EquipmentFields("", "", None, None, "operational", None, None)
  {
  }

  const EquipmentMessages := Messages(
    "Failed to load equipment",
    "Equipment created successfully",
    "Equipment updated successfully",
    "Failed to save equipment",
    "Equipment deleted successfully",
    "Failed to delete equipment")

  /** The component's first render and its mount effect, which loads the list. */
  method MountEquipmentPage(table: Table<EquipmentFields>, loadOk: bool)
    returns (page: Page<EquipmentForm, EquipmentFields>)
    requires table.Valid()
    ensures fresh(page) && page.Valid()
    ensures page.table == table && page.actions == Resource && page.messages == EquipmentMessages
    ensures !page.showForm && page.editing == None && page.calls == [ListCall]
    ensures loadOk ==> page.ShowsTable() && page.toasts == []
    ensures !loadOk ==> page.items == [] && page.toasts == [ErrorToast("Failed to load equipment")]
  {
    page := new Page(Resource, EquipmentMessages, table);
    page.LoadItems(loadOk);
  }
}
