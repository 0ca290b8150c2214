/** pages/Inventory.tsx: the stock badge, the alert icon, the form's initial
    values, and the page itself as an instance of the resource page. */
module InventoryPage {
  import opened Wrappers
  import opened Ui
  import opened Store
  import opened Actions
  import opened ResourcePage
  import opened InventoryActions

  datatype StockBadge = StockBadge(variant: Variant, text: string)

  /** getStockStatus: out of stock at exactly 0, low at or below the minimum, in stock above it. */
  function GetStockStatus(current: int, minimum: int): (b: StockBadge)
    ensures b.text == "Out of Stock" <==> current == 0
    ensures b.text == "Low Stock" <==> current != 0 && current <= minimum
    ensures b.text == "In Stock" <==> current != 0 && current > minimum
    ensures b.variant == Destructive <==> b.text == "Out of Stock"
    ensures b.variant == Secondary <==> b.text == "Low Stock"
    ensures b.variant == Default <==> b.text == "In Stock"
  {
    if current == 0 then StockBadge(Destructive, "Out of Stock")
    else if current <= minimum then StockBadge(Secondary, "Low Stock")
    else StockBadge(Default, "In Stock")
  }

  /** The three boundaries: 0 is out of stock whatever the minimum, a stock equal
      to a nonzero minimum is low, and one unit above it is in stock. */
  lemma StockBoundaries(minimum: int)
    ensures GetStockStatus(0, minimum).text == "Out of Stock"
    ensures minimum != 0 ==> GetStockStatus(minimum, minimum).text == "Low Stock"
    ensures minimum != -1 ==> GetStockStatus(minimum + 1, minimum).text == "In Stock"
  {
  }

  /** Raising the minimum never clears a "Low Stock" badge, and lowering it never
      clears an "In Stock" one. */
  lemma StockStatusMonotone(current: int, m1: int, m2: int)
    requires m1 <= m2
    ensures GetStockStatus(current, m1).text == "Low Stock" ==> GetStockStatus(current, m2).text == "Low Stock"
    ensures GetStockStatus(current, m2).text == "In Stock" ==> GetStockStatus(current, m1).text == "In Stock"
  {
  }

  /** The alert triangle inside the badge. */
  predicate ShowsAlert(current: int, minimum: int) {
    current <= minimum && current > 0
  }

  /** The triangle is shown exactly on "Low Stock" badges with a positive stock. */
  lemma AlertOnPositiveLowStock(current: int, minimum: int)
    ensures ShowsAlert(current, minimum) <==> GetStockStatus(current, minimum).text == "Low Stock" && current > 0
    ensures ShowsAlert(current, minimum) ==> GetStockStatus(current, minimum).variant == Secondary
  {
  }

  /** A negative stock is "Low Stock" without the triangle: the two tests differ there. */
  lemma NegativeStockLowWithoutAlert()
    ensures GetStockStatus(-3, 0).text == "Low Stock" && !ShowsAlert(-3, 0)
  {
  }

  /** The values the form's inputs start with: blank (stocks 0) for a new item,
      the row's values for an edited one. A prefilled number reads back through
      `parseInt`/`parseFloat` as itself; an empty input reads as NaN. */
  function InventoryFormFor(editing: Option<InventoryFields>): (f: InventoryForm)
    ensures editing.None? ==> f == InventoryForm("", "", "", Some(0), Some(0), None, None, "")
  {
    match editing
    case None => InventoryForm("", "", "", Some(0), Some(0), None, None, "")
    case Some(p) =>
      InventoryForm(
        p.name,
        p.category,
        p.sku.GetOr(""),
        Some(p.currentStock),
        Some(p.minimumStock),
        IntOrNull(p.maximumStock),
        RealOrNull(p.unitCost),
        p.location.GetOr(""))
  }

  /** Saving the edit form unchanged writes back the row it was filled from,
      with empty text and zero numbers in its nullable columns turned into null. */
  lemma EditUnchangedStoresNormalised(p: InventoryFields)
    ensures InventoryPayload(InventoryFormFor(Some(p))) == Normalise(p)
  {
  }

  /** So a row as the actions store it comes back unchanged. */
  lemma EditUnchangedRoundTrip(p: InventoryFields)
    requires Normalised(p)
    ensures InventoryPayload(InventoryFormFor(Some(p))) == p
  {
    EditUnchangedStoresNormalised(p);
  }

  /** Saving an unchanged new-item form stores zero stocks and nulls. */
  lemma NewItemDefaults()
    ensures InventoryPayload(InventoryFormFor(None))
            == InventoryFields("", "", None, 0, 0, None, None, None)
  {
  }

  const InventoryMessages := Messages(
    "Failed to load inventory items",
    "Inventory item created successfully",
    "Inventory item updated successfully",
    "Failed to save inventory item",
    "Inventory item deleted successfully",
    "Failed to delete inventory item")

  /** The component's first render and its mount effect, which loads the list. */
  method MountInventoryPage(table: Table<InventoryFields>, loadOk: bool)
    returns (page: Page<InventoryForm, InventoryFields>)
    requires table.Valid()
    ensures fresh(page) && page.Valid()
    ensures page.table == table && page.actions == Resource && page.messages == InventoryMessages
    ensures !page.showForm && page.editing == None && page.calls == [ListCall]
    ensures loadOk ==> page.ShowsTable() && page.toasts == []
    ensures !loadOk ==> page.items == [] && page.toasts == [ErrorToast("Failed to load inventory items")]
  {
    page := new Page(Resource, InventoryMessages, table);
    page.LoadItems(loadOk);
  }
}
