# Mine-optimal-flow dashboard: a Dafny model of its resource pages

MineOptimize is a browser dashboard for a mining business. It has pages for
inventory, equipment and financial transactions, plus server actions for
production records. Each page does the same things:

- it loads its list from a hosted table when it mounts;
- it opens a form, empty to create a row or prefilled to edit one;
- it submits the form to a server action, which builds the row from the raw
  form fields and inserts or updates it;
- it deletes a row after the user confirms;
- it reloads the list after every successful change and reports the outcome
  in a toast.

Some views are derived from the data: the stock badge of an inventory item,
the status badge of a machine, the totals and net profit of the ledger, and
the highlighted link of the sidebar.

The model has these parts:

- `Store.Table` is the hosted table: a map from row identity to row, with one
  `ok` outcome for each call. A failed call changes nothing. A selection
  returns every row exactly once, ordered by the resource's key.
- `Actions` holds the generic server actions. It covers the no-user check, the
  thrown errors and the revalidated path. Each actions file (`InventoryActions`,
  `EquipmentActions`, `FinancialActions`, `ProductionActions`) supplies a
  payload function, its constants, and wrappers named after its exports.
- `ResourcePage.Page` is the list/form state machine that the three pages
  write out by hand. Its fields are `showForm`, the row being edited, the
  loaded list, the toasts shown so far and the server calls made so far.
  `InventoryPage`, `EquipmentPage` and `FinancialPage` instantiate it, and they
  add their badge, totals and form-prefill functions.
- `Sidebar` holds the navigation table and its active-link rule.
- `Ordering` is the character-code order used for listings, with insertion
  sort as the reference order.
- `Scenarios` holds a few user sequences: edit then cancel, deleting twice,
  and creating the first machine.

Parsing follows JavaScript:

- `parseInt` yields `Option<int>` and `parseFloat` yields `Option<real>`.
  `None` stands for NaN.
- `x || 0` and `x || null` treat NaN, 0 and the empty string as false.
- The financial amount and the production quantity are passed on as parsed,
  with no fallback. The model lets a successful call (`ok` true) store such a
  NaN as `None`, and the totals treat it as NaN absorbing every sum. The real
  store never holds one: the request body is serialised as JSON, which turns
  NaN into null, and the amount and quantity columns are NOT NULL. That
  insert or update fails with the action's error message.

Row identities are natural numbers handed out by a counter. The source uses
UUIDs that the database assigns.

Updating or deleting an identity that is not in the table succeeds and
changes nothing. The store matches zero rows and reports no error.

`redirect()` ends a server action by throwing. So a create with no signed-in
user shows the page's "Failed to save" toast, like any other error.

A reload that fails keeps the old list and shows an error toast. No separate
failed state exists in the code.

## Model

| member | source | states |
|---|---|---|
| Store.Inserted | src/lib/actions/inventory.ts:23-35 | an insert adds exactly the new identity, stamped with the owner and the payload, and keeps every other row |
| Store.Updated | src/lib/actions/inventory.ts:54-66 | reference definition of `.update(payload).eq("id", id)`: the row with that id gets the new fields, keeping its id and owner; an absent id leaves the rows as they are (its properties are in Store.UpdateTouchesOnlyId) |
| Store.Deleted | src/lib/actions/inventory.ts:76-79 | reference definition of `.delete().eq("id", id)`: the rows without that key (its properties are in Store.DeleteRemovesOnlyId) |
| Store.UpdateTouchesOnlyId | src/lib/actions/inventory.ts:54-66 | an update by id keeps the key set, replaces only that row's fields, and keeps its identity and owner |
| Store.DeleteRemovesOnlyId | src/lib/actions/inventory.ts:76-79 | a delete by id removes that key only and keeps every other row; deleting twice is the same as deleting once |
| Store.RowsBelowListsEach | src/lib/actions/inventory.ts:89-92 | enumerating the identities below the counter lists every stored row exactly once |
| Store.Table.constructor | src/integrations/supabase/types.ts:103-116 | a new table of rows of one of the declared shapes holds no rows, and it satisfies the identity invariant |
| Store.Table.Insert | src/lib/actions/inventory.ts:23-35 | success adds the row under a fresh identity and advances the counter; failure changes nothing; consistency is kept |
| Store.Table.Update | src/lib/actions/inventory.ts:54-66 | success rewrites the fields of the row with that id, or nothing if it is absent; failure changes nothing |
| Store.Table.Delete | src/lib/actions/inventory.ts:76-79 | success removes the row with that id, if any; failure changes nothing |
| Store.Table.Select | src/lib/actions/inventory.ts:89-92 | success returns every stored row exactly once (multiset equality), ordered by the key in the requested direction; failure returns no data |
| Ordering.LexLeq | src/lib/actions/inventory.ts:92 | reference definition of the listing order: character-code lexicographic order on keys, a proper prefix first (its properties are Ordering.LexLeqTotal and Ordering.LexLeqTransitive) |
| Ordering.LexLeqTotal | src/lib/actions/inventory.ts:92 | the listing order compares any two keys |
| Ordering.LexLeqTransitive | src/lib/actions/inventory.ts:92 | the listing order is transitive |
| Ordering.PrecedesTotal | src/lib/actions/financial.ts:80 | the order and its descending reversal compare any two rows |
| Ordering.PrecedesTransitive | src/lib/actions/financial.ts:80 | both directions of the order are transitive |
| Ordering.SortedCons | src/lib/actions/inventory.ts:92 | a lower bound placed before a sorted list keeps it sorted |
| Ordering.InsertByLowerBound | src/lib/actions/inventory.ts:92 | inserting an element that does not precede a lower bound keeps the bound |
| Ordering.InsertByElements | src/lib/actions/inventory.ts:92 | inserting adds exactly that element |
| Ordering.InsertBySorted | src/lib/actions/inventory.ts:92 | inserting into a sorted list keeps it sorted |
| Ordering.SortBy | src/lib/actions/inventory.ts:92 | reference definition of an ordered listing: insertion sort by the key in the given direction (its properties are Ordering.SortBySorted) |
| Ordering.SortBySorted | src/lib/actions/inventory.ts:92 | the reference sort yields a sorted permutation of its input |
| Actions.OrNull | src/lib/actions/inventory.ts:29 | `s \|\| null` is null exactly for the empty string and the string itself otherwise |
| Actions.IntOrZero | src/lib/actions/inventory.ts:30-31 | `n \|\| 0` is 0 exactly for NaN and 0, and the parsed number otherwise |
| Actions.IntOrNull | src/lib/actions/inventory.ts:32 | `n \|\| null` is null exactly for NaN and 0, and the parsed number otherwise |
| Actions.RealOrNull | src/lib/actions/inventory.ts:33 | `x \|\| null` is null exactly for NaN and 0, and the parsed number otherwise |
| Actions.OrEmpty | src/lib/actions/inventory.ts:98 | missing data gives the empty list, and present data is returned as is |
| Actions.Create | src/lib/actions/inventory.ts:7-42 | no user gives the resource's auth error and no insert; a store error throws the create message and changes nothing; success inserts the payload stamped with the user's id and returns the path to revalidate |
| Actions.Update | src/lib/actions/inventory.ts:44-73 | success writes the payload to the row with that id only, the owner untouched; an error throws the update message and changes nothing |
| Actions.Delete | src/lib/actions/inventory.ts:75-86 | success removes only the row with that id; an error throws the delete message and changes nothing |
| Actions.List | src/lib/actions/inventory.ts:88-99 | succeeds exactly when the store does; the list holds every row once, in the resource's order; an error throws the fetch message |
| InventoryActions.InventoryPayload | src/lib/actions/inventory.ts:23-35 | empty sku and location become null; NaN or 0 stocks become 0; NaN or 0 maximum stock and unit cost become null; everything else passes through |
| InventoryActions.PayloadNormalised | src/lib/actions/inventory.ts:29-34 | a built payload never stores empty text or a zero in a nullable column |
| InventoryActions.EnteredZeroStoredAsNull | src/lib/actions/inventory.ts:32-33 | an entered 0 for maximum stock is stored as null, and so, separately, is an entered 0 for unit cost |
| InventoryActions.Normalise | src/lib/actions/inventory.ts:29-34 | turns empty sku and location text and a zero maximum stock or unit cost into null, keeps every other field, always gives a normalised row, and leaves a normalised row unchanged |
| InventoryActions.CreateInventoryItem | src/lib/actions/inventory.ts:7-42 | no user redirects to /login with no insert; an error throws "Failed to create inventory item"; success inserts the owner-stamped payload and revalidates /dashboard/inventory |
| InventoryActions.UpdateInventoryItem | src/lib/actions/inventory.ts:44-73 | updates only the given id; an error throws "Failed to update inventory item" |
| InventoryActions.DeleteInventoryItem | src/lib/actions/inventory.ts:75-86 | deletes only the given id; an error throws "Failed to delete inventory item" |
| InventoryActions.GetInventoryItems | src/lib/actions/inventory.ts:88-99 | every row once, ordered by name ascending; an error throws "Failed to fetch inventory items" |
| EquipmentActions.EquipmentPayload | src/lib/actions/equipment.ts:24-33 | name, type and status pass through; empty model, serial number, location and purchase date become null |
| EquipmentActions.Normalise | src/lib/actions/equipment.ts:28-32 | turns empty model, serial number, location and purchase date text into null, keeps name, type and status, always gives a normalised row, and leaves a normalised row unchanged |
| EquipmentActions.PayloadNormalised | src/lib/actions/equipment.ts:28-32 | a built payload never stores empty text in a nullable column |
| EquipmentActions.CreateEquipment | src/lib/actions/equipment.ts:7-40 | no user redirects to /login with no insert; an error throws "Failed to create equipment"; success inserts the owner-stamped payload and revalidates /dashboard/equipment |
| EquipmentActions.UpdateEquipment | src/lib/actions/equipment.ts:42-69 | updates only the given id; an error throws "Failed to update equipment" |
| EquipmentActions.DeleteEquipment | src/lib/actions/equipment.ts:71-82 | deletes only the given id; an error throws "Failed to delete equipment" |
| EquipmentActions.GetEquipment | src/lib/actions/equipment.ts:84-95 | every row once, ordered by name ascending; an error throws "Failed to fetch equipment" |
| FinancialActions.FinancialPayload | src/lib/actions/financial.ts:22-29 | every field passes through, the parsed amount included (NaN stays NaN) |
| FinancialActions.CreateFinancialTransaction | src/lib/actions/financial.ts:7-36 | no user redirects to /login with no insert; an error throws "Failed to create financial transaction"; success inserts the owner-stamped payload and revalidates /dashboard/financial |
| FinancialActions.UpdateFinancialTransaction | src/lib/actions/financial.ts:38-61 | updates only the given id; an error throws "Failed to update financial transaction" |
| FinancialActions.DeleteFinancialTransaction | src/lib/actions/financial.ts:63-74 | deletes only the given id; an error throws "Failed to delete financial transaction" |
| FinancialActions.GetFinancialTransactions | src/lib/actions/financial.ts:76-87 | every row once, ordered by transaction date descending; an error throws "Failed to fetch financial transactions" |
| ProductionActions.ProductionPayload | src/lib/actions/production.ts:20-29 | materialType maps to material_type; empty notes become null; the other fields pass through |
| ProductionActions.CreateProductionRecord | src/lib/actions/production.ts:3-34 | no user throws "Not authenticated" (not a redirect) with no insert; an error throws "Failed to create production record"; nothing is revalidated |
| ProductionActions.UpdateProductionRecord | src/lib/actions/production.ts:36-61 | updates only the given id; an error throws "Failed to update production record" |
| ProductionActions.DeleteProductionRecord | src/lib/actions/production.ts:63-72 | deletes only the given id; an error throws "Failed to delete production record" |
| ProductionActions.GetProductionRecords | src/lib/actions/production.ts:74-85 | every row once, ordered by date descending; an error throws "Failed to fetch production records" |
| ResourcePage.Page.constructor | src/pages/Inventory.tsx:24-27 | the form is closed, nothing is edited, the list is empty, and no toast or call has happened |
| ResourcePage.Page.LoadItems | src/pages/Inventory.tsx:34-45 | success shows exactly the table's rows in order; failure keeps the old list and adds one error toast; the form is untouched |
| ResourcePage.Page.OpenNew | src/pages/Inventory.tsx:98-101 | create mode: nothing edited, form open, no call |
| ResourcePage.Page.OpenEdit | src/pages/Inventory.tsx:74-77 | edit mode for the given row, form open, no call |
| ResourcePage.Page.Cancel | src/pages/Inventory.tsx:221 | form closed, nothing edited, no call, list and toasts unchanged |
| ResourcePage.Page.Submit | src/pages/Inventory.tsx:47-72 | calls update with the edited id or create, never both; on success closes the form, adds the success toast and reloads exactly once, never patching the list itself; on failure keeps form, editing, list and table and adds one error toast |
| ResourcePage.Page.Dispatch | src/pages/Inventory.tsx:49-56 | calls update with the edited id when a row is being edited and create otherwise, never both; reports success exactly when the store succeeds and, for a create, a user is signed in; leaves the form, the list and the toasts alone |
| ResourcePage.Page.Settle | src/pages/Inventory.tsx:51-71 | after a returned action: the success toast, form closed, nothing edited and exactly one reload; after a thrown one: only the error toast, with form, editing and list kept |
| ResourcePage.Page.Delete | src/pages/Inventory.tsx:79-96 | unconfirmed changes nothing; a confirmed success removes the row, adds the success toast and reloads once; a confirmed failure keeps the list and table and adds one error toast |
| InventoryPage.GetStockStatus | src/pages/Inventory.tsx:103-107 | "Out of Stock" exactly at 0 whatever the minimum; "Low Stock" exactly for a nonzero stock at or below the minimum; "In Stock" otherwise; each label with its variant |
| InventoryPage.StockBoundaries | src/pages/Inventory.tsx:103-107 | stock 0 is "Out of Stock" whatever the minimum; a stock equal to a nonzero minimum is "Low Stock"; one unit above the minimum is "In Stock" |
| InventoryPage.StockStatusMonotone | src/pages/Inventory.tsx:105 | raising the minimum never clears a "Low Stock" badge, and lowering it never clears an "In Stock" one |
| InventoryPage.ShowsAlert | src/pages/Inventory.tsx:271 | definition of the alert condition: a positive stock at or below the minimum (its relation to the badge is InventoryPage.AlertOnPositiveLowStock) |
| InventoryPage.AlertOnPositiveLowStock | src/pages/Inventory.tsx:271 | the alert icon shows exactly on a "Low Stock" badge whose stock is positive |
| InventoryPage.NegativeStockLowWithoutAlert | src/pages/Inventory.tsx:271 | a negative stock is "Low Stock" without the alert icon |
| InventoryPage.InventoryFormFor | src/pages/Inventory.tsx:139-216 | a new item's form is blank with both stocks at 0 |
| InventoryPage.EditUnchangedStoresNormalised | src/pages/Inventory.tsx:139-216 | for every stored row, saving its edit form unchanged writes back the normalised row: empty text and zero numbers in nullable columns become null |
| InventoryPage.EditUnchangedRoundTrip | src/pages/Inventory.tsx:139-216 | saving an edit form unchanged writes back the row it was filled from, when the row is normalised (no empty sku or location text, no zero maximum stock or unit cost) |
| InventoryPage.NewItemDefaults | src/pages/Inventory.tsx:139-216 | an unchanged new-item form stores stocks 0 and every nullable column null |
| InventoryPage.MountInventoryPage | src/pages/Inventory.tsx:30-45 | the mounted page has loaded once: the table's rows on success, an empty list and one error toast on failure |
| EquipmentPage.GetStatusColor | src/pages/Equipment.tsx:103-111 | operational is default, down is destructive, retired is outline, and every other status (maintenance included) is secondary |
| EquipmentPage.MaintenanceLooksUnknown | src/pages/Equipment.tsx:106-110 | an unknown status looks like "maintenance" |
| EquipmentPage.EquipmentFormFor | src/pages/Equipment.tsx:180 | a new machine's status defaults to "operational"; an edited row's nonempty status is prefilled |
| EquipmentPage.EditUnchangedStoresNormalised | src/pages/Equipment.tsx:143-209 | for every stored row, saving its edit form unchanged writes back the normalised row, with an empty status turned into "operational" |
| EquipmentPage.EditUnchangedRoundTrip | src/pages/Equipment.tsx:143-209 | saving an edit form unchanged writes back the row it was filled from, when the row is normalised and its status is not empty |
| EquipmentPage.NewEquipmentDefaults | src/pages/Equipment.tsx:143-209 | an unchanged new form stores an operational machine with every nullable column null |
| EquipmentPage.MountEquipmentPage | src/pages/Equipment.tsx:30-45 | the mounted page has loaded once: the table's rows on success, an empty list and one error toast on failure |
| FinancialPage.Plus | src/pages/Financial.tsx:119 | the sum is NaN exactly when an operand is NaN, and the real sum otherwise |
| FinancialPage.Minus | src/pages/Financial.tsx:168 | the difference is NaN exactly when an operand is NaN, and the real difference otherwise |
| FinancialPage.TotalOf | src/pages/Financial.tsx:116-121 | reference definition of one running total: the amounts of the transactions of that type added from 0 in list order (its properties are the Append, Concat and NaN lemmas below) |
| FinancialPage.TotalsOf | src/pages/Financial.tsx:116-121 | reference definition of the totals object: one TotalOf per key revenue, expense, asset and liability |
| FinancialPage.TotalWithoutTransactionsIsZero | src/pages/Financial.tsx:117 | a type with no transactions totals 0, the accumulator's starting value |
| FinancialPage.GetTotalsByType | src/pages/Financial.tsx:116-122 | each of the four totals is the sum, from 0, of the amounts of that type's transactions |
| FinancialPage.AppendCreditsOnlyItsType | src/pages/Financial.tsx:118-120 | appending a transaction adds its amount to its own type's total and leaves the other totals alone |
| FinancialPage.AppendOtherTypeKeepsTotals | src/pages/Financial.tsx:117-119 | a transaction of none of the four types changes none of the totals |
| FinancialPage.TotalOfConcat | src/pages/Financial.tsx:118-120 | the total over two lists is the sum of the two totals |
| FinancialPage.TotalNaNIffNaNAmount | src/pages/Financial.tsx:119 | a total is NaN exactly when some transaction of that type has a NaN amount |
| FinancialPage.NetProfit | src/pages/Financial.tsx:168 | definition of the "Net Profit" card: revenue total minus expense total (its independence from other types is FinancialPage.NetProfitIgnoresOtherTypes) |
| FinancialPage.ProfitAndLoss | src/pages/Financial.tsx:168 | the filter keeps only revenue and expense transactions |
| FinancialPage.NetProfitIgnoresOtherTypes | src/pages/Financial.tsx:168 | the revenue total, the expense total and so net profit are the same over the revenue and expense transactions alone, whatever the asset, liability and other transactions |
| FinancialPage.NetProfitExample | src/pages/Financial.tsx:116-122 | revenue 1000, expense 400 and asset 200 give a net profit of 600 |
| FinancialPage.GetTransactionColor | src/pages/Financial.tsx:106-114 | revenue is default, expense is destructive, liability is outline, and asset and any other type are secondary |
| FinancialPage.GetTransactionIcon | src/pages/Financial.tsx:102-104 | the icon is TrendingUp exactly for revenue |
| FinancialPage.AmountTone | src/pages/Financial.tsx:302 | revenue amounts are green, expense amounts are red, and others have no colour |
| FinancialPage.FinancialFormFor | src/pages/Financial.tsx:195-248 | a new form is blank and dated today; an edited row's amount is prefilled unless it is 0 or NaN |
| FinancialPage.EditUnchangedStoresPrefill | src/pages/Financial.tsx:195-248 | for every stored row, saving its edit form unchanged writes back the row, except that an amount of 0 comes back as NaN and an empty date as today |
| FinancialPage.EditUnchangedRoundTrip | src/pages/Financial.tsx:195-248 | saving an edit form unchanged writes back the row, when its amount is not 0 and its date is set |
| FinancialPage.MountFinancialPage | src/pages/Financial.tsx:29-44 | the mounted page has loaded once: the table's rows on success, an empty list and one error toast on failure |
| Sidebar.IsActive | src/components/layout/sidebar.tsx:84-85 | definition of the active-link rule: the exact path, or a path starting with the link for every link but the dashboard (its properties are the Sidebar lemmas below) |
| Sidebar.NavButtons | src/components/layout/sidebar.tsx:83-90 | one button per navigation entry, in order; secondary exactly when the entry is active, ghost otherwise |
| Sidebar.DashboardOnlyOnExactPath | src/components/layout/sidebar.tsx:85 | the dashboard link is active exactly on "/dashboard" |
| Sidebar.OwnPathActive | src/components/layout/sidebar.tsx:84 | every link is active on its own path |
| Sidebar.NoNestedLinks | src/components/layout/sidebar.tsx:20-56 | no section link is a prefix of another |
| Sidebar.AtMostOneActive | src/components/layout/sidebar.tsx:20-56 | for any path, at most one navigation entry is active |
| Sidebar.AtMostOneHighlighted | src/components/layout/sidebar.tsx:84-90 | for any path, at most one button is highlighted |
| Sidebar.SubPathActivatesSection | src/components/layout/sidebar.tsx:85 | "/dashboard/inventory/5" activates Inventory and not Dashboard |
| Sidebar.PrefixIsNotSegment | src/components/layout/sidebar.tsx:85 | the match is on characters, so "/dashboard/inventory-archive" activates Inventory |
| Scenarios.EditThenCancel | src/pages/Inventory.tsx:74-77 | editing a row and cancelling leaves the list, the toasts, the calls and the table unchanged |
| Scenarios.ShownRowsAreStored | src/pages/Inventory.tsx:34-37 | a loaded list holds no row whose identity is missing from the table |
| Scenarios.DeleteTwice | src/pages/Inventory.tsx:79-96 | two confirmed deletes of one id both succeed, each reloads, and the final list no longer holds the row |
| Scenarios.CreateExcavatorAlpha | src/pages/Equipment.tsx:47-72 | on an empty table, creating "Excavator Alpha" from the new form lists exactly that row, operational, owned by the user |

## Left out

- Time and asynchrony: each handler runs as one atomic step. Overlapping submits are not modelled, nor results that arrive after the page has gone.
- The hosted store's constraints, such as NOT NULL columns and row-level security, are not modelled. The nondeterministic `ok` outcome covers every store error.
- Columns that no form writes are left out of the row types: equipment `last_maintenance` and `next_maintenance` (src/integrations/supabase/types.ts:16, 20) and financial `reference_id` and `reference_type` (types.ts:67-68). No behaviour modelled here reads them.
- FinancialActions.FinancialPayload and ProductionActions.ProductionPayload: with `ok` true the model stores a NaN (`None`) amount or quantity. The real store rejects it, because JSON sends NaN as null into a NOT NULL column (src/integrations/supabase/types.ts:62, 75, 206). So FinancialPage.TotalNaNIffNaNAmount and the NaN case of FinancialPage.Plus describe rows that the real store never returns.
- The timestamps and database-generated UUIDs of rows are left out. Identities come from a counter instead.
- Floating point: amounts, quantities and costs are exact reals. Rounding and `toLocaleString` formatting are not modelled.
- `parseInt` is an abstract parser whose result is an `Option<int>`. Its handling of leading whitespace, signs, hexadecimal prefixes and trailing junk is not modelled. The same holds for `parseFloat`.
- FinancialPage.GetTotalsByType: a transaction whose type is none of the four keys is ignored. In JavaScript it adds a fifth key to the object, holding NaN, which no one ever reads.
- Listing order is by character code. The database's collation for `order("name")` is not modelled. Neither is the order of ties, which the store does not fix.
- A form field that is missing altogether (`formData.get` returning null) is not modelled. The pages always submit every field.
- HTML `required` validation is left out, and so is select-option validation. The model accepts any text the form submits.
- `revalidatePath` is modelled only as the path the action returns. The cache it clears is not modelled.
- Toasts are recorded as title, description and variant. Their display, dismissal and timing are not modelled.
- The `confirm()` dialog becomes the boolean `confirmed`.
- Supabase auth becomes an `Option<User>` argument.
- src/pages/Production.tsx is not part of this model. Its form never calls a server action, and its table is constant.
- src/pages/Dashboard.tsx, src/pages/Index.tsx and src/components/dashboard/ are not part of this model. They contain only static markup and mock data.
- src/components/ui/kpi-card.tsx is not part of this model.
- src/App.tsx is not part of this model; it only wires routes.
- Icons other than the financial trend icon are not modelled, nor are class names other than the amount colour.
