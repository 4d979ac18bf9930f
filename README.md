# Restaurant backend core, modelled in Dafny

This project models the data layer and request handlers of a multi-tenant restaurant
backend. The model covers five parts:

- the inventory: items, units and the stock ledger;
- the menu: menu items, addons and variants;
- the store settings: taxes, tax groups and their links, payment types, store tables,
  categories and the QR-menu code;
- the order a guest places through the QR menu;
- the controller guards and reply mappings of the inventory and menu routes.

Every row carries a `tenant_id`. In the functions modelled here, every INSERT stores the
caller's tenant, and the WHERE clause of every UPDATE, DELETE and SELECT names it.
The exceptions are:
- the customer lookup of the QR order, which matches on the phone alone
  (`SettingsService.CustomerLookupIgnoresTenant`);
- the partners of every LEFT JOIN, matched by id alone: `inventory_units` in the item
  lists, `tax_groups` and `categories` in the menu lists, and `taxes_tax_groups` and
  `taxes` in the tax-group list. The ids come from the request body, and `addTaxDB`
  does not check who owns the group it links, so one tenant's list can show another
  tenant's unit, group, category or tax (`InventoryService.UnitJoinIgnoresTenant`,
  `MenuItemService.MenuJoinsIgnoreTenant`, `SettingsService.TaxJoinsIgnoreTenant`);
- the statements written up under "Findings".

The model has these parts:

- **Tables and counters.** `Schema.Database` is one object holding each table as a
  sequence of rows, plus one AUTO_INCREMENT counter per table with a generated key.
  Invariants are kept per group of tables: inventory, menu, taxes, store settings and
  QR orders. Each service method reads and writes only its group's fields.
- **Queries.** `Rows` gives the SQL shapes the services use, as functions on
  sequences: a WHERE filter, UPDATE ... WHERE, DELETE ... WHERE, LEFT JOIN and a
  column projection. It also gives their laws: membership, affected rows, one row
  per left row, keys kept increasing.
- **Failures.** A statement the store refuses is an input. `faults` holds the
  positions of the statements that throw, in the method's own numbering. A method
  either resolves or rejects with the first refused statement.
- **Transactions.** A transaction snapshots its tables at BEGIN and restores them on
  ROLLBACK. AUTO_INCREMENT counters are not rolled back.
- **JavaScript truthiness.** `Js.TruthyInt`, `Js.TruthyString` and `Js.OrElse`
  model JavaScript truthiness and `||` on the optional request fields.
- **The addon ids column.** `Json` models `JSON.stringify` of an array of integers,
  and a reader for that text.
- **Controllers.** The handlers become methods that call the service with the
  authenticated user's tenant. They answer with `Http.Reply` (status, message, id)
  or `Http.Response`.

The central property is the ledger. A movement belongs to an item when both its
`inventory_item_id` and its `tenant_id` match the item's, the same condition the
balance UPDATE uses. Both ledger writes keep, for every existing item, its cached
`stock_quantity` minus the sum of its movements (its drift). So a ledger that starts
consistent stays consistent. A movement that names another tenant's item id counts
toward no item; `InventoryService.CrossTenantRestockMovesNoBalance` shows such a write.
The writes as they stand commit even when the balance UPDATE hits no row. The corrected writer `InventoryService.WriteLedgerChecked`
rolls such a write back, and it keeps the stronger invariant `LedgerSound`.

## Model

| member | source | states |
|---|---|---|
| InventoryService.AdjustBalance | src/services/inventory.service.js:221-231 | the relative balance UPDATE moves only the row matching id and tenant, by exactly delta, keeps every other column and row, and leaves the table unchanged when no row matches |
| InventoryService.MovementSumAppend | src/services/inventory.service.js:203-218 | appending a movement adds its quantity to the ledger sum of the item and tenant it names, and nothing to any other |
| InventoryService.LedgerWriteKeepsDrift | src/services/inventory.service.js:203-231 | a ledger write (append the movement, then move the matching balance by its quantity) keeps every existing item's balance minus its ledger sum |
| InventoryService.RestockKeepsDrift | src/services/inventory.service.js:203-231 | a committed restock keeps every existing item's drift |
| InventoryService.UsageKeepsDrift | src/services/inventory.service.js:259-282 | a committed usage, with `-stockQuantity` on both the balance and the ledger, keeps every existing item's drift |
| InventoryService.LedgerWritesKeepConsistency | src/services/inventory.service.js:188-295 | a consistent ledger (each balance equals its movements' sum) stays consistent after either committed ledger write |
| InventoryService.DetailUpdatesKeepDrift | src/services/inventory.service.js:36-88 | the detail and image updates never change a balance, so every drift is kept |
| InventoryService.DeleteKeepsConsistency | src/services/inventory.service.js:91-108 | deleting an item keeps a consistent ledger consistent for the remaining items |
| InventoryService.AddInventoryItem | src/services/inventory.service.js:3-34 | one INSERT; it resolves exactly when the statement succeeds, with an insert id above every existing id, and the new row has balance 0; on failure the table is unchanged; the id counter advances by one exactly when the INSERT runs |
| InventoryService.UpdateInventoryItem | src/services/inventory.service.js:36-68 | it sets title, minimum level, image and unit on the row matching id and tenant, never the balance; a miss still resolves; on failure nothing changes |
| InventoryService.UpdateInventoryItemImage | src/services/inventory.service.js:70-88 | it sets only `image_url` on the row matching id and tenant; on failure nothing changes |
| InventoryService.DeleteInventoryItem | src/services/inventory.service.js:91-108 | it removes exactly the rows matching id and tenant and keeps the movements; on failure nothing changes |
| InventoryService.InsertMovement | src/services/inventory.service.js:203-218 | the movement is appended with the next movement id, and the counter advances |
| InventoryService.UpdateBalance | src/services/inventory.service.js:221-231 | the items table becomes the relative balance update of the old table |
| InventoryService.RollbackLedger | src/services/inventory.service.js:237-240 | ROLLBACK restores the rows snapshotted at BEGIN and keeps the movement counter |
| InventoryService.AddStockMovement | src/services/inventory.service.js:188-244 | BEGIN, INSERT, UPDATE, COMMIT: it resolves exactly when all four succeed, and then the restock movement is appended and the balance moved by the quantity; otherwise it rejects with the first failing statement and both tables are as before; the movement counter advances exactly when BEGIN and the INSERT succeed, and a rollback does not restore it |
| InventoryService.RemoveStockMovement | src/services/inventory.service.js:246-295 | as the restock, with `-stockQuantity` in the ledger and `stock_quantity - ?` on the balance, with no floor; rollback on any failure; the movement counter advances exactly when BEGIN and the INSERT succeed, and a rollback does not restore it |
| InventoryService.FreshItemHasNoMovements | src/services/inventory.service.js:3-34 | an item id not yet issued has ledger sum 0 |
| InventoryService.AddItemKeepsSound | src/services/inventory.service.js:3-34 | inserting an item (balance 0) keeps the ledger sound |
| InventoryService.CheckedWriteKeepsSound | src/services/inventory.service.js:221-234 | a ledger write whose UPDATE hit a row keeps the ledger sound |
| InventoryService.OrphanRestockIsAdopted | src/services/inventory.service.js:221-234 | a restock of an id not yet issued commits without moving any balance; the item later given that id starts at 0 but inherits the movement, so its balance no longer matches its ledger |
| InventoryService.CrossTenantRestockMovesNoBalance | src/services/inventory.service.js:203-231 | tenant 2's restock of tenant 1's item 5 stores the movement and moves no balance; item 5 stays consistent when movements are counted by item and tenant, while its movements by item id alone sum to 3 against a balance of 0 |
| InventoryService.WriteLedgerChecked | src/services/inventory.service.js:188-295 | corrected ledger write: it resolves exactly when every statement succeeds and the UPDATE hit a row; it rejects with NotFound exactly when BEGIN, INSERT and UPDATE succeed and the UPDATE hit no row, rolling back; any other rejection is the first refused statement; it keeps `LedgerSound`; the movement counter advances exactly when BEGIN and the INSERT succeed, and a rollback does not restore it |
| InventoryService.JoinUnits | src/services/inventory.service.js:117-130 | `LEFT JOIN inventory_units ON i.unit_id = u.id` gives one row per item, joined with the unit its `unit_id` names or NULL |
| InventoryService.AllInventoryItemsOnePerItem | src/services/inventory.service.js:110-140 | the item list holds one row per item of the tenant, in table order, with its unit's columns or NULL, and loses no item for lack of a unit |
| InventoryService.UnitJoinIgnoresTenant | src/services/inventory.service.js:127-129 | `ON i.unit_id = u.id` compares no tenants: tenant 1's item naming tenant 2's unit 4 is listed with that unit's title and id |
| InventoryService.InventoryItemAsWrittenCrossesTenants | src/services/inventory.service.js:142-167 | as written, one placeholder takes the item id as the tenant: tenant 2's lookup of item 1 returns tenant 1's item 2 |
| InventoryService.InventoryItemByIdFinds | src/services/inventory.service.js:142-167 | the intended lookup `WHERE i.id = ? AND i.tenant_id = ?` finds the caller's item with that id, and its unit, exactly when it exists |
| InventoryService.AllInventoryUnits | src/services/inventory.service.js:169-186 | exactly the tenant's units |
| InventoryController.StockGuardsCheckTruthinessOnly | src/controllers/inventory.controller.js:298-304 | the stock guards refuse a zero or missing quantity but let a negative one through |
| InventoryController.AddStock | src/controllers/inventory.controller.js:291-327 | 400 exactly when the guard refuses, with nothing written; 500 exactly when the guard passes and a statement of the ledger write fails, with both tables unchanged; otherwise 200 with the movement id, after a restock in the user's tenant by the user's name; the id counter advances only when the guard passes and the INSERT runs |
| InventoryController.RemoveStock | src/controllers/inventory.controller.js:329-363 | as `addStock`, with its own guard (quantity and remarks) and a usage movement: 400 exactly when the guard refuses, 500 exactly when it passes and a statement fails; the id counter advances only when the guard passes and the INSERT runs |
| InventoryController.AddInventoryItem | src/controllers/inventory.controller.js:18-51 | 400 exactly when title, minimum level or unit is falsy; 500 exactly when the guard passes and the INSERT is refused; otherwise 200 with the id of the row inserted in the user's tenant; the id counter advances only when the guard passes and the INSERT runs |
| InventoryController.UpdateInventoryItem | src/controllers/inventory.controller.js:53-86 | 400 exactly when the guard refuses; 500 exactly when it passes and the UPDATE is refused; otherwise 200 after the update of the user's item |
| InventoryController.AddInventoryUnit | src/controllers/inventory.controller.js:261-287 | 400 exactly when the guard refuses; otherwise 500, because the service does not export the function it calls |
| InventoryController.UpdateInventoryUnit | src/controllers/inventory.controller.js:232-259 | 400 exactly when the guard refuses; otherwise 500, for the same missing service function |
| InventoryController.ItemListShowsEachItem | src/controllers/inventory.controller.js:167-191 | the item list reply has one view per item of the user's tenant, in order, with the item's columns, its unit's id and title or NULL, and no unit quantity |
| InventoryController.UnitListShowsEachUnit | src/controllers/inventory.controller.js:210-230 | the unit list reply holds exactly the views of the tenant's units |
| MenuItemService.AddMenuItem | src/services/menu_item.service.js:3-34 | one INSERT that resolves with an insert id above every existing id and appends the row; on failure the table is unchanged; the id counter advances by one exactly when the INSERT runs |
| MenuItemService.UpdateMenuItem | src/services/menu_item.service.js:36-68 | it updates the details of the row matching id and tenant; on failure nothing changes |
| MenuItemService.UpdateMenuItemImage | src/services/menu_item.service.js:70-88 | it updates only the image of the row matching id and tenant |
| MenuItemService.DeleteMenuItem | src/services/menu_item.service.js:90-107 | it removes the rows matching id and tenant; addons and variants stay |
| MenuItemService.MenuItemWritesIsolateTenants | src/services/menu_item.service.js:36-107 | a menu-item update or delete leaves every other tenant's menu items exactly as they were |
| MenuItemService.AddMenuItemAddon | src/services/menu_item.service.js:174-192 | one INSERT of the addon, resolving with its insert id; the id counter advances by one exactly when the INSERT runs |
| MenuItemService.UpdateMenuItemAddon | src/services/menu_item.service.js:201-219 | it sets the title of the addon matching id, item and the value in the tenant slot |
| MenuItemService.DeleteMenuItemAddon | src/services/menu_item.service.js:226-243 | it removes the addon matching id, item and tenant |
| MenuItemService.AddonWritesIsolateTenants | src/services/menu_item.service.js:201-243 | an addon update or delete in one tenant leaves every other tenant's addons unchanged |
| MenuItemService.MenuItemAddons | src/services/menu_item.service.js:250-267 | exactly the tenant's addons of the item |
| MenuItemService.AllAddons | src/services/menu_item.service.js:269-286 | exactly the tenant's addons |
| MenuItemService.AddMenuItemVariant | src/services/menu_item.service.js:294-318 | one INSERT of the variant, resolving with its insert id; the id counter advances by one exactly when the INSERT runs |
| MenuItemService.UpdateMenuItemVariant | src/services/menu_item.service.js:320-344 | it sets title and price of the variant matching id, item and tenant |
| MenuItemService.DeleteMenuItemVariant | src/services/menu_item.service.js:346-363 | it removes the variant matching id, item and tenant |
| MenuItemService.VariantWritesIsolateTenants | src/services/menu_item.service.js:320-363 | a variant update or delete leaves every other tenant's variants unchanged |
| MenuItemService.MenuItemVariants | src/services/menu_item.service.js:365-382 | exactly the tenant's variants of the item |
| MenuItemService.AllVariants | src/services/menu_item.service.js:383-399 | exactly the tenant's variants |
| MenuItemService.JoinedMenuItemsOnePerItem | src/services/menu_item.service.js:109-137 | the two LEFT JOINs (tax group, category) give one row per kept menu item, in order, with the tax group and category its ids name or NULL |
| MenuItemService.AllMenuItemsOnePerItem | src/services/menu_item.service.js:109-137 | the menu list holds each of the tenant's menu items once, in table order |
| MenuItemService.MenuJoinsIgnoreTenant | src/services/menu_item.service.js:123-126 | the tax-group and category joins compare no tenants: tenant 1's menu item naming tenant 2's group 3 and category 6 is listed with their titles |
| MenuItemService.MenuItemByIdFinds | src/services/menu_item.service.js:139-166 | the lookup finds the tenant's menu item with that id exactly when it exists, with its tax group and category |
| MenuItemController.AddMenuItem | src/controllers/menu_item.controller.js:26-58 | 400 exactly when title or net price is falsy, with nothing written; 500 exactly when the guard passes and the INSERT is refused; otherwise 200 with the id of the menu item inserted in the user's tenant; the id counter advances only when the guard passes and the INSERT runs |
| MenuItemController.UpdateMenuItem | src/controllers/menu_item.controller.js:60-93 | the same guard with its own message; 500 exactly when the UPDATE is refused; otherwise 200 after updating the user's menu item |
| MenuItemController.AddMenuItemAddon | src/controllers/menu_item.controller.js:279-310 | title and price required (400 otherwise); 500 exactly on a refused INSERT; otherwise 200 with the id of the addon inserted for the item in the user's tenant; the id counter advances only when the guard passes and the INSERT runs |
| MenuItemController.UpdateMenuItemAddon | src/controllers/menu_item.controller.js:312-339 | only the title required (400 otherwise); 500 exactly on a refused UPDATE; otherwise 200, with the addons updated by the as-written call that puts `netPrice` in the tenant slot |
| MenuItemController.AddMenuItemVariant | src/controllers/menu_item.controller.js:400-431 | only the title required, so a variant without a price is stored; 500 exactly on a refused INSERT; otherwise 200 with the new variant's id; the id counter advances only when the guard passes and the INSERT runs |
| MenuItemController.UpdateMenuItemVariant | src/controllers/menu_item.controller.js:433-459 | only the title required; 500 exactly on a refused UPDATE; otherwise 200 after setting title and price of the user's variant |
| MenuItemController.PriceGuardsRefuseZero | src/controllers/menu_item.controller.js:31-36 | the title-and-price guards refuse a zero or missing price; the title-only guards (lines 319-324, 406-411, 440-445) accept it |
| MenuItemController.FormatMenuItemsGroups | src/controllers/menu_item.controller.js:228-241 | the grouping keeps count and order and gives each item exactly the addons and variants whose `item_id` is its id |
| MenuItemController.FormatMenuItemsKeepsOrder | src/controllers/menu_item.controller.js:228-241 | each item's addons and variants stay in table (id) order |
| MenuItemController.MenuReplyListsEachItem | src/controllers/menu_item.controller.js:219-249 | the menu reply lists each of the tenant's items once, in order, with exactly the tenant's addons and variants of that item |
| MenuItemController.MenuItemReplyMerges | src/controllers/menu_item.controller.js:251-276 | 200 even for an unknown id; the item fields are present exactly when the tenant has that item, and the lists hold the tenant's addons and variants with that item id |
| MenuItemController.AddonListReply | src/controllers/menu_item.controller.js:360-382 | 404 exactly when the tenant has no addon for the item; otherwise 200 with exactly those addons |
| MenuItemController.VariantListReply | src/controllers/menu_item.controller.js:481-503 | 404 exactly when the tenant has no variant for the item; otherwise 200 with exactly those variants |
| MenuItemController.AddonUpdateAsWrittenCrossesTenants | src/controllers/menu_item.controller.js:312-339 | as written, `netPrice` lands in the service's tenant slot: tenant 1 renames tenant 2's addon by sending price 2, and a request without a price renames nothing |
| MenuItemController.AddonUpdateCallOf | src/controllers/menu_item.controller.js:326 | the intended call is the call as written with the user's tenant in the tenant slot in place of `netPrice`, and the two agree exactly when `netPrice` equals the user's tenant id |
| MenuItemController.AddonUpdateStaysInTenant | src/services/menu_item.service.js:201-219 | with the intended call, every other tenant's addons are unchanged and the caller's addon gets the title |
| SettingsService.QrMenuCode | src/services/settings.service.js:119-137 | the code is either None or a non-empty code of one of the tenant's store-details rows; when every code of the tenant is missing or empty, it is None |
| SettingsService.QrMenuCodeIsFirstRow | src/services/settings.service.js:119-137 | `LIMIT 1` then `|| null`: it is the first tenant row's code when that is truthy, and None otherwise |
| SettingsService.AddTax | src/services/settings.service.js:239-265 | it resolves exactly when both INSERTs succeed; the tax is appended with the next id, and on success the link (tax, group, tenant) too; a failed link insert leaves the tax inserted (no transaction); the id counter advances by one exactly when the INSERT runs |
| SettingsService.UpdateTax | src/services/settings.service.js:366-397 | UPDATE of the tax's columns in the tenant, DELETE of every link of that tax id, INSERT of the new link; each failing statement stops the rest |
| SettingsService.UpdateTaxLeavesOneLink | src/services/settings.service.js:387-389 | after a successful update the tax id has exactly one link, the new one, and other tax ids' links are unchanged |
| SettingsService.UpdateTaxDropsOtherTenantsLink | src/services/settings.service.js:377-389 | as written, tenant 1 updating tenant 2's tax 5 misses the tax but deletes tenant 2's link of it |
| SettingsService.ScopedLinkDeleteKeepsOtherTenants | src/services/settings.service.js:377-379 | the tenant-scoped link DELETE leaves every other tenant's links unchanged |
| SettingsService.LinkInsertKeepsOtherTenants | src/services/settings.service.js:381-385 | inserting a link of tenant t leaves every other tenant's links unchanged |
| SettingsService.ScopedLinkUpdateLeavesOneLink | src/services/settings.service.js:387-389 | the tenant-scoped replace leaves exactly the new link for that tax in that tenant, and every other tax's links as they were |
| SettingsService.UpdateTaxInTenant | src/services/settings.service.js:366-397 | corrected update: it rejects with NotFound exactly when the tax UPDATE succeeds but hits no tax of the caller's, and then no link is deleted or added; it resolves exactly when all three statements succeed and the UPDATE hit a row; the links are exactly as before when the UPDATE misses or the UPDATE or link DELETE is refused, the old links without the tax's links in the caller's tenant when the INSERT is refused, and that plus the new link on success; every link it adds names one of the caller's own taxes; every other tenant's links are unchanged; on success the tax has exactly the new link in the caller's tenant, and every other tax keeps its links |
| SettingsService.UpdateTaxRow | src/services/settings.service.js:370-387 | the tax UPDATE answers its affected-row count, sets title, rate and type on the rows matching id and tenant, and a tax it hit is still the tenant's afterwards |
| SettingsService.ReplaceTaxLinkInTenant | src/services/settings.service.js:377-389 | the tenant-scoped link DELETE then INSERT: it resolves exactly when neither is refused, gives the exact links on each path, changes no other tenant's links, and adds only the new link, which names a tax of the caller's when the tenant owns that tax |
| SettingsService.DeleteTax | src/services/settings.service.js:348-364 | it removes the tax matching id and tenant; on failure nothing changes |
| SettingsService.TaxWritesIsolateTenants | src/services/settings.service.js:348-397 | a tax update or delete leaves every other tenant's taxes unchanged |
| SettingsService.AddTaxGroup | src/services/settings.service.js:437-455 | one INSERT resolving with the new id; the id counter advances by one exactly when the INSERT runs |
| SettingsService.UpdateTaxGroup | src/services/settings.service.js:475-494 | it sets the title on the group matching id and tenant |
| SettingsService.DeleteTaxGroup | src/services/settings.service.js:457-473 | it removes the group matching id and tenant |
| SettingsService.TaxGroupWritesIsolateTenants | src/services/settings.service.js:457-494 | a group update or delete leaves every other tenant's groups unchanged |
| SettingsService.AllTaxGroupsAndTaxes | src/services/settings.service.js:289-326 | one entry per tax group of the tenant, in table order, with its id and title; every group's aggregate is an array, never NULL and never empty; its entries that name a tax are exactly the group's intended taxes, and every other entry is the all-NULL object |
| SettingsService.GroupJoinNeverEmpty | src/services/settings.service.js:305-307 | the two LEFT JOINs give every group at least one joined row |
| SettingsService.GroupRowAsWrittenTaxes | src/services/settings.service.js:297-319 | for one group, `JSON_ARRAYAGG` is never NULL, the array is non-empty, its tax-naming entries are the linked taxes and the rest are all-NULL objects |
| SettingsService.AsWrittenTaxesDropToIntended | src/services/settings.service.js:289-326 | the list as written and the corrected list name the same groups, and dropping the all-NULL entries from a group's taxes as written gives its corrected taxes |
| SettingsService.GroupWithoutLinksListsNullTax | src/services/settings.service.js:297-319 | as written, a group no link names still gets one all-NULL tax object, never the `[]` fallback |
| SettingsService.TaxGroupsWithTaxes | src/services/settings.service.js:289-326 | corrected reader: the same groups, each with the entries of its linked taxes only |
| SettingsService.TaxJoinsIgnoreTenant | src/services/settings.service.js:304-308 | the link and tax joins compare no tenants: tenant 2's tax 5, linked to tenant 1's group 3, is listed under that group |
| SettingsService.GroupTaxEntriesAreLinkedTaxes | src/services/settings.service.js:304-306 | an entry is listed for a group exactly when some link of the group names an existing tax with those columns |
| SettingsService.GroupWithoutTaxesListsNone | src/services/settings.service.js:316-319 | in the corrected reader, a group no link names lists `[]` |
| SettingsService.AddPaymentType | src/services/settings.service.js:496-514 | one INSERT resolving with the new id; the id counter advances by one exactly when the INSERT runs |
| SettingsService.PaymentTypes | src/services/settings.service.js:516-540 | exactly the tenant's payment types, and with `activeOnly` exactly the active ones |
| SettingsService.UpdatePaymentType | src/services/settings.service.js:542-560 | it sets title and active flag on the row matching id and tenant |
| SettingsService.TogglePaymentType | src/services/settings.service.js:562-580 | it sets only the active flag on the row matching id and tenant |
| SettingsService.ToggleDecidesActiveListing | src/services/settings.service.js:516-580 | after switching off, the active list is the old one without that id; after switching on, the toggled row is listed |
| SettingsService.DeletePaymentType | src/services/settings.service.js:582-599 | it removes the payment type matching id and tenant |
| SettingsService.PaymentTypeWritesIsolateTenants | src/services/settings.service.js:542-599 | payment-type writes leave every other tenant's rows unchanged |
| SettingsService.AddStoreTable | src/services/settings.service.js:601-624 | one INSERT resolving with the new id; the id counter advances by one exactly when the INSERT runs |
| SettingsService.UpdateStoreTable | src/services/settings.service.js:681-705 | it sets title, floor and capacity on the row matching id and tenant |
| SettingsService.DeleteStoreTable | src/services/settings.service.js:707-724 | it removes the store table matching id and tenant |
| SettingsService.StoreTableWritesIsolateTenants | src/services/settings.service.js:681-724 | store-table writes leave every other tenant's rows unchanged |
| SettingsService.AddCategory | src/services/settings.service.js:726-744 | one INSERT resolving with the new id; the id counter advances by one exactly when the INSERT runs |
| SettingsService.UpdateCategory | src/services/settings.service.js:765-783 | it sets the title on the category matching id and tenant |
| SettingsService.DeleteCategory | src/services/settings.service.js:785-802 | it removes the category matching id and tenant |
| SettingsService.CategoryWritesIsolateTenants | src/services/settings.service.js:765-802 | category writes leave every other tenant's rows unchanged |
| SettingsService.AddonsColumn | src/services/settings.service.js:850 | the column is NULL exactly when the addon id array is missing or empty; otherwise it is a text that reads back as the array |
| SettingsService.OrderLinesRecordCart | src/services/settings.service.js:842-853 | one order line per cart entry, in order, with the order id, the entry's columns, the tenant, and addon ids that read back from the column |
| SettingsService.OrderRegistersCustomerOnce | src/services/settings.service.js:856-873 | afterwards a truthy customer id is a known phone, held by exactly one row when it was unknown and by as many as before otherwise |
| SettingsService.InsertQrOrder | src/services/settings.service.js:821-833 | the order row is appended with the next order id and `paymentStatus` or 'pending' |
| SettingsService.InsertOrderLines | src/services/settings.service.js:836-853 | the cart's lines are appended under that order id |
| SettingsService.RollbackOrder | src/services/settings.service.js:881-884 | ROLLBACK restores the three tables snapshotted at BEGIN |
| SettingsService.CustomerLookupIgnoresTenant | src/services/settings.service.js:857-868 | the lookup matches the phone alone: a phone only another tenant has registered counts as known, so the ordering tenant gets no customer row |
| SettingsService.RegisterCustomer | src/services/settings.service.js:856-873 | with a truthy customer id: a lookup by phone, then an insert only when it is unknown; it fails with the first refused statement |
| SettingsService.PlaceOrderViaQrMenu | src/services/settings.service.js:804-888 | it resolves exactly when every statement succeeds (an empty cart's `VALUES ?` always fails) and then returns the new order id, with the order, its lines and any new customer appended; otherwise it rejects with the first failure and all three tables are unchanged; the order counter advances exactly when BEGIN and the order INSERT succeed, and a rollback does not restore it |
| SettingsService.CommittedOrderLinesAreCart | src/services/settings.service.js:833-853 | after a committed order, the lines with its id are exactly the cart's lines |
| Json.ParseStringify | src/services/settings.service.js:850 | reading back `JSON.stringify` of an integer array gives the array |
| Json.StringifyInjective | src/services/settings.service.js:850 | distinct addon id arrays are stored as distinct texts |

## Left out

- Routes, the authentication middleware and Express itself: a handler receives the authenticated `req.user` as a `User`.
- Connection pooling, connection release, logging and concurrency: each operation runs alone against one database state.
- Photo upload and removal (`uploadInventoryItemPhoto`, `removeInventoryItemPhoto`, the menu photo handlers): file system and object storage calls.
- The `assigned === false` branch of `getAllInventoryItemsDB`: only the default query is modelled.
- The handlers `getInventoryItem`, `deleteInventoryItem`, `deleteMenuItem`, `deleteMenuItemAddon`, `deleteMenuItemVariant`, `getAllAddons` and `getAllVariants`: they only forward the user's tenant to the modelled service and map any error to 500.
- Money and quantities are integers: decimal prices, floating point, NaN, booleans and numeric strings in request bodies or `req.params` are not modelled.
- Fixed-width integer overflow of ids and balances: ids and balances are unbounded.
- `ON DUPLICATE KEY`, a ROLLBACK that fails itself, and foreign keys. BEGIN, COMMIT and every query can be refused through `faults`, and a refused COMMIT rolls back like any other statement. Since foreign keys are not modelled, the links a deleted tax or tax group leaves behind stay in the model.
- The `stock_quantity` column default: taken to be 0, since `addInventoryItemDB` does not insert it.
- The other functions of `settings.service.js` (`getTenantIdFromQRCode`, currency, store and print settings, `updateQRMenuCodeDB`, `getTaxesDB`, `getTaxDB`, `getTaxGroupsDB`, `getTaxGroupDB`, `getCategoriesDB`): readers and settings writers outside the modelled core.
- `getStoreTablesDB` and `getStoreTableByEncryptedIdDB`: they depend on encrypting table ids, which is not modelled.
- The settings controller: `src/controllers/settings.controller.js` is not part of this model.
- Row order: no SELECT of the core has an `ORDER BY`, and every one, including `GROUP BY`, `JSON_ARRAYAGG` and `LIMIT 1`, is modelled as returning rows in table order, and joined rows in link order.
- `getPaymentTypesDB(activeOnly = false, tenantId)`: `activeOnly` is a `bool` parameter of `SettingsService.PaymentTypes`; a caller that passes `undefined`, and so gets the default, is written as passing `false`.
- `cartItems` that is missing or not an array, and `addons_ids` holding anything but integers: the cart is a sequence of `CartItem`.
- Json.Parse: reads only the integer arrays `JSON.stringify` writes (no spaces, exponents or other values), which is all the order ever stores.

## Findings

| source | as written | input that shows it | evidently intended | confidence | as-written member | corrected member |
|---|---|---|---|---|---|---|
| src/services/inventory.service.js:221-234 | the balance UPDATE's affected-row count is never checked, so a ledger write for an unknown item commits a movement and moves no balance | a restock of item 1 before any item exists; item 1 is created later with balance 0 and a ledger sum of 5 (a restock of another tenant's item is stored the same way, with no balance moved) | roll back, and reject as not found, when the UPDATE hits no row | not executed | InventoryService.OrphanRestockIsAdopted | InventoryService.WriteLedgerChecked |
| src/services/inventory.service.js:142-167 | the query has one placeholder, `i.tenant_id = ?`, and receives `[id, tenantId]`, so the item id is taken as the tenant | tenant 2 asks for item 1 and gets tenant 1's item 2 | `WHERE i.id = ? AND i.tenant_id = ?` | not executed | InventoryService.InventoryItemAsWrittenCrossesTenants | InventoryService.InventoryItemByIdFinds |
| src/controllers/menu_item.controller.js:326 | five arguments are passed to the four-parameter `updateMenuItemAddonDB`, so `netPrice` becomes the tenant | tenant 1 sends `netPrice: 2` for addon 7 of item 3 and renames tenant 2's addon | pass the user's tenant as the fourth argument | not executed | MenuItemController.AddonUpdateAsWrittenCrossesTenants | MenuItemController.AddonUpdateStaysInTenant |
| src/services/settings.service.js:377-389 | the link DELETE is `WHERE tax_id = ?` with no tenant, and runs even when the tax UPDATE hit nothing | tenant 1 updates tax 5 of tenant 2; tenant 2's link of tax 5 to group 9 is deleted | delete the links of that tax in the caller's tenant only, and touch no link, rejecting as not found, when the UPDATE hits no tax of the caller's | not executed | SettingsService.UpdateTaxDropsOtherTenantsLink | SettingsService.UpdateTaxInTenant |
| src/services/settings.service.js:297-319 | `JSON_ARRAYAGG` over the LEFT JOINs is never NULL, so the fallback to `[]` never applies | a tax group no link names is listed with taxes `[{id: null, title: null, rate: null, type: null}]` | list only linked taxes, and `[]` for a group without any | not executed | SettingsService.GroupWithoutLinksListsNullTax | SettingsService.TaxGroupsWithTaxes |
