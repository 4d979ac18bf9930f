/**
 * src/services/menu_item.service.js: tenant-scoped maintenance of menu items, their
 * addons and their variants, and the SELECTs that read them back. Every write is one
 * statement (statement 0), so a write either happens whole or not at all; none of
 * them looks at the affected-row count.
 */
module MenuItemService {
  import opened Js
  import opened Rows
  import opened Schema

  // ---------------------------------------------------------------------------
  // WHERE conditions and SET clauses
  // ---------------------------------------------------------------------------

  /** `WHERE id = ? AND tenant_id = ?` on `menu_items`. */
  function MenuItemAt(id: int, tenantId: int): MenuItem -> bool
  {
    (r: MenuItem) => r.id == id && r.tenantId == tenantId
  }

  /** `WHERE tenant_id = ?` on `menu_items`. */
  function MenuItemOfTenant(tenantId: int): MenuItem -> bool
  {
    (r: MenuItem) => r.tenantId == tenantId
  }

  /** `SET title = ?, net_price = ?, tax_group_id = ?, category = ?` */
  function SetMenuItemDetails(title: string, netPrice: int, taxGroupId: Option<int>, categoryId: Option<int>)
    : MenuItem -> MenuItem
  {
    (r: MenuItem) => r.(title := title, netPrice := netPrice, taxGroupId := taxGroupId, category := categoryId)
  }

  /** `SET image = ?` */
  function SetMenuItemImage(image: Option<string>): MenuItem -> MenuItem
  {
    (r: MenuItem) => r.(image := image)
  }

  /**
   * `WHERE id = ? AND item_id = ? AND tenant_id = ?` on `menu_item_addons`, with the
   * tenant slot holding whatever value is bound to it: a NULL there matches no row.
   */
  function AddonAt(addonId: int, itemId: int, tenantSlot: Option<int>): Addon -> bool
  {
    (r: Addon) => r.id == addonId && r.itemId == itemId && tenantSlot == Some(r.tenantId)
  }

  /** `WHERE item_id = ? AND id = ? AND tenant_id = ?` on `menu_item_variants`. */
  function VariantAt(itemId: int, variantId: int, tenantId: int): Variant -> bool
  {
    (r: Variant) => r.itemId == itemId && r.id == variantId && r.tenantId == tenantId
  }

  /** `SET title = ?` on an addon. */
  function SetAddonTitle(title: string): Addon -> Addon
  {
    (r: Addon) => r.(title := title)
  }

  /** `SET title = ?, net_price = ?` on a variant. */
  function SetVariantDetails(title: string, netPrice: Option<int>): Variant -> Variant
  {
    (r: Variant) => r.(title := title, netPrice := netPrice)
  }

  // ---------------------------------------------------------------------------
  // Menu items
  // ---------------------------------------------------------------------------

  /** `addMenuItemDB`: one INSERT; resolves to the new row's insert id, above every existing id. */
  method AddMenuItem(db: Database, title: string, netPrice: int, taxGroupId: Option<int>, categoryId: Option<int>,
                     tenantId: int, faults: set<nat>)
    returns (r: Outcome<nat>)
    requires db.MenuValid()
    modifies db`menuItems, db`nextMenuItemId
    ensures db.MenuValid()
    ensures db.nextMenuItemId == old(db.nextMenuItemId) + (if 0 in faults then 0 else 1)
    ensures r.Resolved? <==> 0 !in faults
    ensures r.Resolved? ==>
      && r.value == old(db.nextMenuItemId)
      && (forall k :: 0 <= k < |old(db.menuItems)| ==> old(db.menuItems)[k].id < r.value)
      && db.menuItems == old(db.menuItems) + [MenuItem(r.value, title, netPrice, taxGroupId, categoryId, None, tenantId)]
    ensures r.Rejected? ==> r.error == StoreError(0) && db.menuItems == old(db.menuItems)
  {
    if 0 in faults {
      return Rejected(StoreError(0));
    }
    var id := db.nextMenuItemId;
    var row := MenuItem(id, title, netPrice, taxGroupId, categoryId, None, tenantId);
    InsertKeepsAutoIncrement(db.menuItems, MenuItemKey, id, row);
    db.menuItems := db.menuItems + [row];
    db.nextMenuItemId := id + 1;
    r := Resolved(id);
  }

  /** `updateMenuItemDB`: title, net price, tax group and category of the row matching id and tenant. */
  method UpdateMenuItem(db: Database, id: int, title: string, netPrice: int, taxGroupId: Option<int>,
                        categoryId: Option<int>, tenantId: int, faults: set<nat>)
    returns (r: Outcome<()>)
    requires db.MenuValid()
    modifies db`menuItems
    ensures db.MenuValid()
    ensures r.Resolved? <==> 0 !in faults
    ensures r.Resolved? ==>
      db.menuItems == UpdateWhere(old(db.menuItems), MenuItemAt(id, tenantId), SetMenuItemDetails(title, netPrice, taxGroupId, categoryId))
    ensures r.Rejected? ==> r.error == StoreError(0) && db.menuItems == old(db.menuItems)
  {
    if 0 in faults {
      return Rejected(StoreError(0));
    }
    UpdateKeepsAutoIncrement(db.menuItems, MenuItemKey, db.nextMenuItemId, MenuItemAt(id, tenantId),
                             SetMenuItemDetails(title, netPrice, taxGroupId, categoryId));
    db.menuItems := UpdateWhere(db.menuItems, MenuItemAt(id, tenantId), SetMenuItemDetails(title, netPrice, taxGroupId, categoryId));
    r := Resolved(());
  }

  /** `updateMenuItemImageDB`: the image of the row matching id and tenant. */
  method UpdateMenuItemImage(db: Database, id: int, image: Option<string>, tenantId: int, faults: set<nat>)
    returns (r: Outcome<()>)
    requires db.MenuValid()
    modifies db`menuItems
    ensures db.MenuValid()
    ensures r.Resolved? <==> 0 !in faults
    ensures r.Resolved? ==> db.menuItems == UpdateWhere(old(db.menuItems), MenuItemAt(id, tenantId), SetMenuItemImage(image))
    ensures r.Rejected? ==> r.error == StoreError(0) && db.menuItems == old(db.menuItems)
  {
    if 0 in faults {
      return Rejected(StoreError(0));
    }
    UpdateKeepsAutoIncrement(db.menuItems, MenuItemKey, db.nextMenuItemId, MenuItemAt(id, tenantId), SetMenuItemImage(image));
    db.menuItems := UpdateWhere(db.menuItems, MenuItemAt(id, tenantId), SetMenuItemImage(image));
    r := Resolved(());
  }

  /** `deleteMenuItemDB`: removes the row matching id and tenant; its addons and variants stay. */
  method DeleteMenuItem(db: Database, id: int, tenantId: int, faults: set<nat>)
    returns (r: Outcome<()>)
    requires db.MenuValid()
    modifies db`menuItems
    ensures db.MenuValid()
    ensures r.Resolved? <==> 0 !in faults
    ensures r.Resolved? ==> db.menuItems == DeleteWhere(old(db.menuItems), MenuItemAt(id, tenantId))
    ensures r.Rejected? ==> r.error == StoreError(0) && db.menuItems == old(db.menuItems)
  {
    if 0 in faults {
      return Rejected(StoreError(0));
    }
    DeleteKeepsAutoIncrement(db.menuItems, MenuItemKey, db.nextMenuItemId, MenuItemAt(id, tenantId));
    db.menuItems := DeleteWhere(db.menuItems, MenuItemAt(id, tenantId));
    r := Resolved(());
  }

  /**
   * The menu-item writes are tenant-scoped: whatever `updateMenuItemDB`,
   * `updateMenuItemImageDB` or `deleteMenuItemDB` does for tenant `tenantId`, every other
   * tenant's menu items are exactly as before.
   */
  lemma MenuItemWritesIsolateTenants(items: seq<MenuItem>, id: int, tenantId: int, other: int, title: string,
                                     netPrice: int, taxGroupId: Option<int>, categoryId: Option<int>, image: Option<string>)
    requires other != tenantId
    ensures Filter(UpdateWhere(items, MenuItemAt(id, tenantId), SetMenuItemDetails(title, netPrice, taxGroupId, categoryId)),
                   MenuItemOfTenant(other)) == Filter(items, MenuItemOfTenant(other))
    ensures Filter(UpdateWhere(items, MenuItemAt(id, tenantId), SetMenuItemImage(image)), MenuItemOfTenant(other))
            == Filter(items, MenuItemOfTenant(other))
    ensures Filter(DeleteWhere(items, MenuItemAt(id, tenantId)), MenuItemOfTenant(other)) == Filter(items, MenuItemOfTenant(other))
  {
    UpdateOutsideView(items, MenuItemAt(id, tenantId), SetMenuItemDetails(title, netPrice, taxGroupId, categoryId), MenuItemOfTenant(other));
    UpdateOutsideView(items, MenuItemAt(id, tenantId), SetMenuItemImage(image), MenuItemOfTenant(other));
    DeleteOutsideView(items, MenuItemAt(id, tenantId), MenuItemOfTenant(other));
  }

  // ---------------------------------------------------------------------------
  // Addons
  // ---------------------------------------------------------------------------

  /** `WHERE tenant_id = ?` on addons. */
  function AddonOfTenant(tenantId: int): Addon -> bool
  {
    (r: Addon) => r.tenantId == tenantId
  }

  /** `addMenuItemAddonDB`: one INSERT; resolves to the new addon's insert id. */
  method AddMenuItemAddon(db: Database, itemId: int, title: string, netPrice: Option<int>, tenantId: int, faults: set<nat>)
    returns (r: Outcome<nat>)
    requires db.MenuValid()
    modifies db`addons, db`nextAddonId
    ensures db.MenuValid()
    ensures db.nextAddonId == old(db.nextAddonId) + (if 0 in faults then 0 else 1)
    ensures r.Resolved? <==> 0 !in faults
    ensures r.Resolved? ==>
      && r.value == old(db.nextAddonId)
      && (forall k :: 0 <= k < |old(db.addons)| ==> old(db.addons)[k].id < r.value)
      && db.addons == old(db.addons) + [Addon(r.value, itemId, title, netPrice, tenantId)]
    ensures r.Rejected? ==> r.error == StoreError(0) && db.addons == old(db.addons)
  {
    if 0 in faults {
      return Rejected(StoreError(0));
    }
    var id := db.nextAddonId;
    var row := Addon(id, itemId, title, netPrice, tenantId);
    InsertKeepsAutoIncrement(db.addons, AddonKey, id, row);
    db.addons := db.addons + [row];
    db.nextAddonId := id + 1;
    r := Resolved(id);
  }

  /**
   * `updateMenuItemAddonDB(itemId, addonId, title, tenantId)`: sets only the title of the
   * addon matching id, item and the value bound to the tenant slot. The slot is an
   * `Option`, because the handler binds to it whatever it passes in fourth place.
   */
  method UpdateMenuItemAddon(db: Database, itemId: int, addonId: int, title: string, tenantSlot: Option<int>,
                             faults: set<nat>)
    returns (r: Outcome<()>)
    requires db.MenuValid()
    modifies db`addons
    ensures db.MenuValid()
    ensures r.Resolved? <==> 0 !in faults
    ensures r.Resolved? ==> db.addons == UpdateWhere(old(db.addons), AddonAt(addonId, itemId, tenantSlot), SetAddonTitle(title))
    ensures r.Rejected? ==> r.error == StoreError(0) && db.addons == old(db.addons)
  {
    if 0 in faults {
      return Rejected(StoreError(0));
    }
    UpdateKeepsAutoIncrement(db.addons, AddonKey, db.nextAddonId, AddonAt(addonId, itemId, tenantSlot), SetAddonTitle(title));
    db.addons := UpdateWhere(db.addons, AddonAt(addonId, itemId, tenantSlot), SetAddonTitle(title));
    r := Resolved(());
  }

  /** `deleteMenuItemAddonDB`: removes the addon matching id, item and tenant. */
  method DeleteMenuItemAddon(db: Database, itemId: int, addonId: int, tenantId: int, faults: set<nat>)
    returns (r: Outcome<()>)
    requires db.MenuValid()
    modifies db`addons
    ensures db.MenuValid()
    ensures r.Resolved? <==> 0 !in faults
    ensures r.Resolved? ==> db.addons == DeleteWhere(old(db.addons), AddonAt(addonId, itemId, Some(tenantId)))
    ensures r.Rejected? ==> r.error == StoreError(0) && db.addons == old(db.addons)
  {
    if 0 in faults {
      return Rejected(StoreError(0));
    }
    DeleteKeepsAutoIncrement(db.addons, AddonKey, db.nextAddonId, AddonAt(addonId, itemId, Some(tenantId)));
    db.addons := DeleteWhere(db.addons, AddonAt(addonId, itemId, Some(tenantId)));
    r := Resolved(());
  }

  /**
   * With the caller's own tenant bound, addon writes are tenant-scoped: every other
   * tenant's addons are exactly as before, and the only row that can change carries the
   * given id and item, and keeps its price.
   */
  lemma AddonWritesIsolateTenants(addons: seq<Addon>, itemId: int, addonId: int, title: string, tenantId: int, other: int)
    requires other != tenantId
    ensures Filter(UpdateWhere(addons, AddonAt(addonId, itemId, Some(tenantId)), SetAddonTitle(title)), AddonOfTenant(other))
            == Filter(addons, AddonOfTenant(other))
    ensures Filter(DeleteWhere(addons, AddonAt(addonId, itemId, Some(tenantId))), AddonOfTenant(other))
            == Filter(addons, AddonOfTenant(other))
    ensures var r := UpdateWhere(addons, AddonAt(addonId, itemId, Some(tenantId)), SetAddonTitle(title));
      forall k :: 0 <= k < |addons| ==>
        (r[k] == addons[k] || (addons[k].id == addonId && addons[k].itemId == itemId && r[k] == addons[k].(title := title)))
  {
    UpdateOutsideView(addons, AddonAt(addonId, itemId, Some(tenantId)), SetAddonTitle(title), AddonOfTenant(other));
    DeleteOutsideView(addons, AddonAt(addonId, itemId, Some(tenantId)), AddonOfTenant(other));
  }

  /** `getMenuItemAddonsDB`: exactly the addons of item `itemId` in tenant `tenantId`, in table order. */
  function MenuItemAddons(addons: seq<Addon>, itemId: int, tenantId: int): (r: seq<Addon>)
    ensures forall a :: a in r <==> a in addons && a.itemId == itemId && a.tenantId == tenantId
  {
    Filter(addons, (a: Addon) => a.itemId == itemId && a.tenantId == tenantId)
  }

  /** `getAllAddonsDB`: the tenant's addons, in table order. */
  function AllAddons(addons: seq<Addon>, tenantId: int): (r: seq<Addon>)
    ensures forall a :: a in r <==> a in addons && a.tenantId == tenantId
  {
    Filter(addons, AddonOfTenant(tenantId))
  }

  // ---------------------------------------------------------------------------
  // Variants
  // ---------------------------------------------------------------------------

  /** `WHERE tenant_id = ?` on variants. */
  function VariantOfTenant(tenantId: int): Variant -> bool
  {
    (r: Variant) => r.tenantId == tenantId
  }

  /** `addMenuItemVariantDB`: one INSERT; resolves to the new variant's insert id. */
  method AddMenuItemVariant(db: Database, itemId: int, title: string, netPrice: Option<int>, tenantId: int, faults: set<nat>)
    returns (r: Outcome<nat>)
    requires db.MenuValid()
    modifies db`variants, db`nextVariantId
    ensures db.MenuValid()
    ensures db.nextVariantId == old(db.nextVariantId) + (if 0 in faults then 0 else 1)
    ensures r.Resolved? <==> 0 !in faults
    ensures r.Resolved? ==>
      && r.value == old(db.nextVariantId)
      && (forall k :: 0 <= k < |old(db.variants)| ==> old(db.variants)[k].id < r.value)
      && db.variants == old(db.variants) + [Variant(r.value, itemId, title, netPrice, tenantId)]
    ensures r.Rejected? ==> r.error == StoreError(0) && db.variants == old(db.variants)
  {
    if 0 in faults {
      return Rejected(StoreError(0));
    }
    var id := db.nextVariantId;
    var row := Variant(id, itemId, title, netPrice, tenantId);
    InsertKeepsAutoIncrement(db.variants, VariantKey, id, row);
    db.variants := db.variants + [row];
    db.nextVariantId := id + 1;
    r := Resolved(id);
  }

  /** `updateMenuItemVariantDB`: title and net price of the variant matching item, id and tenant. */
  method UpdateMenuItemVariant(db: Database, itemId: int, variantId: int, title: string, netPrice: Option<int>,
                               tenantId: int, faults: set<nat>)
    returns (r: Outcome<()>)
    requires db.MenuValid()
    modifies db`variants
    ensures db.MenuValid()
    ensures r.Resolved? <==> 0 !in faults
    ensures r.Resolved? ==>
      db.variants == UpdateWhere(old(db.variants), VariantAt(itemId, variantId, tenantId), SetVariantDetails(title, netPrice))
    ensures r.Rejected? ==> r.error == StoreError(0) && db.variants == old(db.variants)
  {
    if 0 in faults {
      return Rejected(StoreError(0));
    }
    UpdateKeepsAutoIncrement(db.variants, VariantKey, db.nextVariantId, VariantAt(itemId, variantId, tenantId),
                             SetVariantDetails(title, netPrice));
    db.variants := UpdateWhere(db.variants, VariantAt(itemId, variantId, tenantId), SetVariantDetails(title, netPrice));
    r := Resolved(());
  }

  /** `deleteMenuItemVariantDB`: removes the variant matching item, id and tenant. */
  method DeleteMenuItemVariant(db: Database, itemId: int, variantId: int, tenantId: int, faults: set<nat>)
    returns (r: Outcome<()>)
    requires db.MenuValid()
    modifies db`variants
    ensures db.MenuValid()
    ensures r.Resolved? <==> 0 !in faults
    ensures r.Resolved? ==> db.variants == DeleteWhere(old(db.variants), VariantAt(itemId, variantId, tenantId))
    ensures r.Rejected? ==> r.error == StoreError(0) && db.variants == old(db.variants)
  {
    if 0 in faults {
      return Rejected(StoreError(0));
    }
    DeleteKeepsAutoIncrement(db.variants, VariantKey, db.nextVariantId, VariantAt(itemId, variantId, tenantId));
    db.variants := DeleteWhere(db.variants, VariantAt(itemId, variantId, tenantId));
    r := Resolved(());
  }

  /** Variant writes are tenant-scoped: every other tenant's variants are exactly as before. */
  lemma VariantWritesIsolateTenants(variants: seq<Variant>, itemId: int, variantId: int, title: string,
                                    netPrice: Option<int>, tenantId: int, other: int)
    requires other != tenantId
    ensures Filter(UpdateWhere(variants, VariantAt(itemId, variantId, tenantId), SetVariantDetails(title, netPrice)),
                   VariantOfTenant(other)) == Filter(variants, VariantOfTenant(other))
    ensures Filter(DeleteWhere(variants, VariantAt(itemId, variantId, tenantId)), VariantOfTenant(other))
            == Filter(variants, VariantOfTenant(other))
  {
    UpdateOutsideView(variants, VariantAt(itemId, variantId, tenantId), SetVariantDetails(title, netPrice), VariantOfTenant(other));
    DeleteOutsideView(variants, VariantAt(itemId, variantId, tenantId), VariantOfTenant(other));
  }

  /** `getMenuItemVariantsDB`: exactly the variants of item `itemId` in tenant `tenantId`, in table order. */
  function MenuItemVariants(variants: seq<Variant>, itemId: int, tenantId: int): (r: seq<Variant>)
    ensures forall v :: v in r <==> v in variants && v.itemId == itemId && v.tenantId == tenantId
  {
    Filter(variants, (v: Variant) => v.itemId == itemId && v.tenantId == tenantId)
  }

  /** `getAllVariantsDB`: the tenant's variants, in table order. */
  function AllVariants(variants: seq<Variant>, tenantId: int): (r: seq<Variant>)
    ensures forall v :: v in r <==> v in variants && v.tenantId == tenantId
  {
    Filter(variants, VariantOfTenant(tenantId))
  }

  // ---------------------------------------------------------------------------
  // Reading menu items
  // ---------------------------------------------------------------------------

  /** `ON i.tax_group_id = t.id` */
  function TaxGroupOf(): (MenuItem, TaxGroup) -> bool
  {
    (i: MenuItem, t: TaxGroup) => i.taxGroupId == Some(t.id)
  }

  /** `ON i.category = c.id`, on the rows of the first join. */
  function CategoryOf(): ((MenuItem, Option<TaxGroup>), Category) -> bool
  {
    (p: (MenuItem, Option<TaxGroup>), c: Category) => p.0.category == Some(c.id)
  }

  /** A row of the menu-item SELECT. */
  datatype MenuItemRow = MenuItemRow(
    id: nat, title: string, netPrice: int, taxGroupId: Option<int>, taxGroupTitle: Option<string>,
    categoryId: Option<int>, categoryTitle: Option<string>, image: Option<string>)

  function MenuItemRowOf(p: ((MenuItem, Option<TaxGroup>), Option<Category>)): MenuItemRow
  {
    var i, t, c := p.0.0, p.0.1, p.1;
    MenuItemRow(i.id, i.title, i.netPrice, i.taxGroupId, if t.Some? then Some(t.value.title) else None,
                i.category, if c.Some? then Some(c.value.title) else None, i.image)
  }

  /** The two LEFT JOINs of the menu-item SELECT, followed by a WHERE on the menu item. */
  function JoinedMenuItems(items: seq<MenuItem>, taxGroups: seq<TaxGroup>, categories: seq<Category>,
                           keep: MenuItem -> bool): seq<MenuItemRow>
  {
    Project(Filter(LeftJoin(LeftJoin(items, taxGroups, TaxGroupOf()), categories, CategoryOf()), OnLeft(OnLeft(keep))),
            MenuItemRowOf)
  }

  /** `getAllMenuItemsDB`: `WHERE i.tenant_id = ?`. */
  function AllMenuItems(items: seq<MenuItem>, taxGroups: seq<TaxGroup>, categories: seq<Category>, tenantId: int)
    : seq<MenuItemRow>
  {
    JoinedMenuItems(items, taxGroups, categories, MenuItemOfTenant(tenantId))
  }

  /** `getMenuItemDB`: `WHERE i.id = ? AND i.tenant_id = ?`, first row. */
  function MenuItemById(items: seq<MenuItem>, taxGroups: seq<TaxGroup>, categories: seq<Category>, id: int, tenantId: int)
    : Option<MenuItemRow>
  {
    First(JoinedMenuItems(items, taxGroups, categories, MenuItemAt(id, tenantId)))
  }

  /** The row the SELECT shows for one menu item, from its tax group and category looked up by id. */
  function ExpectedMenuItemRow(i: MenuItem, taxGroups: seq<TaxGroup>, categories: seq<Category>): MenuItemRow
  {
    MenuItemRowOf(((i, FindKey(taxGroups, TaxGroupKey, i.taxGroupId)), FindKey(categories, CategoryKey, i.category)))
  }

  /**
   * Because both joins are LEFT JOINs on primary keys, the SELECT yields exactly one row
   * per menu item the WHERE keeps, in table order: an item whose tax group or category
   * is missing still appears, with NULL titles.
   */
  lemma JoinedMenuItemsOnePerItem(items: seq<MenuItem>, taxGroups: seq<TaxGroup>, categories: seq<Category>,
                                  keep: MenuItem -> bool)
    requires KeysIncreasing(taxGroups, TaxGroupKey) && KeysIncreasing(categories, CategoryKey)
    ensures var mine := Filter(items, keep);
      var rows := JoinedMenuItems(items, taxGroups, categories, keep);
      && |rows| == |mine|
      && forall k :: 0 <= k < |mine| ==> rows[k] == ExpectedMenuItemRow(mine[k], taxGroups, categories)
  {
    var once := LeftJoin(items, taxGroups, TaxGroupOf());
    FilterLeftJoin(once, categories, CategoryOf(), OnLeft(keep));
    FilterLeftJoin(items, taxGroups, TaxGroupOf(), keep);
    var mine := Filter(items, keep);
    KeyJoin(mine, taxGroups, TaxGroupKey, TaxGroupOf(), (i: MenuItem) => i.taxGroupId);
    var mineJoined := LeftJoin(mine, taxGroups, TaxGroupOf());
    KeyJoin(mineJoined, categories, CategoryKey, CategoryOf(), (p: (MenuItem, Option<TaxGroup>)) => p.0.category);
  }

  /** `getAllMenuItemsDB` lists each of the tenant's menu items once, in table order. */
  lemma AllMenuItemsOnePerItem(items: seq<MenuItem>, taxGroups: seq<TaxGroup>, categories: seq<Category>, tenantId: int)
    requires KeysIncreasing(taxGroups, TaxGroupKey) && KeysIncreasing(categories, CategoryKey)
    ensures var mine := Filter(items, MenuItemOfTenant(tenantId));
      var rows := AllMenuItems(items, taxGroups, categories, tenantId);
      && |rows| == |mine|
      && forall k :: 0 <= k < |mine| ==> rows[k] == ExpectedMenuItemRow(mine[k], taxGroups, categories)
  {
    JoinedMenuItemsOnePerItem(items, taxGroups, categories, MenuItemOfTenant(tenantId));
  }

  /**
   * Neither `ON i.tax_group_id = tg.id` nor `ON i.category = c.id` compares tenants: a menu
   * item of tenant 1 that names tenant 2's tax group and category is listed with their titles.
   */
  lemma MenuJoinsIgnoreTenant()
    ensures AllMenuItems([MenuItem(1, "Soup", 5, Some(3), Some(6), None, 1)], [TaxGroup(3, "Food", 2)],
                         [Category(6, "Starters", 2)], 1)
            == [MenuItemRow(1, "Soup", 5, Some(3), Some("Food"), Some(6), Some("Starters"), None)]
  {
    var item, group, category := MenuItem(1, "Soup", 5, Some(3), Some(6), None, 1), TaxGroup(3, "Food", 2), Category(6, "Starters", 2);
    assert LeftJoin([item], [group], TaxGroupOf()) == [(item, Some(group))];
    assert LeftJoin([(item, Some(group))], [category], CategoryOf()) == [((item, Some(group)), Some(category))];
  }

  /** `getMenuItemDB` finds the tenant's item with that id exactly when it exists. */
  lemma MenuItemByIdFinds(items: seq<MenuItem>, taxGroups: seq<TaxGroup>, categories: seq<Category>, id: int, tenantId: int)
    requires KeysIncreasing(items, MenuItemKey)
    requires KeysIncreasing(taxGroups, TaxGroupKey) && KeysIncreasing(categories, CategoryKey)
    ensures MenuItemById(items, taxGroups, categories, id, tenantId).None? <==>
      forall k :: 0 <= k < |items| ==> !(items[k].id == id && items[k].tenantId == tenantId)
    ensures forall k :: 0 <= k < |items| && items[k].id == id && items[k].tenantId == tenantId ==>
      MenuItemById(items, taxGroups, categories, id, tenantId) == Some(ExpectedMenuItemRow(items[k], taxGroups, categories))
  {
    var mine := Filter(items, MenuItemAt(id, tenantId));
    JoinedMenuItemsOnePerItem(items, taxGroups, categories, MenuItemAt(id, tenantId));
    PinnedKeyFiltersAtMostOne(items, MenuItemKey, MenuItemAt(id, tenantId));
    forall k | 0 <= k < |items| && items[k].id == id && items[k].tenantId == tenantId
      ensures MenuItemById(items, taxGroups, categories, id, tenantId) == Some(ExpectedMenuItemRow(items[k], taxGroups, categories))
    {
      assert items[k] in mine;
      assert mine == [mine[0]];
    }
    if mine != [] {
      assert mine[0] in items;
    }
  }
}
