/**
 * src/controllers/menu_item.controller.js: the menu handlers. The write handlers check
 * the body fields for truthiness, call the service in the user's tenant and answer
 * 200, 400 or 500; the readers group addons and variants under their menu items in
 * `getAllMenuItems`, merge them in `getMenuItem`, and answer 404 on an empty addon or
 * variant list.
 */
module MenuItemController {
  import opened Js
  import opened Rows
  import opened Schema
  import opened MenuItemService
  import opened Http

  // ---------------------------------------------------------------------------
  // Guards
  // ---------------------------------------------------------------------------

  /** The body of the menu-item, addon and variant writes. */
  datatype MenuBody = MenuBody(title: Option<string>, netPrice: Option<int>, taxGroupId: Option<int>,
                               categoryId: Option<int>)

  /** `addMenuItem`, `updateMenuItem` and `addMenuItemAddon` go on only when `title` and `netPrice` are truthy. */
  predicate TitleAndPriceGiven(b: MenuBody)
  {
    TruthyString(b.title) && TruthyInt(b.netPrice)
  }

  /** `updateMenuItemAddon`, `addMenuItemVariant` and `updateMenuItemVariant` go on only when `title` is truthy. */
  predicate TitleGiven(b: MenuBody)
  {
    TruthyString(b.title)
  }

  const AddMissing := "Please provide required details: title, net price"
  const UpdateMissing := "Please provide required details: title, price"
  const TitleMissing := "Please provide required details: title"

  /** A zero or missing price fails the price guards but not the title guards. */
  lemma PriceGuardsRefuseZero(b: MenuBody)
    requires TruthyString(b.title)
    ensures !TitleAndPriceGiven(b.(netPrice := Some(0))) && !TitleAndPriceGiven(b.(netPrice := None))
    ensures TitleGiven(b.(netPrice := Some(0))) && TitleGiven(b.(netPrice := None))
  {
  }

  // ---------------------------------------------------------------------------
  // Write handlers
  // ---------------------------------------------------------------------------

  /**
   * `addMenuItem`: 400 without touching the store unless `title` and `netPrice` are
   * truthy; otherwise the insert in the user's tenant, answered 200 with the new id, or
   * 500 exactly when the INSERT is refused.
   */
  method AddMenuItem(db: Database, user: User, body: MenuBody, faults: set<nat>) returns (r: Reply)
    requires db.MenuValid()
    modifies db`menuItems, db`nextMenuItemId
    ensures db.MenuValid()
    ensures db.nextMenuItemId == old(db.nextMenuItemId) + (if TitleAndPriceGiven(body) && 0 !in faults then 1 else 0)
    ensures r.status == 200 || r.status == 400 || r.status == 500
    ensures r.status == 400 <==> !TitleAndPriceGiven(body)
    ensures r.status == 400 ==> r.message == AddMissing
    ensures r.status == 500 <==> TitleAndPriceGiven(body) && 0 in faults
    ensures r.status == 500 ==> r.message == ServerError
    ensures r.status == 200 ==>
      && r == Reply(200, "Menu Item Added.", Some(old(db.nextMenuItemId)))
      && db.menuItems == old(db.menuItems) +
           [MenuItem(old(db.nextMenuItemId), body.title.value, body.netPrice.value, body.taxGroupId, body.categoryId,
                     None, user.tenantId)]
    ensures r.status != 200 ==> db.menuItems == old(db.menuItems)
  {
    if !TitleAndPriceGiven(body) {
      return Reply(400, AddMissing, None);
    }
    var out := MenuItemService.AddMenuItem(db, body.title.value, body.netPrice.value, body.taxGroupId, body.categoryId,
                                           user.tenantId, faults);
    match out
    case Resolved(id) => r := Reply(200, "Menu Item Added.", Some(id));
    case Rejected(_) => r := Reply(500, ServerError, None);
  }

  /** `updateMenuItem`: the same guard with its own message, then the update of the user's item `id`. */
  method UpdateMenuItem(db: Database, user: User, id: int, body: MenuBody, faults: set<nat>) returns (r: Reply)
    requires db.MenuValid()
    modifies db`menuItems
    ensures db.MenuValid()
    ensures r.status == 200 || r.status == 400 || r.status == 500
    ensures r.status == 400 <==> !TitleAndPriceGiven(body)
    ensures r.status == 400 ==> r.message == UpdateMissing
    ensures r.status == 500 <==> TitleAndPriceGiven(body) && 0 in faults
    ensures r.status == 500 ==> r.message == ServerError
    ensures r.status == 200 ==>
      && r == Reply(200, "Menu Item Updated.", None)
      && db.menuItems == UpdateWhere(old(db.menuItems), MenuItemAt(id, user.tenantId),
           SetMenuItemDetails(body.title.value, body.netPrice.value, body.taxGroupId, body.categoryId))
    ensures r.status != 200 ==> db.menuItems == old(db.menuItems)
  {
    if !TitleAndPriceGiven(body) {
      return Reply(400, UpdateMissing, None);
    }
    var out := MenuItemService.UpdateMenuItem(db, id, body.title.value, body.netPrice.value, body.taxGroupId,
                                              body.categoryId, user.tenantId, faults);
    match out
    case Resolved(_) => r := Reply(200, "Menu Item Updated.", None);
    case Rejected(_) => r := Reply(500, ServerError, None);
  }

  /** `addMenuItemAddon`: title and price required; the addon of item `itemId` in the user's tenant. */
  method AddMenuItemAddon(db: Database, user: User, itemId: int, body: MenuBody, faults: set<nat>) returns (r: Reply)
    requires db.MenuValid()
    modifies db`addons, db`nextAddonId
    ensures db.MenuValid()
    ensures db.nextAddonId == old(db.nextAddonId) + (if TitleAndPriceGiven(body) && 0 !in faults then 1 else 0)
    ensures r.status == 200 || r.status == 400 || r.status == 500
    ensures r.status == 400 <==> !TitleAndPriceGiven(body)
    ensures r.status == 400 ==> r.message == AddMissing
    ensures r.status == 500 <==> TitleAndPriceGiven(body) && 0 in faults
    ensures r.status == 500 ==> r.message == ServerError
    ensures r.status == 200 ==>
      && r == Reply(200, "Menu Item Addon Added.", Some(old(db.nextAddonId)))
      && db.addons == old(db.addons) + [Addon(old(db.nextAddonId), itemId, body.title.value, body.netPrice, user.tenantId)]
    ensures r.status != 200 ==> db.addons == old(db.addons)
  {
    if !TitleAndPriceGiven(body) {
      return Reply(400, AddMissing, None);
    }
    var out := MenuItemService.AddMenuItemAddon(db, itemId, body.title.value, body.netPrice, user.tenantId, faults);
    match out
    case Resolved(id) => r := Reply(200, "Menu Item Addon Added.", Some(id));
    case Rejected(_) => r := Reply(500, ServerError, None);
  }

  /**
   * `updateMenuItemAddon` as written: only the title is required, and the service
   * receives the arguments `AddonUpdateCallAsWritten` gives, with `netPrice` in the
   * tenant slot.
   */
  method UpdateMenuItemAddon(db: Database, user: User, itemId: int, addonId: int, body: MenuBody, faults: set<nat>)
    returns (r: Reply)
    requires db.MenuValid()
    modifies db`addons
    ensures db.MenuValid()
    ensures r.status == 200 || r.status == 400 || r.status == 500
    ensures r.status == 400 <==> !TitleGiven(body)
    ensures r.status == 400 ==> r.message == TitleMissing
    ensures r.status == 500 <==> TitleGiven(body) && 0 in faults
    ensures r.status == 500 ==> r.message == ServerError
    ensures r.status == 200 ==>
      && r == Reply(200, "Menu Item Addon Updated.", None)
      && db.addons == AddonsAfter(old(db.addons), AddonUpdateCallAsWritten(user, itemId, addonId, body))
    ensures r.status != 200 ==> db.addons == old(db.addons)
  {
    if !TitleGiven(body) {
      return Reply(400, TitleMissing, None);
    }
    var call := AddonUpdateCallAsWritten(user, itemId, addonId, body);
    var out := MenuItemService.UpdateMenuItemAddon(db, call.itemId, call.addonId, call.title, call.tenantSlot, faults);
    match out
    case Resolved(_) => r := Reply(200, "Menu Item Addon Updated.", None);
    case Rejected(_) => r := Reply(500, ServerError, None);
  }

  /** `addMenuItemVariant`: only the title is required; the price may be missing. */
  method AddMenuItemVariant(db: Database, user: User, itemId: int, body: MenuBody, faults: set<nat>) returns (r: Reply)
    requires db.MenuValid()
    modifies db`variants, db`nextVariantId
    ensures db.MenuValid()
    ensures db.nextVariantId == old(db.nextVariantId) + (if TitleGiven(body) && 0 !in faults then 1 else 0)
    ensures r.status == 200 || r.status == 400 || r.status == 500
    ensures r.status == 400 <==> !TitleGiven(body)
    ensures r.status == 400 ==> r.message == TitleMissing
    ensures r.status == 500 <==> TitleGiven(body) && 0 in faults
    ensures r.status == 500 ==> r.message == ServerError
    ensures r.status == 200 ==>
      && r == Reply(200, "Menu Item Variant Added.", Some(old(db.nextVariantId)))
      && db.variants == old(db.variants) + [Variant(old(db.nextVariantId), itemId, body.title.value, body.netPrice, user.tenantId)]
    ensures r.status != 200 ==> db.variants == old(db.variants)
  {
    if !TitleGiven(body) {
      return Reply(400, TitleMissing, None);
    }
    var out := MenuItemService.AddMenuItemVariant(db, itemId, body.title.value, body.netPrice, user.tenantId, faults);
    match out
    case Resolved(id) => r := Reply(200, "Menu Item Variant Added.", Some(id));
    case Rejected(_) => r := Reply(500, ServerError, None);
  }

  /** `updateMenuItemVariant`: only the title is required; title and price of the user's variant. */
  method UpdateMenuItemVariant(db: Database, user: User, itemId: int, variantId: int, body: MenuBody, faults: set<nat>)
    returns (r: Reply)
    requires db.MenuValid()
    modifies db`variants
    ensures db.MenuValid()
    ensures r.status == 200 || r.status == 400 || r.status == 500
    ensures r.status == 400 <==> !TitleGiven(body)
    ensures r.status == 400 ==> r.message == TitleMissing
    ensures r.status == 500 <==> TitleGiven(body) && 0 in faults
    ensures r.status == 500 ==> r.message == ServerError
    ensures r.status == 200 ==>
      && r == Reply(200, "Menu Item Variant Updated.", None)
      && db.variants == UpdateWhere(old(db.variants), VariantAt(itemId, variantId, user.tenantId),
           SetVariantDetails(body.title.value, body.netPrice))
    ensures r.status != 200 ==> db.variants == old(db.variants)
  {
    if !TitleGiven(body) {
      return Reply(400, TitleMissing, None);
    }
    var out := MenuItemService.UpdateMenuItemVariant(db, itemId, variantId, body.title.value, body.netPrice,
                                                     user.tenantId, faults);
    match out
    case Resolved(_) => r := Reply(200, "Menu Item Variant Updated.", None);
    case Rejected(_) => r := Reply(500, ServerError, None);
  }

  // ---------------------------------------------------------------------------
  // getAllMenuItems
  // ---------------------------------------------------------------------------

  /** `addon => addon.item_id == item.id` */
  function AddonFor(itemId: int): Addon -> bool
  {
    (a: Addon) => a.itemId == itemId
  }

  /** `variant => variant.item_id == item.id` */
  function VariantFor(itemId: int): Variant -> bool
  {
    (v: Variant) => v.itemId == itemId
  }

  /** A menu item as `getAllMenuItems` returns it: the joined row spread, plus its addons and variants. */
  datatype MenuItemView = MenuItemView(item: MenuItemRow, addons: seq<Addon>, variants: seq<Variant>)

  function ViewOf(addons: seq<Addon>, variants: seq<Variant>): MenuItemRow -> MenuItemView
  {
    (i: MenuItemRow) => MenuItemView(i, Filter(addons, AddonFor(i.id)), Filter(variants, VariantFor(i.id)))
  }

  /** The `menuItems.map(...)` of `getAllMenuItems`. */
  function FormatMenuItems(items: seq<MenuItemRow>, addons: seq<Addon>, variants: seq<Variant>): seq<MenuItemView>
  {
    Project(items, ViewOf(addons, variants))
  }

  /**
   * The grouping keeps the menu items' count and order, and gives each item exactly the
   * addons and variants whose `item_id` is its id; an addon or variant whose item is not
   * in the list appears under no item.
   */
  lemma FormatMenuItemsGroups(items: seq<MenuItemRow>, addons: seq<Addon>, variants: seq<Variant>)
    ensures var r := FormatMenuItems(items, addons, variants);
      && |r| == |items|
      && (forall k :: 0 <= k < |r| ==> r[k].item == items[k])
      && (forall k, a :: 0 <= k < |r| ==> (a in r[k].addons <==> a in addons && a.itemId == items[k].id))
      && (forall k, v :: 0 <= k < |r| ==> (v in r[k].variants <==> v in variants && v.itemId == items[k].id))
      && (forall a, k :: a in addons && (forall j :: 0 <= j < |items| ==> items[j].id != a.itemId) && 0 <= k < |r|
            ==> a !in r[k].addons)
      && (forall v, k :: v in variants && (forall j :: 0 <= j < |items| ==> items[j].id != v.itemId) && 0 <= k < |r|
            ==> v !in r[k].variants)
  {
  }

  /** Each group lists its addons and variants in table order: with increasing ids, each group's ids increase. */
  lemma FormatMenuItemsKeepsOrder(items: seq<MenuItemRow>, addons: seq<Addon>, variants: seq<Variant>)
    requires KeysIncreasing(addons, AddonKey) && KeysIncreasing(variants, VariantKey)
    ensures var r := FormatMenuItems(items, addons, variants);
      forall k :: 0 <= k < |r| ==> KeysIncreasing(r[k].addons, AddonKey) && KeysIncreasing(r[k].variants, VariantKey)
  {
    var r := FormatMenuItems(items, addons, variants);
    forall k | 0 <= k < |r|
      ensures KeysIncreasing(r[k].addons, AddonKey) && KeysIncreasing(r[k].variants, VariantKey)
    {
      FilterKeepsIncreasing(addons, AddonKey, AddonFor(items[k].id));
      FilterKeepsIncreasing(variants, VariantKey, VariantFor(items[k].id));
    }
  }

  /** `getAllMenuItems`: the three tenant-scoped queries, grouped; 500 when any of them fails. */
  function GetAllMenuItems(items: seq<MenuItem>, taxGroups: seq<TaxGroup>, categories: seq<Category>,
                           addons: seq<Addon>, variants: seq<Variant>, user: User, queryFails: bool)
    : Response<seq<MenuItemView>>
  {
    if queryFails then Fail(500, ServerError)
    else Ok(FormatMenuItems(AllMenuItems(items, taxGroups, categories, user.tenantId),
                            AllAddons(addons, user.tenantId), AllVariants(variants, user.tenantId)))
  }

  /**
   * The menu reply lists each of the tenant's menu items once, in table order, each
   * with exactly the tenant's addons and variants of that item.
   */
  lemma MenuReplyListsEachItem(items: seq<MenuItem>, taxGroups: seq<TaxGroup>, categories: seq<Category>,
                               addons: seq<Addon>, variants: seq<Variant>, user: User)
    requires KeysIncreasing(taxGroups, TaxGroupKey) && KeysIncreasing(categories, CategoryKey)
    ensures var mine := Filter(items, MenuItemOfTenant(user.tenantId));
      var reply := GetAllMenuItems(items, taxGroups, categories, addons, variants, user, false);
      && reply.Ok?
      && |reply.data| == |mine|
      && forall k :: 0 <= k < |mine| ==>
           && reply.data[k].item == ExpectedMenuItemRow(mine[k], taxGroups, categories)
           && (forall a :: a in reply.data[k].addons <==> a in addons && a.tenantId == user.tenantId && a.itemId == mine[k].id)
           && (forall v :: v in reply.data[k].variants <==> v in variants && v.tenantId == user.tenantId && v.itemId == mine[k].id)
  {
    AllMenuItemsOnePerItem(items, taxGroups, categories, user.tenantId);
    FormatMenuItemsGroups(AllMenuItems(items, taxGroups, categories, user.tenantId),
                          AllAddons(addons, user.tenantId), AllVariants(variants, user.tenantId));
  }

  // ---------------------------------------------------------------------------
  // getMenuItem
  // ---------------------------------------------------------------------------

  /**
   * `{...menuItem, addons, variants}`: spreading an `undefined` item contributes no
   * field, so a missing item still gives a reply, with only the two lists.
   */
  datatype MenuItemDetail = MenuItemDetail(item: Option<MenuItemRow>, addons: seq<Addon>, variants: seq<Variant>)

  /** `getMenuItem`: the three queries for item `id`, merged; 500 when any of them fails. */
  function GetMenuItem(items: seq<MenuItem>, taxGroups: seq<TaxGroup>, categories: seq<Category>,
                       addons: seq<Addon>, variants: seq<Variant>, user: User, id: int, queryFails: bool)
    : Response<MenuItemDetail>
  {
    if queryFails then Fail(500, ServerError)
    else Ok(MenuItemDetail(MenuItemById(items, taxGroups, categories, id, user.tenantId),
                           MenuItemAddons(addons, id, user.tenantId), MenuItemVariants(variants, id, user.tenantId)))
  }

  /**
   * `getMenuItem` answers 200 even for an id the tenant does not have. The item fields
   * are those of the tenant's item with that id when there is one, and absent otherwise.
   * The lists hold the tenant's addons and variants with that item id in either case,
   * so the addons a deleted item left behind still show.
   */
  lemma MenuItemReplyMerges(items: seq<MenuItem>, taxGroups: seq<TaxGroup>, categories: seq<Category>,
                            addons: seq<Addon>, variants: seq<Variant>, user: User, id: int)
    requires KeysIncreasing(items, MenuItemKey)
    requires KeysIncreasing(taxGroups, TaxGroupKey) && KeysIncreasing(categories, CategoryKey)
    ensures var reply := GetMenuItem(items, taxGroups, categories, addons, variants, user, id, false);
      && reply.Ok?
      && (reply.data.item.None? <==> forall k :: 0 <= k < |items| ==> !(items[k].id == id && items[k].tenantId == user.tenantId))
      && (forall k :: 0 <= k < |items| && items[k].id == id && items[k].tenantId == user.tenantId ==>
            reply.data.item == Some(ExpectedMenuItemRow(items[k], taxGroups, categories)))
      && (forall a :: a in reply.data.addons <==> a in addons && a.itemId == id && a.tenantId == user.tenantId)
      && (forall v :: v in reply.data.variants <==> v in variants && v.itemId == id && v.tenantId == user.tenantId)
  {
    MenuItemByIdFinds(items, taxGroups, categories, id, user.tenantId);
  }

  // ---------------------------------------------------------------------------
  // getMenuItemAddons / getMenuItemVariants
  // ---------------------------------------------------------------------------

  /** `getMenuItemAddons`: 404 on an empty list, the list otherwise; 500 when the query fails. */
  function GetMenuItemAddons(addons: seq<Addon>, itemId: int, user: User, queryFails: bool): Response<seq<Addon>>
  {
    if queryFails then Fail(500, ServerError)
    else
      var rows := MenuItemAddons(addons, itemId, user.tenantId);
      if |rows| == 0 then Fail(404, "No addons found for this item!") else Ok(rows)
  }

  /** `getMenuItemVariants`: 404 on an empty list, the list otherwise; 500 when the query fails. */
  function GetMenuItemVariants(variants: seq<Variant>, itemId: int, user: User, queryFails: bool): Response<seq<Variant>>
  {
    if queryFails then Fail(500, ServerError)
    else
      var rows := MenuItemVariants(variants, itemId, user.tenantId);
      if |rows| == 0 then Fail(404, "No variants found for this item!") else Ok(rows)
  }

  /**
   * The addon list is answered 404 exactly when the tenant has no addon for the item,
   * and otherwise 200 with exactly the tenant's addons of that item.
   */
  lemma AddonListReply(addons: seq<Addon>, itemId: int, user: User)
    ensures var reply := GetMenuItemAddons(addons, itemId, user, false);
      && (reply.Fail? <==> forall a :: a in addons ==> !(a.itemId == itemId && a.tenantId == user.tenantId))
      && (reply.Fail? ==> reply == Fail(404, "No addons found for this item!"))
      && (reply.Ok? ==> |reply.data| > 0)
      && (reply.Ok? ==> forall a :: a in reply.data <==> a in addons && a.itemId == itemId && a.tenantId == user.tenantId)
  {
    var rows := MenuItemAddons(addons, itemId, user.tenantId);
    if |rows| > 0 {
      assert rows[0] in rows;
    }
  }

  /** The same for the variant list. */
  lemma VariantListReply(variants: seq<Variant>, itemId: int, user: User)
    ensures var reply := GetMenuItemVariants(variants, itemId, user, false);
      && (reply.Fail? <==> forall v :: v in variants ==> !(v.itemId == itemId && v.tenantId == user.tenantId))
      && (reply.Fail? ==> reply == Fail(404, "No variants found for this item!"))
      && (reply.Ok? ==> |reply.data| > 0)
      && (reply.Ok? ==> forall v :: v in reply.data <==> v in variants && v.itemId == itemId && v.tenantId == user.tenantId)
  {
    var rows := MenuItemVariants(variants, itemId, user.tenantId);
    if |rows| > 0 {
      assert rows[0] in rows;
    }
  }

  // ---------------------------------------------------------------------------
  // updateMenuItemAddon
  // ---------------------------------------------------------------------------

  /** The arguments `updateMenuItemAddonDB(itemId, addonId, title, tenantId)` receives. */
  datatype AddonUpdateCall = AddonUpdateCall(itemId: int, addonId: int, title: string, tenantSlot: Option<int>)

  /**
   * As written: the handler calls `updateMenuItemAddonDB(itemId, addonId, title,
   * netPrice, tenantId)`. The service takes four parameters, so `netPrice` lands in the
   * tenant slot and the user's tenant is dropped.
   */
  function AddonUpdateCallAsWritten(user: User, itemId: int, addonId: int, body: MenuBody): AddonUpdateCall
    requires TitleGiven(body)
  {
    AddonUpdateCall(itemId, addonId, body.title.value, body.netPrice)
  }

  /**
   * The intended call: the user's own tenant in the tenant slot. It differs from the call
   * as written in that slot alone, and the two coincide only when the request's
   * `netPrice` happens to equal the user's tenant id.
   */
  function AddonUpdateCallOf(user: User, itemId: int, addonId: int, body: MenuBody): (c: AddonUpdateCall)
    requires TitleGiven(body)
    ensures c == AddonUpdateCallAsWritten(user, itemId, addonId, body).(tenantSlot := Some(user.tenantId))
    ensures c == AddonUpdateCallAsWritten(user, itemId, addonId, body) <==> body.netPrice == Some(user.tenantId)
  {
    AddonUpdateCall(itemId, addonId, body.title.value, Some(user.tenantId))
  }

  /** The rows the service call leaves in `menu_item_addons` (its `Resolved` state). */
  function AddonsAfter(addons: seq<Addon>, c: AddonUpdateCall): seq<Addon>
  {
    UpdateWhere(addons, AddonAt(c.addonId, c.itemId, c.tenantSlot), SetAddonTitle(c.title))
  }

  /**
   * As written, tenant 1 renames tenant 2's addon by sending `netPrice: 2`, while a
   * request without a price renames nothing; both are answered 200.
   */
  lemma AddonUpdateAsWrittenCrossesTenants()
    ensures var addons := [Addon(7, 3, "Cheese", Some(20), 2)];
      var user := User(1, "owner");
      && AddonsAfter(addons, AddonUpdateCallAsWritten(user, 3, 7, MenuBody(Some("Bacon"), Some(2), None, None)))
         == [Addon(7, 3, "Bacon", Some(20), 2)]
      && AddonsAfter(addons, AddonUpdateCallAsWritten(User(2, "owner"), 3, 7, MenuBody(Some("Bacon"), None, None, None)))
         == addons
  {
    var addons := [Addon(7, 3, "Cheese", Some(20), 2)];
    assert addons[1..] == [];
  }

  /**
   * With the intended call, the update touches only the user's own tenant: every other
   * tenant's addons are exactly as before, and the caller's addon with that id and item
   * gets the new title.
   */
  lemma AddonUpdateStaysInTenant(addons: seq<Addon>, user: User, itemId: int, addonId: int, body: MenuBody, other: int)
    requires TitleGiven(body) && other != user.tenantId
    ensures Filter(AddonsAfter(addons, AddonUpdateCallOf(user, itemId, addonId, body)), AddonOfTenant(other))
            == Filter(addons, AddonOfTenant(other))
    ensures forall k ::
              (0 <= k < |addons| && addons[k].id == addonId && addons[k].itemId == itemId && addons[k].tenantId == user.tenantId) ==>
              AddonsAfter(addons, AddonUpdateCallOf(user, itemId, addonId, body))[k] == addons[k].(title := body.title.value)
  {
    AddonWritesIsolateTenants(addons, itemId, addonId, body.title.value, user.tenantId, other);
  }
}
