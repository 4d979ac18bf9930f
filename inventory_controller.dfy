/**
 * src/controllers/inventory.controller.js: the request handlers of the inventory
 * routes. Each handler takes the tenant and username from the authenticated user
 * (`req.user`), the item id from the route (`req.params.id`) and the rest from the
 * JSON body; it checks the required body fields for truthiness, calls the service,
 * and answers 200, 400 or 500.
 */
module InventoryController {
  import opened Js
  import opened Rows
  import opened Schema
  import opened InventoryService
  import opened Http

  // ---------------------------------------------------------------------------
  // Request bodies and their guards
  // ---------------------------------------------------------------------------

  /** The body of `addStock` and `removeStock` (`removeStock` ignores `unitPrice`). */
  datatype StockBody = StockBody(unitPrice: Option<int>, stockQuantity: Option<int>, remarks: Option<string>,
                                 createdAt: Option<int>)

  /** The body of `addInventoryItem` and `updateInventoryItem`. */
  datatype ItemBody = ItemBody(title: Option<string>, minimumStockLevel: Option<int>, imageUrl: Option<string>,
                               unitId: Option<int>)

  /** The body of `addInventoryUnit` and `updateInventoryUnit`. */
  datatype UnitBody = UnitBody(title: Option<string>, quantity: Option<int>, description: Option<string>)

  /** `addStock` goes on only when `unitPrice`, `stockQuantity` and `remarks` are all truthy. */
  predicate AddStockAccepts(b: StockBody)
  {
    TruthyInt(b.unitPrice) && TruthyInt(b.stockQuantity) && TruthyString(b.remarks)
  }

  /** `removeStock` goes on only when `stockQuantity` and `remarks` are truthy. */
  predicate RemoveStockAccepts(b: StockBody)
  {
    TruthyInt(b.stockQuantity) && TruthyString(b.remarks)
  }

  /** `addInventoryItem` and `updateInventoryItem` go on only when `title`, `minimumStockLevel` and `unitId` are truthy. */
  predicate ItemAccepts(b: ItemBody)
  {
    TruthyString(b.title) && TruthyInt(b.minimumStockLevel) && TruthyInt(b.unitId)
  }

  /** `addInventoryUnit` and `updateInventoryUnit` go on only when `title`, `quantity` and `description` are truthy. */
  predicate UnitAccepts(b: UnitBody)
  {
    TruthyString(b.title) && TruthyInt(b.quantity) && TruthyString(b.description)
  }

  /**
   * The guards test truthiness, not sign: a zero quantity is refused, while a negative
   * one passes to the ledger, where it moves the balance the other way.
   */
  lemma StockGuardsCheckTruthinessOnly(b: StockBody, q: int)
    requires TruthyInt(b.unitPrice) && TruthyString(b.remarks)
    ensures AddStockAccepts(b.(stockQuantity := Some(q))) <==> q != 0
    ensures RemoveStockAccepts(b.(stockQuantity := Some(q))) <==> q != 0
    ensures !AddStockAccepts(b.(stockQuantity := None)) && !RemoveStockAccepts(b.(stockQuantity := None))
  {
  }

  const AddStockMissing := "Please provide required details: unit price, stock quantity, remarks"
  const RemoveStockMissing := "Please provide required details: stock quantity, remarks"
  const AddItemMissing := "Please provide required details: title, minimum stock level, unit"
  const UpdateItemMissing := "Please provide required details: title, price"
  const UnitMissing := "Please provide required details: title, quantity, description"

  // ---------------------------------------------------------------------------
  // Ledger handlers
  // ---------------------------------------------------------------------------

  /**
   * `addStock`: 400 without touching the store unless the guard passes; otherwise a
   * restock of item `itemId` by the current user in the user's tenant, answered with
   * 200 and the movement id, or with 500 when the service rejects. `remarks` is checked
   * but is not passed on: no stored column depends on it.
   */
  method AddStock(db: Database, user: User, itemId: int, body: StockBody, faults: set<nat>) returns (r: Reply)
    requires db.InventoryValid()
    modifies db`inventoryItems, db`movements, db`nextMovementId
    ensures db.InventoryValid()
    ensures db.nextMovementId == old(db.nextMovementId) + (if AddStockAccepts(body) && AllSucceed(faults, 2) then 1 else 0)
    ensures r.status == 200 || r.status == 400 || r.status == 500
    ensures r.status == 400 <==> !AddStockAccepts(body)
    ensures r.status == 400 ==> r.message == AddStockMissing
    ensures r.status == 500 <==> AddStockAccepts(body) && !AllSucceed(faults, 4)
    ensures r.status == 500 ==> r.message == ServerError
    ensures r.status == 200 ==>
      && r == Reply(200, "Inventory Item Added.", Some(old(db.nextMovementId)))
      && db.movements == old(db.movements) +
           [RestockMovement(old(db.nextMovementId), itemId, user.username, body.unitPrice,
                            body.stockQuantity.value, user.tenantId, body.createdAt)]
      && db.inventoryItems == AdjustBalance(old(db.inventoryItems), itemId, user.tenantId, body.stockQuantity.value)
    ensures r.status != 200 ==> db.movements == old(db.movements) && db.inventoryItems == old(db.inventoryItems)
  {
    if !AddStockAccepts(body) {
      return Reply(400, AddStockMissing, None);
    }
    var out := AddStockMovement(db, itemId, user.username, body.unitPrice, body.stockQuantity.value,
                                user.tenantId, body.createdAt, faults);
    match out
    case Resolved(id) => r := Reply(200, "Inventory Item Added.", Some(id));
    case Rejected(_) => r := Reply(500, ServerError, None);
  }

  /** `removeStock`: as `addStock`, with a usage movement of `stockQuantity` and its own messages. */
  method RemoveStock(db: Database, user: User, itemId: int, body: StockBody, faults: set<nat>) returns (r: Reply)
    requires db.InventoryValid()
    modifies db`inventoryItems, db`movements, db`nextMovementId
    ensures db.InventoryValid()
    ensures db.nextMovementId == old(db.nextMovementId) + (if RemoveStockAccepts(body) && AllSucceed(faults, 2) then 1 else 0)
    ensures r.status == 200 || r.status == 400 || r.status == 500
    ensures r.status == 400 <==> !RemoveStockAccepts(body)
    ensures r.status == 400 ==> r.message == RemoveStockMissing
    ensures r.status == 500 <==> RemoveStockAccepts(body) && !AllSucceed(faults, 4)
    ensures r.status == 500 ==> r.message == ServerError
    ensures r.status == 200 ==>
      && r == Reply(200, "Removed stock for usage", Some(old(db.nextMovementId)))
      && db.movements == old(db.movements) +
           [UsageMovement(old(db.nextMovementId), itemId, user.username, body.stockQuantity.value,
                          user.tenantId, body.createdAt)]
      && db.inventoryItems == AdjustBalance(old(db.inventoryItems), itemId, user.tenantId, -body.stockQuantity.value)
    ensures r.status != 200 ==> db.movements == old(db.movements) && db.inventoryItems == old(db.inventoryItems)
  {
    if !RemoveStockAccepts(body) {
      return Reply(400, RemoveStockMissing, None);
    }
    var out := RemoveStockMovement(db, itemId, user.username, body.stockQuantity.value,
                                   user.tenantId, body.createdAt, faults);
    match out
    case Resolved(id) => r := Reply(200, "Removed stock for usage", Some(id));
    case Rejected(_) => r := Reply(500, ServerError, None);
  }

  // ---------------------------------------------------------------------------
  // Item and unit handlers
  // ---------------------------------------------------------------------------

  /** `addInventoryItem`: 400 unless the guard passes; otherwise the insert, answered with its id or 500. */
  method AddInventoryItem(db: Database, user: User, body: ItemBody, faults: set<nat>) returns (r: Reply)
    requires db.InventoryValid()
    modifies db`inventoryItems, db`nextInventoryItemId
    ensures db.InventoryValid()
    ensures db.nextInventoryItemId == old(db.nextInventoryItemId) + (if ItemAccepts(body) && 0 !in faults then 1 else 0)
    ensures r.status == 200 || r.status == 400 || r.status == 500
    ensures r.status == 400 <==> !ItemAccepts(body)
    ensures r.status == 400 ==> r.message == AddItemMissing
    ensures r.status == 500 <==> ItemAccepts(body) && 0 in faults
    ensures r.status == 500 ==> r.message == ServerError
    ensures r.status == 200 ==>
      && r == Reply(200, "Inventory Item Added.", Some(old(db.nextInventoryItemId)))
      && db.inventoryItems == old(db.inventoryItems) +
           [NewInventoryItem(old(db.nextInventoryItemId), body.title.value, body.minimumStockLevel.value,
                             body.imageUrl, body.unitId, user.tenantId)]
    ensures r.status != 200 ==> db.inventoryItems == old(db.inventoryItems)
  {
    if !ItemAccepts(body) {
      return Reply(400, AddItemMissing, None);
    }
    var out := InventoryService.AddInventoryItem(db, body.title.value, body.minimumStockLevel.value, body.imageUrl,
                                                 body.unitId, user.tenantId, faults);
    match out
    case Resolved(id) => r := Reply(200, "Inventory Item Added.", Some(id));
    case Rejected(_) => r := Reply(500, ServerError, None);
  }

  /** `updateInventoryItem`: 400 unless the guard passes; otherwise the tenant-scoped update, answered with 200 or 500. */
  method UpdateInventoryItem(db: Database, user: User, id: int, body: ItemBody, faults: set<nat>) returns (r: Reply)
    requires db.InventoryValid()
    modifies db`inventoryItems
    ensures db.InventoryValid()
    ensures r.status == 200 || r.status == 400 || r.status == 500
    ensures r.status == 400 <==> !ItemAccepts(body)
    ensures r.status == 400 ==> r.message == UpdateItemMissing
    ensures r.status == 500 <==> ItemAccepts(body) && 0 in faults
    ensures r.status == 500 ==> r.message == ServerError
    ensures r.status == 200 ==>
      && r == Reply(200, "Inventory Item Updated.", None)
      && db.inventoryItems == UpdateWhere(old(db.inventoryItems), ItemAt(id, user.tenantId),
           SetItemDetails(body.title.value, body.minimumStockLevel.value, body.imageUrl, body.unitId))
    ensures r.status != 200 ==> db.inventoryItems == old(db.inventoryItems)
  {
    if !ItemAccepts(body) {
      return Reply(400, UpdateItemMissing, None);
    }
    var out := InventoryService.UpdateInventoryItem(db, id, body.title.value, body.minimumStockLevel.value,
                                                    body.imageUrl, body.unitId, user.tenantId, faults);
    match out
    case Resolved(_) => r := Reply(200, "Inventory Item Updated.", None);
    case Rejected(_) => r := Reply(500, ServerError, None);
  }

  /**
   * `addInventoryUnit`. After the guard, the handler calls `addInventoryUnitDB`, which
   * the service module does not export: the call throws before any query, so every
   * request that passes the guard is answered 500, and no unit is ever stored.
   */
  function AddInventoryUnit(body: UnitBody): (r: Reply)
    ensures r.status == 400 <==> !UnitAccepts(body)
    ensures r.status == 400 ==> r.message == UnitMissing
    ensures r.status != 400 ==> r == Reply(500, ServerError, None)
  {
    if !UnitAccepts(body) then Reply(400, UnitMissing, None) else Reply(500, ServerError, None)
  }

  /** `updateInventoryUnit`: the same guard, and the same missing `updateInventoryUnitDB`. */
  function UpdateInventoryUnit(id: int, body: UnitBody): (r: Reply)
    ensures r.status == 400 <==> !UnitAccepts(body)
    ensures r.status == 400 ==> r.message == UnitMissing
    ensures r.status != 400 ==> r == Reply(500, ServerError, None)
  {
    if !UnitAccepts(body) then Reply(400, UnitMissing, None) else Reply(500, ServerError, None)
  }

  // ---------------------------------------------------------------------------
  // Row-to-view maps
  // ---------------------------------------------------------------------------

  /** One entry of the `getAllInventoryItems` reply. */
  datatype ItemView = ItemView(
    id: nat, title: string, stockQuantity: int, minimumStockLevel: int, imageUrl: Option<string>,
    unitId: Option<nat>, unitTitle: Option<string>, unitQuantity: Option<int>)

  /** The `.map` of `getAllInventoryItems`; `unit_quantity` is not selected, so `unitQuantity` is always undefined. */
  function ItemViewOf(row: InventoryItemRow): ItemView
  {
    ItemView(row.id, row.title, row.stockQuantity, row.minimumStockLevel, row.imageUrl, row.unitId, row.unitTitle, None)
  }

  /** One entry of the `getAllInventoryUnits` reply. */
  datatype UnitView = UnitView(id: nat, title: string, description: string, quantity: int)

  function UnitViewOf(u: InventoryUnit): UnitView
  {
    UnitView(u.id, u.title, u.description, u.quantity)
  }

  /** `getAllInventoryItems`: the mapped list, or 500 when the query fails. */
  function GetAllInventoryItems(items: seq<InventoryItem>, units: seq<InventoryUnit>, user: User, queryFails: bool)
    : Response<seq<ItemView>>
  {
    if queryFails then Fail(500, ServerError)
    else Ok(Project(AllInventoryItems(items, units, user.tenantId), ItemViewOf))
  }

  /** `getAllInventoryUnits`: the mapped list, or 500 when the query fails. */
  function GetAllInventoryUnits(units: seq<InventoryUnit>, user: User, queryFails: bool): Response<seq<UnitView>>
  {
    if queryFails then Fail(500, ServerError)
    else Ok(Project(AllInventoryUnits(units, user.tenantId), UnitViewOf))
  }

  /**
   * The item list reply holds one view per item of the user's tenant, in table order,
   * with the item's own columns, the unit id and title of its unit when that unit
   * exists (NULL otherwise), and never a unit quantity.
   */
  lemma ItemListShowsEachItem(items: seq<InventoryItem>, units: seq<InventoryUnit>, user: User)
    requires KeysIncreasing(units, InventoryUnitKey)
    ensures var mine := Filter(items, ItemOfTenant(user.tenantId));
      var reply := GetAllInventoryItems(items, units, user, false);
      && reply.Ok?
      && |reply.data| == |mine|
      && forall k :: 0 <= k < |mine| ==>
           var v, i, u := reply.data[k], mine[k], FindKey(units, InventoryUnitKey, mine[k].unitId);
           && v.id == i.id && v.title == i.title && v.stockQuantity == i.stockQuantity
           && v.minimumStockLevel == i.minimumStockLevel && v.imageUrl == i.imageUrl
           && v.unitId == (if u.Some? then Some(u.value.id) else None)
           && v.unitTitle == (if u.Some? then Some(u.value.title) else None)
           && v.unitQuantity == None
  {
    AllInventoryItemsOnePerItem(items, units, user.tenantId);
  }

  /** The unit list reply holds exactly the user's tenant's units, each with its id, title, description and quantity. */
  lemma UnitListShowsEachUnit(units: seq<InventoryUnit>, user: User)
    ensures var reply := GetAllInventoryUnits(units, user, false);
      && reply.Ok?
      && (forall v :: v in reply.data ==> exists u :: u in units && u.tenantId == user.tenantId && v == UnitViewOf(u))
      && (forall u :: u in units && u.tenantId == user.tenantId ==> UnitViewOf(u) in reply.data)
  {
    var mine := AllInventoryUnits(units, user.tenantId);
    var reply := GetAllInventoryUnits(units, user, false);
    forall v | v in reply.data
      ensures exists u :: u in units && u.tenantId == user.tenantId && v == UnitViewOf(u)
    {
      var k :| 0 <= k < |reply.data| && reply.data[k] == v;
      assert mine[k] in mine;
    }
    forall u | u in units && u.tenantId == user.tenantId ensures UnitViewOf(u) in reply.data {
      var k :| 0 <= k < |mine| && mine[k] == u;
      assert reply.data[k] == UnitViewOf(u);
    }
  }
}
