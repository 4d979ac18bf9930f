/**
 * src/services/inventory.service.js: inventory items, their units, and the stock
 * ledger. A ledger write appends one row to `inventory_movements` and moves the
 * matching item's cached `stock_quantity` by the same signed quantity, in one
 * transaction.
 *
 * Statement failures are the parameter `faults`: statement k of an operation is
 * refused by the store when k is in `faults`. A transaction snapshots the rows at
 * BEGIN and a ROLLBACK restores them; AUTO_INCREMENT counters are not rolled back.
 */
module InventoryService {
  import opened Js
  import opened Rows
  import opened Schema

  // ---------------------------------------------------------------------------
  // WHERE conditions and SET clauses
  // ---------------------------------------------------------------------------

  /** `WHERE id = ? AND tenant_id = ?` */
  function ItemAt(id: int, tenantId: int): InventoryItem -> bool
  {
    (r: InventoryItem) => r.id == id && r.tenantId == tenantId
  }

  /** `WHERE i.tenant_id = ?` */
  function ItemOfTenant(tenantId: int): InventoryItem -> bool
  {
    (r: InventoryItem) => r.tenantId == tenantId
  }

  /** `SET stock_quantity = stock_quantity + delta`: a relative update of the balance. */
  function AddToBalance(delta: int): InventoryItem -> InventoryItem
  {
    (r: InventoryItem) => r.(stockQuantity := r.stockQuantity + delta)
  }

  /** `SET title = ?, minimum_stock_level = ?, image_url = ?, unit_id = ?` */
  function SetItemDetails(title: string, minimumStockLevel: int, imageUrl: Option<string>, unitId: Option<int>)
    : InventoryItem -> InventoryItem
  {
    (r: InventoryItem) => r.(title := title, minimumStockLevel := minimumStockLevel, imageUrl := imageUrl, unitId := unitId)
  }

  /** `SET image_url = ?` */
  function SetItemImage(imageUrl: Option<string>): InventoryItem -> InventoryItem
  {
    (r: InventoryItem) => r.(imageUrl := imageUrl)
  }

  /** The row `addInventoryItemDB` inserts; `stock_quantity` is not listed and takes its default 0. */
  function NewInventoryItem(id: nat, title: string, minimumStockLevel: int, imageUrl: Option<string>,
                            unitId: Option<int>, tenantId: int): InventoryItem
  {
    InventoryItem(id, title, 0, minimumStockLevel, imageUrl, unitId, tenantId)
  }

  /** The movement `addStockMovementDB` inserts. */
  function RestockMovement(id: nat, itemId: int, username: string, unitPrice: Option<int>,
                           stockQuantity: int, tenantId: int, createdAt: Option<int>): Movement
  {
    Movement(id, itemId, username, unitPrice, stockQuantity, Restock, tenantId, createdAt)
  }

  /** The movement `remveStockMovementDB` inserts: no unit price, quantity negated. */
  function UsageMovement(id: nat, itemId: int, username: string, stockQuantity: int,
                         tenantId: int, createdAt: Option<int>): Movement
  {
    Movement(id, itemId, username, None, -stockQuantity, Usage, tenantId, createdAt)
  }

  // ---------------------------------------------------------------------------
  // The ledger as a function of the tables
  // ---------------------------------------------------------------------------

  /**
   * The balance update of a ledger write: only the item matching both id and tenant
   * moves, by exactly `delta`; every other row, and every other column, is unchanged.
   * When no row matches, the table is unchanged.
   */
  function AdjustBalance(items: seq<InventoryItem>, id: int, tenantId: int, delta: int): (r: seq<InventoryItem>)
    ensures |r| == |items|
    ensures forall k :: 0 <= k < |items| ==>
      r[k] == items[k].(stockQuantity := r[k].stockQuantity)
    ensures forall k :: 0 <= k < |items| ==>
      r[k].stockQuantity == items[k].stockQuantity + (if items[k].id == id && items[k].tenantId == tenantId then delta else 0)
    ensures AffectedRows(items, ItemAt(id, tenantId)) == 0 ==> r == items
  {
    var r := UpdateWhere(items, ItemAt(id, tenantId), AddToBalance(delta));
    if AffectedRows(items, ItemAt(id, tenantId)) == 0 then
      NoAffectedRowsLeavesTable(items, ItemAt(id, tenantId), AddToBalance(delta));
      r
    else
    r
  }

  /** The sum of the quantities of the movements recorded for item `itemId` of tenant `tenantId`. */
  function MovementSum(ms: seq<Movement>, itemId: int, tenantId: int): int
  {
    if ms == [] then 0
    else
      (if ms[0].inventoryItemId == itemId && ms[0].tenantId == tenantId then ms[0].changeQuantity else 0)
      + MovementSum(ms[1..], itemId, tenantId)
  }

  /** Appending a movement adds its quantity to the sum of the item it is recorded for, and nothing to any other. */
  lemma {:induction false} MovementSumAppend(ms: seq<Movement>, m: Movement, itemId: int, tenantId: int)
    ensures MovementSum(ms + [m], itemId, tenantId) ==
      MovementSum(ms, itemId, tenantId) + (if m.inventoryItemId == itemId && m.tenantId == tenantId then m.changeQuantity else 0)
  {
    if ms == [] {
      assert ms + [m] == [m];
    } else {
      assert (ms + [m])[1..] == ms[1..] + [m];
      MovementSumAppend(ms[1..], m, itemId, tenantId);
    }
  }

  /** How far an item's cached balance is from the sum of its movements. */
  function Drift(item: InventoryItem, ms: seq<Movement>): int
  {
    item.stockQuantity - MovementSum(ms, item.id, item.tenantId)
  }

  /** Every existing item's balance equals the sum of its movements. */
  ghost predicate LedgerConsistent(items: seq<InventoryItem>, ms: seq<Movement>)
  {
    forall k :: 0 <= k < |items| ==> Drift(items[k], ms) == 0
  }

  /**
   * A ledger write (append movement `m`, then move the balance of the item matching
   * `m`'s item id and tenant by `m`'s quantity) keeps every existing item's drift.
   */
  lemma LedgerWriteKeepsDrift(items: seq<InventoryItem>, ms: seq<Movement>, m: Movement)
    ensures forall k :: 0 <= k < |items| ==>
      Drift(AdjustBalance(items, m.inventoryItemId, m.tenantId, m.changeQuantity)[k], ms + [m]) == Drift(items[k], ms)
  {
    var items' := AdjustBalance(items, m.inventoryItemId, m.tenantId, m.changeQuantity);
    forall k | 0 <= k < |items| ensures Drift(items'[k], ms + [m]) == Drift(items[k], ms) {
      MovementSumAppend(ms, m, items[k].id, items[k].tenantId);
    }
  }

  /** A committed restock keeps, for each existing item, balance minus ledger sum. */
  lemma RestockKeepsDrift(items: seq<InventoryItem>, ms: seq<Movement>, id: nat, itemId: int, username: string,
                          unitPrice: Option<int>, stockQuantity: int, tenantId: int, createdAt: Option<int>)
    ensures forall k :: 0 <= k < |items| ==>
      Drift(AdjustBalance(items, itemId, tenantId, stockQuantity)[k],
            ms + [RestockMovement(id, itemId, username, unitPrice, stockQuantity, tenantId, createdAt)])
      == Drift(items[k], ms)
  {
    LedgerWriteKeepsDrift(items, ms, RestockMovement(id, itemId, username, unitPrice, stockQuantity, tenantId, createdAt));
  }

  /** A committed usage (`- stockQuantity` on the balance, `-stockQuantity` in the ledger) keeps every drift. */
  lemma UsageKeepsDrift(items: seq<InventoryItem>, ms: seq<Movement>, id: nat, itemId: int, username: string,
                        stockQuantity: int, tenantId: int, createdAt: Option<int>)
    ensures forall k :: 0 <= k < |items| ==>
      Drift(AdjustBalance(items, itemId, tenantId, -stockQuantity)[k],
            ms + [UsageMovement(id, itemId, username, stockQuantity, tenantId, createdAt)])
      == Drift(items[k], ms)
  {
    LedgerWriteKeepsDrift(items, ms, UsageMovement(id, itemId, username, stockQuantity, tenantId, createdAt));
  }

  /** Hence a consistent ledger stays consistent under both committed ledger writes. */
  lemma LedgerWritesKeepConsistency(items: seq<InventoryItem>, ms: seq<Movement>, id: nat, itemId: int,
                                    username: string, unitPrice: Option<int>, q: int, tenantId: int, createdAt: Option<int>)
    requires LedgerConsistent(items, ms)
    ensures LedgerConsistent(AdjustBalance(items, itemId, tenantId, q),
                             ms + [RestockMovement(id, itemId, username, unitPrice, q, tenantId, createdAt)])
    ensures LedgerConsistent(AdjustBalance(items, itemId, tenantId, -q),
                             ms + [UsageMovement(id, itemId, username, q, tenantId, createdAt)])
  {
    RestockKeepsDrift(items, ms, id, itemId, username, unitPrice, q, tenantId, createdAt);
    UsageKeepsDrift(items, ms, id, itemId, username, q, tenantId, createdAt);
  }

  /** `updateInventoryItemDB` and `updateInventoryItemImageDB` never touch a balance, so every drift is kept. */
  lemma DetailUpdatesKeepDrift(items: seq<InventoryItem>, ms: seq<Movement>, id: int, tenantId: int,
                               title: string, minimumStockLevel: int, imageUrl: Option<string>, unitId: Option<int>)
    ensures var r := UpdateWhere(items, ItemAt(id, tenantId), SetItemDetails(title, minimumStockLevel, imageUrl, unitId));
      forall k :: 0 <= k < |items| ==> r[k].stockQuantity == items[k].stockQuantity && Drift(r[k], ms) == Drift(items[k], ms)
    ensures var r := UpdateWhere(items, ItemAt(id, tenantId), SetItemImage(imageUrl));
      forall k :: 0 <= k < |items| ==> r[k].stockQuantity == items[k].stockQuantity && Drift(r[k], ms) == Drift(items[k], ms)
  {
  }

  /** `deleteInventoryItemDB` keeps the remaining items, and so keeps a consistent ledger consistent. */
  lemma DeleteKeepsConsistency(items: seq<InventoryItem>, ms: seq<Movement>, id: int, tenantId: int)
    requires LedgerConsistent(items, ms)
    ensures LedgerConsistent(DeleteWhere(items, ItemAt(id, tenantId)), ms)
  {
    var r := DeleteWhere(items, ItemAt(id, tenantId));
    forall k | 0 <= k < |r| ensures Drift(r[k], ms) == 0 {
      assert r[k] in items;
    }
  }

  // ---------------------------------------------------------------------------
  // Item and unit maintenance
  // ---------------------------------------------------------------------------

  /** `addInventoryItemDB`: one INSERT (statement 0); resolves to the new row's insert id. */
  method AddInventoryItem(db: Database, title: string, minimumStockLevel: int, imageUrl: Option<string>,
                          unitId: Option<int>, tenantId: int, faults: set<nat>)
    returns (r: Outcome<nat>)
    requires db.InventoryValid()
    modifies db`inventoryItems, db`nextInventoryItemId
    ensures db.InventoryValid()
    ensures db.nextInventoryItemId == old(db.nextInventoryItemId) + (if 0 in faults then 0 else 1)
    ensures r.Resolved? <==> 0 !in faults
    ensures r.Resolved? ==>
      && r.value == old(db.nextInventoryItemId)
      && (forall k :: 0 <= k < |old(db.inventoryItems)| ==> old(db.inventoryItems)[k].id < r.value)
      && db.inventoryItems == old(db.inventoryItems) + [NewInventoryItem(r.value, title, minimumStockLevel, imageUrl, unitId, tenantId)]
    ensures r.Rejected? ==> r.error == StoreError(0) && db.inventoryItems == old(db.inventoryItems)
  {
    if 0 in faults {
      return Rejected(StoreError(0));
    }
    var id := db.nextInventoryItemId;
    var row := NewInventoryItem(id, title, minimumStockLevel, imageUrl, unitId, tenantId);
    InsertKeepsAutoIncrement(db.inventoryItems, InventoryItemKey, id, row);
    db.inventoryItems := db.inventoryItems + [row];
    db.nextInventoryItemId := id + 1;
    r := Resolved(id);
  }

  /**
   * `updateInventoryItemDB`: one UPDATE (statement 0) of title, minimum stock level, image
   * and unit on the row matching id and tenant; `stock_quantity` is not in the SET list.
   * The affected-row count is not looked at: a miss resolves like a hit.
   */
  method UpdateInventoryItem(db: Database, id: int, title: string, minimumStockLevel: int,
                             imageUrl: Option<string>, unitId: Option<int>, tenantId: int, faults: set<nat>)
    returns (r: Outcome<()>)
    requires db.InventoryValid()
    modifies db`inventoryItems
    ensures db.InventoryValid()
    ensures r.Resolved? <==> 0 !in faults
    ensures r.Resolved? ==>
      db.inventoryItems == UpdateWhere(old(db.inventoryItems), ItemAt(id, tenantId), SetItemDetails(title, minimumStockLevel, imageUrl, unitId))
    ensures r.Rejected? ==> r.error == StoreError(0) && db.inventoryItems == old(db.inventoryItems)
  {
    if 0 in faults {
      return Rejected(StoreError(0));
    }
    UpdateKeepsAutoIncrement(db.inventoryItems, InventoryItemKey, db.nextInventoryItemId,
                             ItemAt(id, tenantId), SetItemDetails(title, minimumStockLevel, imageUrl, unitId));
    db.inventoryItems := UpdateWhere(db.inventoryItems, ItemAt(id, tenantId), SetItemDetails(title, minimumStockLevel, imageUrl, unitId));
    r := Resolved(());
  }

  /** `updateInventoryItemImageDB`: one UPDATE (statement 0) of `image_url` on the row matching id and tenant. */
  method UpdateInventoryItemImage(db: Database, id: int, imageUrl: Option<string>, tenantId: int, faults: set<nat>)
    returns (r: Outcome<()>)
    requires db.InventoryValid()
    modifies db`inventoryItems
    ensures db.InventoryValid()
    ensures r.Resolved? <==> 0 !in faults
    ensures r.Resolved? ==> db.inventoryItems == UpdateWhere(old(db.inventoryItems), ItemAt(id, tenantId), SetItemImage(imageUrl))
    ensures r.Rejected? ==> r.error == StoreError(0) && db.inventoryItems == old(db.inventoryItems)
  {
    if 0 in faults {
      return Rejected(StoreError(0));
    }
    UpdateKeepsAutoIncrement(db.inventoryItems, InventoryItemKey, db.nextInventoryItemId, ItemAt(id, tenantId), SetItemImage(imageUrl));
    db.inventoryItems := UpdateWhere(db.inventoryItems, ItemAt(id, tenantId), SetItemImage(imageUrl));
    r := Resolved(());
  }

  /** `deleteInventoryItemDB`: one DELETE (statement 0) of the row matching id and tenant; movements stay. */
  method DeleteInventoryItem(db: Database, id: int, tenantId: int, faults: set<nat>)
    returns (r: Outcome<()>)
    requires db.InventoryValid()
    modifies db`inventoryItems
    ensures db.InventoryValid()
    ensures r.Resolved? <==> 0 !in faults
    ensures r.Resolved? ==> db.inventoryItems == DeleteWhere(old(db.inventoryItems), ItemAt(id, tenantId))
    ensures r.Rejected? ==> r.error == StoreError(0) && db.inventoryItems == old(db.inventoryItems)
  {
    if 0 in faults {
      return Rejected(StoreError(0));
    }
    DeleteKeepsAutoIncrement(db.inventoryItems, InventoryItemKey, db.nextInventoryItemId, ItemAt(id, tenantId));
    db.inventoryItems := DeleteWhere(db.inventoryItems, ItemAt(id, tenantId));
    r := Resolved(());
  }

  // ---------------------------------------------------------------------------
  // The ledger writers
  // ---------------------------------------------------------------------------

  /** `INSERT INTO inventory_movements`: appends `m`, which takes the next AUTO_INCREMENT id. */
  method InsertMovement(db: Database, m: Movement)
    requires db.InventoryValid() && m.id == db.nextMovementId
    modifies db`movements, db`nextMovementId
    ensures db.InventoryValid()
    ensures db.movements == old(db.movements) + [m]
    ensures db.nextMovementId == old(db.nextMovementId) + 1
  {
    InsertKeepsAutoIncrement(db.movements, MovementKey, db.nextMovementId, m);
    db.movements := db.movements + [m];
    db.nextMovementId := db.nextMovementId + 1;
  }

  /** `UPDATE inventory_items SET stock_quantity = stock_quantity + ? WHERE id = ? AND tenant_id = ?` */
  method UpdateBalance(db: Database, id: int, tenantId: int, delta: int)
    requires db.InventoryValid()
    modifies db`inventoryItems
    ensures db.InventoryValid()
    ensures db.inventoryItems == AdjustBalance(old(db.inventoryItems), id, tenantId, delta)
  {
    UpdateKeepsAutoIncrement(db.inventoryItems, InventoryItemKey, db.nextInventoryItemId,
                             ItemAt(id, tenantId), AddToBalance(delta));
    db.inventoryItems := AdjustBalance(db.inventoryItems, id, tenantId, delta);
  }

  /**
   * ROLLBACK of a ledger transaction begun on tables `items0` and `movements0`: the rows
   * come back, while the movement counter keeps any id the rolled-back insert consumed.
   */
  method RollbackLedger(db: Database, items0: seq<InventoryItem>, movements0: seq<Movement>, next0: nat)
    requires db.InventoryValid()
    requires AutoIncrement(items0, InventoryItemKey, db.nextInventoryItemId)
    requires AutoIncrement(movements0, MovementKey, next0) && next0 <= db.nextMovementId
    modifies db`inventoryItems, db`movements
    ensures db.InventoryValid()
    ensures db.inventoryItems == items0 && db.movements == movements0
  {
    BumpKeepsAutoIncrement(movements0, MovementKey, next0, db.nextMovementId);
    db.inventoryItems, db.movements := items0, movements0;
  }

  /**
   * `addStockMovementDB`. Statements: 0 BEGIN, 1 INSERT the restock movement,
   * 2 UPDATE `stock_quantity = stock_quantity + ?` on the item matching id and tenant,
   * 3 COMMIT. Any refused statement leads to ROLLBACK and the error is rethrown.
   * The UPDATE's affected-row count is not checked, so a movement for an item that
   * does not exist (or is another tenant's) commits with no balance change.
   */
  method AddStockMovement(db: Database, inventoryItemId: int, username: string, unitPrice: Option<int>,
                          stockQuantity: int, tenantId: int, createdAt: Option<int>, faults: set<nat>)
    returns (r: Outcome<nat>)
    requires db.InventoryValid()
    modifies db`inventoryItems, db`movements, db`nextMovementId
    ensures db.InventoryValid()
    ensures db.nextMovementId == old(db.nextMovementId) + (if AllSucceed(faults, 2) then 1 else 0)
    ensures r.Resolved? <==> AllSucceed(faults, 4)
    ensures r.Resolved? ==>
      && r.value == old(db.nextMovementId)
      && db.movements == old(db.movements) +
           [RestockMovement(r.value, inventoryItemId, username, unitPrice, stockQuantity, tenantId, createdAt)]
      && db.inventoryItems == AdjustBalance(old(db.inventoryItems), inventoryItemId, tenantId, stockQuantity)
    ensures r.Rejected? ==>
      && RaisedFirst(faults, r.error, 4)
      && db.movements == old(db.movements)
      && db.inventoryItems == old(db.inventoryItems)
  {
    // BEGIN
    if 0 in faults {
      return Rejected(StoreError(0));
    }
    var items0, movements0, next0 := db.inventoryItems, db.movements, db.nextMovementId;
    // INSERT INTO inventory_movements
    if 1 in faults {
      return Rejected(StoreError(1));
    }
    var movementId := db.nextMovementId;
    InsertMovement(db, RestockMovement(movementId, inventoryItemId, username, unitPrice, stockQuantity, tenantId, createdAt));
    // UPDATE inventory_items SET stock_quantity = stock_quantity + ?
    if 2 in faults {
      RollbackLedger(db, items0, movements0, next0);
      return Rejected(StoreError(2));
    }
    UpdateBalance(db, inventoryItemId, tenantId, stockQuantity);
    // COMMIT
    if 3 in faults {
      RollbackLedger(db, items0, movements0, next0);
      return Rejected(StoreError(3));
    }
    r := Resolved(movementId);
  }

  /**
   * `remveStockMovementDB`. Statements: 0 BEGIN, 1 INSERT the usage movement with
   * `-stockQuantity` and no unit price, 2 UPDATE `stock_quantity = stock_quantity - ?`,
   * 3 COMMIT; ROLLBACK and rethrow on any refused statement. There is no floor: the
   * balance may become negative. The affected-row count is not checked.
   */
  method RemoveStockMovement(db: Database, inventoryItemId: int, username: string, stockQuantity: int,
                             tenantId: int, createdAt: Option<int>, faults: set<nat>)
    returns (r: Outcome<nat>)
    requires db.InventoryValid()
    modifies db`inventoryItems, db`movements, db`nextMovementId
    ensures db.InventoryValid()
    ensures db.nextMovementId == old(db.nextMovementId) + (if AllSucceed(faults, 2) then 1 else 0)
    ensures r.Resolved? <==> AllSucceed(faults, 4)
    ensures r.Resolved? ==>
      && r.value == old(db.nextMovementId)
      && db.movements == old(db.movements) +
           [UsageMovement(r.value, inventoryItemId, username, stockQuantity, tenantId, createdAt)]
      && db.inventoryItems == AdjustBalance(old(db.inventoryItems), inventoryItemId, tenantId, -stockQuantity)
    ensures r.Rejected? ==>
      && RaisedFirst(faults, r.error, 4)
      && db.movements == old(db.movements)
      && db.inventoryItems == old(db.inventoryItems)
  {
    // BEGIN
    if 0 in faults {
      return Rejected(StoreError(0));
    }
    var items0, movements0, next0 := db.inventoryItems, db.movements, db.nextMovementId;
    // INSERT INTO inventory_movements
    if 1 in faults {
      return Rejected(StoreError(1));
    }
    var movementId := db.nextMovementId;
    InsertMovement(db, UsageMovement(movementId, inventoryItemId, username, stockQuantity, tenantId, createdAt));
    // UPDATE inventory_items SET stock_quantity = stock_quantity - ?
    if 2 in faults {
      RollbackLedger(db, items0, movements0, next0);
      return Rejected(StoreError(2));
    }
    UpdateBalance(db, inventoryItemId, tenantId, -stockQuantity);
    // COMMIT
    if 3 in faults {
      RollbackLedger(db, items0, movements0, next0);
      return Rejected(StoreError(3));
    }
    r := Resolved(movementId);
  }

  // ---------------------------------------------------------------------------
  // Orphan movements, and the corrected ledger writer
  // ---------------------------------------------------------------------------

  /**
   * The ledger invariant the corrected writer keeps: every item's balance is the sum
   * of its movements, and every movement names an item id that has already been
   * issued (so no item created later can inherit it).
   */
  ghost predicate LedgerSound(items: seq<InventoryItem>, ms: seq<Movement>, nextItemId: nat)
  {
    && LedgerConsistent(items, ms)
    && forall k :: 0 <= k < |ms| ==> ms[k].inventoryItemId < nextItemId
  }

  /** An item id not yet issued has no movements. */
  lemma {:induction false} FreshItemHasNoMovements(ms: seq<Movement>, nextItemId: nat, tenantId: int)
    requires forall k :: 0 <= k < |ms| ==> ms[k].inventoryItemId < nextItemId
    ensures MovementSum(ms, nextItemId, tenantId) == 0
  {
    if ms != [] {
      assert forall k :: 0 <= k < |ms[1..]| ==> ms[1..][k] == ms[k + 1];
      FreshItemHasNoMovements(ms[1..], nextItemId, tenantId);
    }
  }

  /** `addInventoryItemDB` keeps the ledger sound: the new item starts at 0 and has no movements. */
  lemma AddItemKeepsSound(items: seq<InventoryItem>, ms: seq<Movement>, nextItemId: nat, title: string,
                          minimumStockLevel: int, imageUrl: Option<string>, unitId: Option<int>, tenantId: int)
    requires LedgerSound(items, ms, nextItemId)
    ensures LedgerSound(items + [NewInventoryItem(nextItemId, title, minimumStockLevel, imageUrl, unitId, tenantId)],
                        ms, nextItemId + 1)
  {
    FreshItemHasNoMovements(ms, nextItemId, tenantId);
  }

  /**
   * A ledger write that hit an item keeps the ledger sound. The hit makes the item id
   * one already issued.
   */
  lemma CheckedWriteKeepsSound(items: seq<InventoryItem>, ms: seq<Movement>, nextItemId: nat, m: Movement)
    requires LedgerSound(items, ms, nextItemId)
    requires KeysBelow(items, InventoryItemKey, nextItemId)
    requires AffectedRows(items, ItemAt(m.inventoryItemId, m.tenantId)) > 0
    ensures LedgerSound(AdjustBalance(items, m.inventoryItemId, m.tenantId, m.changeQuantity), ms + [m], nextItemId)
  {
    var hits := Filter(items, ItemAt(m.inventoryItemId, m.tenantId));
    assert hits[0] in items;
    LedgerWriteKeepsDrift(items, ms, m);
  }

  /**
   * As written, a restock of an item id not yet issued commits: the movement is
   * recorded and no balance moves. When that id is later issued to a new item, the
   * item starts at 0 yet inherits the orphan movement, and the ledger no longer
   * matches its balance.
   */
  lemma OrphanRestockIsAdopted()
    ensures var m := RestockMovement(1, 1, "admin", Some(10), 5, 1, None);
      && AffectedRows([], ItemAt(1, 1)) == 0
      && AdjustBalance([], 1, 1, 5) == []
      && LedgerConsistent([], [m])
      && !LedgerConsistent([NewInventoryItem(1, "Flour", 2, None, Some(1), 1)], [m])
  {
    var m := RestockMovement(1, 1, "admin", Some(10), 5, 1, None);
    var item := NewInventoryItem(1, "Flour", 2, None, Some(1), 1);
    assert [m][1..] == [];
    assert MovementSum([m], 1, 1) == 5 + MovementSum([], 1, 1);
    assert Drift([item][0], [m]) == -5;
  }

  /** The sum of the quantities of every movement naming item id `itemId`, whatever its tenant. */
  function MovementSumById(ms: seq<Movement>, itemId: int): int
  {
    if ms == [] then 0
    else (if ms[0].inventoryItemId == itemId then ms[0].changeQuantity else 0) + MovementSumById(ms[1..], itemId)
  }

  /**
   * A movement belongs to an item when both its item id and its tenant match, as in the
   * balance UPDATE. As written, tenant 2's restock of tenant 1's item 5 commits: the
   * movement naming item 5 is recorded, and the UPDATE, scoped by tenant, moves no
   * balance. Counted by item and tenant, item 5 stays consistent. Counted by
   * `inventory_item_id` alone, its ledger gains the 3 its balance never got.
   */
  lemma CrossTenantRestockMovesNoBalance()
    ensures var items := [InventoryItem(5, "Flour", 0, 2, None, None, 1)];
      var m := RestockMovement(1, 5, "clerk", Some(10), 3, 2, None);
      && AffectedRows(items, ItemAt(5, 2)) == 0
      && AdjustBalance(items, 5, 2, 3) == items
      && LedgerConsistent(items, [])
      && LedgerConsistent(AdjustBalance(items, 5, 2, 3), [m])
      && MovementSumById([m], 5) == 3 && items[0].stockQuantity == 0
  {
    var items := [InventoryItem(5, "Flour", 0, 2, None, None, 1)];
    var m := RestockMovement(1, 5, "clerk", Some(10), 3, 2, None);
    assert items[1..] == [] && [m][1..] == [];
    assert MovementSum([m], 5, 1) == 0 + MovementSum([], 5, 1);
    assert MovementSumById([m], 5) == 3 + MovementSumById([], 5);
  }

  /**
   * The corrected ledger write: as `addStockMovementDB` / `remveStockMovementDB`, but the
   * UPDATE's affected-row count is checked, and a write that moved no balance is rolled
   * back and rejected with `NotFound`. The movement is `Movement(id, inventoryItemId,
   * username, unitPrice, changeQuantity, changeType, tenantId, createdAt)` with the
   * next movement id. Statements: 0 BEGIN, 1 INSERT, 2 UPDATE, 3 COMMIT.
   */
  method WriteLedgerChecked(db: Database, inventoryItemId: int, username: string, unitPrice: Option<int>,
                            changeQuantity: int, changeType: ChangeType, tenantId: int, createdAt: Option<int>,
                            faults: set<nat>)
    returns (r: Outcome<nat>)
    requires db.InventoryValid()
    modifies db`inventoryItems, db`movements, db`nextMovementId
    ensures db.InventoryValid()
    ensures db.nextMovementId == old(db.nextMovementId) + (if AllSucceed(faults, 2) then 1 else 0)
    ensures r.Resolved? <==>
      AllSucceed(faults, 4) && AffectedRows(old(db.inventoryItems), ItemAt(inventoryItemId, tenantId)) > 0
    ensures r.Resolved? ==>
      && r.value == old(db.nextMovementId)
      && db.movements == old(db.movements) +
           [Movement(r.value, inventoryItemId, username, unitPrice, changeQuantity, changeType, tenantId, createdAt)]
      && db.inventoryItems == AdjustBalance(old(db.inventoryItems), inventoryItemId, tenantId, changeQuantity)
    ensures r == Rejected(NotFound) <==>
      AllSucceed(faults, 3) && AffectedRows(old(db.inventoryItems), ItemAt(inventoryItemId, tenantId)) == 0
    ensures r.Rejected? && r.error != NotFound ==> RaisedFirst(faults, r.error, 4)
    ensures r.Rejected? ==>
      && db.movements == old(db.movements)
      && db.inventoryItems == old(db.inventoryItems)
    ensures LedgerSound(old(db.inventoryItems), old(db.movements), db.nextInventoryItemId) ==>
      LedgerSound(db.inventoryItems, db.movements, db.nextInventoryItemId)
  {
    // BEGIN
    if 0 in faults {
      return Rejected(StoreError(0));
    }
    var items0, movements0, next0 := db.inventoryItems, db.movements, db.nextMovementId;
    // INSERT INTO inventory_movements
    if 1 in faults {
      return Rejected(StoreError(1));
    }
    var movementId := db.nextMovementId;
    var m := Movement(movementId, inventoryItemId, username, unitPrice, changeQuantity, changeType, tenantId, createdAt);
    InsertMovement(db, m);
    // UPDATE inventory_items SET stock_quantity = stock_quantity + ?
    if 2 in faults {
      RollbackLedger(db, items0, movements0, next0);
      return Rejected(StoreError(2));
    }
    var affected := AffectedRows(db.inventoryItems, ItemAt(inventoryItemId, tenantId));
    UpdateBalance(db, inventoryItemId, tenantId, changeQuantity);
    assert AllSucceed(faults, 3);
    if affected == 0 {
      RollbackLedger(db, items0, movements0, next0);
      return Rejected(NotFound);
    }
    // COMMIT
    if 3 in faults {
      RollbackLedger(db, items0, movements0, next0);
      return Rejected(StoreError(3));
    }
    if LedgerSound(items0, movements0, db.nextInventoryItemId) {
      CheckedWriteKeepsSound(items0, movements0, db.nextInventoryItemId, m);
    }
    r := Resolved(movementId);
  }

  // ---------------------------------------------------------------------------
  // Readers
  // ---------------------------------------------------------------------------

  /** `ON i.unit_id = u.id`: a NULL unit id joins with no unit. */
  function UnitOf(): (InventoryItem, InventoryUnit) -> bool
  {
    (i: InventoryItem, u: InventoryUnit) => i.unitId == Some(u.id)
  }

  /** A row of the item list: the item's columns and, from the joined unit, `u.title` and `u.id`. */
  datatype InventoryItemRow = InventoryItemRow(
    id: nat, title: string, stockQuantity: int, minimumStockLevel: int, imageUrl: Option<string>,
    unitTitle: Option<string>, unitId: Option<nat>)

  function ItemRowOf(p: (InventoryItem, Option<InventoryUnit>)): InventoryItemRow
  {
    InventoryItemRow(p.0.id, p.0.title, p.0.stockQuantity, p.0.minimumStockLevel, p.0.imageUrl,
                     if p.1.Some? then Some(p.1.value.title) else None,
                     if p.1.Some? then Some(p.1.value.id) else None)
  }

  /**
   * `getAllInventoryItemsDB` (the default query): `inventory_items LEFT JOIN inventory_units
   * ON i.unit_id = u.id WHERE i.tenant_id = ?`, in table order.
   */
  function AllInventoryItems(items: seq<InventoryItem>, units: seq<InventoryUnit>, tenantId: int): seq<InventoryItemRow>
  {
    Project(Filter(LeftJoin(items, units, UnitOf()), OnLeft(ItemOfTenant(tenantId))), ItemRowOf)
  }

  /** Joining items with the units yields each item with the unit its `unit_id` names, or NULL. */
  lemma JoinUnits(items: seq<InventoryItem>, units: seq<InventoryUnit>)
    requires KeysIncreasing(units, InventoryUnitKey)
    ensures |LeftJoin(items, units, UnitOf())| == |items|
    ensures forall k :: 0 <= k < |items| ==>
      LeftJoin(items, units, UnitOf())[k] == (items[k], FindKey(units, InventoryUnitKey, items[k].unitId))
  {
    KeyJoin(items, units, InventoryUnitKey, UnitOf(), (i: InventoryItem) => i.unitId);
  }

  /**
   * The item list holds one row per item of the tenant, in table order, and never
   * loses an item for lack of a unit: its unit columns are those of the item's unit
   * when that unit exists and NULL otherwise.
   */
  lemma AllInventoryItemsOnePerItem(items: seq<InventoryItem>, units: seq<InventoryUnit>, tenantId: int)
    requires KeysIncreasing(units, InventoryUnitKey)
    ensures var mine := Filter(items, ItemOfTenant(tenantId));
      var rows := AllInventoryItems(items, units, tenantId);
      && |rows| == |mine|
      && forall k :: 0 <= k < |mine| ==> rows[k] == ItemRowOf((mine[k], FindKey(units, InventoryUnitKey, mine[k].unitId)))
  {
    FilterLeftJoin(items, units, UnitOf(), ItemOfTenant(tenantId));
    JoinUnits(Filter(items, ItemOfTenant(tenantId)), units);
  }

  /**
   * `ON i.unit_id = u.id` does not compare tenants: an item of tenant 1 whose `unit_id`
   * names tenant 2's unit is listed with that unit's title.
   */
  lemma UnitJoinIgnoresTenant()
    ensures AllInventoryItems([InventoryItem(1, "Flour", 0, 2, None, Some(4), 1)], [InventoryUnit(4, "kg", "", 1, 2)], 1)
            == [InventoryItemRow(1, "Flour", 0, 2, None, Some("kg"), Some(4))]
  {
    var item, unit := InventoryItem(1, "Flour", 0, 2, None, Some(4), 1), InventoryUnit(4, "kg", "", 1, 2);
    assert LeftJoin([item], [unit], UnitOf()) == [(item, Some(unit))];
  }

  /** A row of `getInventoryItemDB`: as the list row, without the unit id. */
  datatype InventoryItemDetail = InventoryItemDetail(
    id: nat, title: string, stockQuantity: int, minimumStockLevel: int, imageUrl: Option<string>,
    unitTitle: Option<string>)

  function DetailOf(p: (InventoryItem, Option<InventoryUnit>)): InventoryItemDetail
  {
    InventoryItemDetail(p.0.id, p.0.title, p.0.stockQuantity, p.0.minimumStockLevel, p.0.imageUrl,
                        if p.1.Some? then Some(p.1.value.title) else None)
  }

  /**
   * `getInventoryItemDB` as written: the query has one placeholder, `i.tenant_id = ?`,
   * and the driver binds the first value, the item id, to it (the tenant id is left
   * over). The result is the first joined row of the tenant whose id is the item id.
   */
  function InventoryItemAsWritten(items: seq<InventoryItem>, units: seq<InventoryUnit>, id: int, tenantId: int)
    : Option<InventoryItemDetail>
  {
    var rows := Filter(LeftJoin(items, units, UnitOf()), OnLeft(ItemOfTenant(id)));
    if rows == [] then None else Some(DetailOf(rows[0]))
  }

  /** The intended `getInventoryItemDB`: `WHERE i.id = ? AND i.tenant_id = ?`. */
  function InventoryItemById(items: seq<InventoryItem>, units: seq<InventoryUnit>, id: int, tenantId: int)
    : Option<InventoryItemDetail>
  {
    var rows := Filter(LeftJoin(items, units, UnitOf()), OnLeft(ItemAt(id, tenantId)));
    if rows == [] then None else Some(DetailOf(rows[0]))
  }

  /**
   * The corrected lookup finds the caller's own item with that id exactly when it
   * exists, with its unit's title, and finds nothing otherwise.
   */
  lemma InventoryItemByIdFinds(items: seq<InventoryItem>, units: seq<InventoryUnit>, id: int, tenantId: int)
    requires KeysIncreasing(items, InventoryItemKey) && KeysIncreasing(units, InventoryUnitKey)
    ensures InventoryItemById(items, units, id, tenantId).None? <==>
      forall k :: 0 <= k < |items| ==> !(items[k].id == id && items[k].tenantId == tenantId)
    ensures forall k :: 0 <= k < |items| && items[k].id == id && items[k].tenantId == tenantId ==>
      InventoryItemById(items, units, id, tenantId) == Some(DetailOf((items[k], FindKey(units, InventoryUnitKey, items[k].unitId))))
  {
    var mine := Filter(items, ItemAt(id, tenantId));
    FilterLeftJoin(items, units, UnitOf(), ItemAt(id, tenantId));
    JoinUnits(mine, units);
    PinnedKeyFiltersAtMostOne(items, InventoryItemKey, ItemAt(id, tenantId));
    forall k | 0 <= k < |items| && items[k].id == id && items[k].tenantId == tenantId
      ensures InventoryItemById(items, units, id, tenantId) == Some(DetailOf((items[k], FindKey(units, InventoryUnitKey, items[k].unitId))))
    {
      assert items[k] in mine;
      assert mine == [mine[0]];
    }
    if mine != [] {
      assert mine[0] in items;
    }
  }

  /**
   * As written, the lookup of item 1 by tenant 2 returns tenant 1's item 2: the
   * caller's own item is not returned, and another tenant's is.
   */
  lemma InventoryItemAsWrittenCrossesTenants()
    ensures var items := [InventoryItem(1, "Flour", 4, 2, None, None, 2), InventoryItem(2, "Rice", 9, 3, None, None, 1)];
      && InventoryItemAsWritten(items, [], 1, 2) == Some(InventoryItemDetail(2, "Rice", 9, 3, None, None))
      && InventoryItemById(items, [], 1, 2) == Some(InventoryItemDetail(1, "Flour", 4, 2, None, None))
  {
    var items := [InventoryItem(1, "Flour", 4, 2, None, None, 2), InventoryItem(2, "Rice", 9, 3, None, None, 1)];
    assert items[1..] == [items[1]];
    assert LeftJoin(items, [], UnitOf()) == [(items[0], None), (items[1], None)] by {
      assert LeftJoin(items[1..][1..], [], UnitOf()) == [];
    }
  }

  /** `getAllInventoryUnitsDB`: the tenant's units, in table order. */
  function AllInventoryUnits(units: seq<InventoryUnit>, tenantId: int): (r: seq<InventoryUnit>)
    ensures forall u :: u in r <==> u in units && u.tenantId == tenantId
  {
    Filter(units, (u: InventoryUnit) => u.tenantId == tenantId)
  }
}
