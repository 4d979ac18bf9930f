/**
 * The MySQL database the services work on: one row datatype per table (only the
 * columns the modelled statements read or write), and a `Database` object holding
 * every table in primary-key order together with its AUTO_INCREMENT counter.
 */
module Schema {
  import opened Js
  import opened Rows

  // ---- inventory ----

  /** `inventory_items`; `stockQuantity` is the cached balance of the stock ledger. */
  datatype InventoryItem = InventoryItem(
    id: nat, title: string, stockQuantity: int, minimumStockLevel: int,
    imageUrl: Option<string>, unitId: Option<int>, tenantId: int)

  /** `inventory_units`. */
  datatype InventoryUnit = InventoryUnit(
    id: nat, title: string, description: string, quantity: int, tenantId: int)

  datatype ChangeType = Restock | Usage

  /** `inventory_movements`: one ledger entry. */
  datatype Movement = Movement(
    id: nat, inventoryItemId: int, username: string, unitPrice: Option<int>,
    changeQuantity: int, changeType: ChangeType, tenantId: int, createdAt: Option<int>)

  // ---- menu ----

  /** `menu_items`; `category` holds a category id. */
  datatype MenuItem = MenuItem(
    id: nat, title: string, netPrice: int, taxGroupId: Option<int>, category: Option<int>,
    image: Option<string>, tenantId: int)

  /** `menu_item_addons`. */
  datatype Addon = Addon(id: nat, itemId: int, title: string, netPrice: Option<int>, tenantId: int)

  /** `menu_item_variants`. */
  datatype Variant = Variant(id: nat, itemId: int, title: string, netPrice: Option<int>, tenantId: int)

  // ---- settings ----

  /** `taxes`; the `type` column is `taxType`. */
  datatype Tax = Tax(id: nat, title: string, rate: int, taxType: string, tenantId: int)

  /** `tax_groups`. */
  datatype TaxGroup = TaxGroup(id: nat, title: string, tenantId: int)

  /** `taxes_tax_groups`: links a tax to a tax group. */
  datatype TaxLink = TaxLink(taxId: int, taxGroupId: int, tenantId: int)

  /** `payment_types`; `isActive` is the `is_active = 1` flag. */
  datatype PaymentType = PaymentType(id: nat, title: string, isActive: bool, tenantId: int)

  /** `store_tables`. */
  datatype StoreTable = StoreTable(id: nat, title: string, floor: string, seatingCapacity: int, tenantId: int)

  /** `categories`. */
  datatype Category = Category(id: nat, title: string, tenantId: int)

  /** `store_details`, reduced to the QR-code column. */
  datatype StoreDetails = StoreDetails(tenantId: int, uniqueQrCode: Option<string>)

  /** `qr_orders`. */
  datatype QrOrder = QrOrder(
    id: nat, deliveryType: string, customerType: string, customerId: Option<string>,
    tableId: Option<int>, paymentStatus: string, tenantId: int)

  /** `qr_order_items`; `addons` is the JSON text of the addon ids, or NULL. */
  datatype QrOrderItem = QrOrderItem(
    orderId: nat, itemId: int, variantId: Option<int>, price: int, quantity: int,
    notes: Option<string>, addons: Option<string>, tenantId: int)

  /** `customers`. */
  datatype Customer = Customer(phone: string, name: Option<string>, tenantId: int)

  // ---- primary keys ----

  function InventoryItemKey(r: InventoryItem): nat { r.id }
  function InventoryUnitKey(r: InventoryUnit): nat { r.id }
  function MovementKey(r: Movement): nat { r.id }
  function MenuItemKey(r: MenuItem): nat { r.id }
  function AddonKey(r: Addon): nat { r.id }
  function VariantKey(r: Variant): nat { r.id }
  function TaxKey(r: Tax): nat { r.id }
  function TaxGroupKey(r: TaxGroup): nat { r.id }
  function PaymentTypeKey(r: PaymentType): nat { r.id }
  function StoreTableKey(r: StoreTable): nat { r.id }
  function CategoryKey(r: Category): nat { r.id }
  function QrOrderKey(r: QrOrder): nat { r.id }

  /** The database behind the connection pool. */
  class Database {
    var inventoryItems: seq<InventoryItem>
    var inventoryUnits: seq<InventoryUnit>
    var movements: seq<Movement>
    var menuItems: seq<MenuItem>
    var addons: seq<Addon>
    var variants: seq<Variant>
    var taxes: seq<Tax>
    var taxGroups: seq<TaxGroup>
    var taxLinks: seq<TaxLink>
    var paymentTypes: seq<PaymentType>
    var storeTables: seq<StoreTable>
    var categories: seq<Category>
    var storeDetails: seq<StoreDetails>
    var qrOrders: seq<QrOrder>
    var qrOrderItems: seq<QrOrderItem>
    var customers: seq<Customer>

    // AUTO_INCREMENT counters: the id the next insert into the table receives.
    var nextInventoryItemId: nat
    var nextMovementId: nat
    var nextMenuItemId: nat
    var nextAddonId: nat
    var nextVariantId: nat
    var nextTaxId: nat
    var nextTaxGroupId: nat
    var nextPaymentTypeId: nat
    var nextStoreTableId: nat
    var nextCategoryId: nat
    var nextQrOrderId: nat

    // Each group of tables an operation works on has its own invariant, reading only
    // those tables, so that an operation on one group keeps every other group's
    // invariant by framing alone.

    /** Inventory: distinct keys, and the items' and movements' keys issued by their counters. */
    ghost predicate InventoryValid()
      reads this`inventoryItems, this`nextInventoryItemId, this`inventoryUnits, this`movements, this`nextMovementId
    {
      && AutoIncrement(inventoryItems, InventoryItemKey, nextInventoryItemId)
      && KeysIncreasing(inventoryUnits, InventoryUnitKey)
      && AutoIncrement(movements, MovementKey, nextMovementId)
    }

    /** Menu: menu items, addons and variants keyed by their counters. */
    ghost predicate MenuValid()
      reads this`menuItems, this`nextMenuItemId, this`addons, this`nextAddonId, this`variants, this`nextVariantId
    {
      && AutoIncrement(menuItems, MenuItemKey, nextMenuItemId)
      && AutoIncrement(addons, AddonKey, nextAddonId)
      && AutoIncrement(variants, VariantKey, nextVariantId)
    }

    /** Taxes and tax groups keyed by their counters. */
    ghost predicate TaxesValid()
      reads this`taxes, this`nextTaxId, this`taxGroups, this`nextTaxGroupId
    {
      && AutoIncrement(taxes, TaxKey, nextTaxId)
      && AutoIncrement(taxGroups, TaxGroupKey, nextTaxGroupId)
    }

    /** Payment types, store tables and categories keyed by their counters. */
    ghost predicate StoreSettingsValid()
      reads this`paymentTypes, this`nextPaymentTypeId, this`storeTables, this`nextStoreTableId,
            this`categories, this`nextCategoryId
    {
      && AutoIncrement(paymentTypes, PaymentTypeKey, nextPaymentTypeId)
      && AutoIncrement(storeTables, StoreTableKey, nextStoreTableId)
      && AutoIncrement(categories, CategoryKey, nextCategoryId)
    }

    /** QR orders keyed by their counter, and every order line naming an order id already issued. */
    ghost predicate OrdersValid()
      reads this`qrOrders, this`nextQrOrderId, this`qrOrderItems
    {
      && AutoIncrement(qrOrders, QrOrderKey, nextQrOrderId)
      && (forall k :: 0 <= k < |qrOrderItems| ==> qrOrderItems[k].orderId < nextQrOrderId)
    }

    /** Every table with an AUTO_INCREMENT key has distinct keys, all issued by its counter. */
    ghost predicate Valid()
      reads this
    {
      InventoryValid() && MenuValid() && TaxesValid() && StoreSettingsValid() && OrdersValid()
    }

    /** An empty database whose counters all start at 1. */
    constructor ()
      ensures InventoryValid() && MenuValid() && TaxesValid() && StoreSettingsValid() && OrdersValid()
      ensures inventoryItems == [] && inventoryUnits == [] && movements == []
      ensures menuItems == [] && addons == [] && variants == []
      ensures taxes == [] && taxGroups == [] && taxLinks == [] && paymentTypes == []
      ensures storeTables == [] && categories == [] && storeDetails == []
      ensures qrOrders == [] && qrOrderItems == [] && customers == []
    {
      inventoryItems, inventoryUnits, movements := [], [], [];
      menuItems, addons, variants := [], [], [];
      taxes, taxGroups, taxLinks, paymentTypes := [], [], [], [];
      storeTables, categories, storeDetails := [], [], [];
      qrOrders, qrOrderItems, customers := [], [], [];
      nextInventoryItemId, nextMovementId, nextMenuItemId := 1, 1, 1;
      nextAddonId, nextVariantId, nextTaxId, nextTaxGroupId := 1, 1, 1, 1;
      nextPaymentTypeId, nextStoreTableId, nextCategoryId, nextQrOrderId := 1, 1, 1, 1;
      new;
      assert InventoryValid();
      assert MenuValid();
      assert TaxesValid();
      assert StoreSettingsValid();
      assert OrdersValid();
    }
  }
}
