/**
 * src/services/settings.service.js: taxes, tax groups and the `taxes_tax_groups` links
 * between them, payment types, store tables, categories, the store's QR-menu code, and
 * the order a guest places from the QR menu.
 *
 * Statement failures are the parameter `faults`, as in the inventory service: the k-th
 * statement an operation sends is refused by the store when k is in `faults`. Only the
 * QR order runs in a transaction; the other operations that send several statements
 * keep the effect of every statement before a refused one.
 */
module SettingsService {
  import opened Js
  import opened Rows
  import opened Schema
  import Json

  // ---------------------------------------------------------------------------
  // WHERE conditions and SET clauses
  // ---------------------------------------------------------------------------

  /** `WHERE id = ? AND tenant_id = ?` on taxes. */
  function TaxAt(id: int, tenantId: int): Tax -> bool
  {
    (r: Tax) => r.id == id && r.tenantId == tenantId
  }

  /** `WHERE tenant_id = ?` on taxes. */
  function TaxOfTenant(tenantId: int): Tax -> bool
  {
    (r: Tax) => r.tenantId == tenantId
  }

  /** `SET title = ?, rate = ?, type = ?` */
  function SetTaxDetails(title: string, rate: int, taxType: string): Tax -> Tax
  {
    (r: Tax) => r.(title := title, rate := rate, taxType := taxType)
  }

  /** `WHERE tax_id = ?` on `taxes_tax_groups`. */
  function LinksOfTax(taxId: int): TaxLink -> bool
  {
    (l: TaxLink) => l.taxId == taxId
  }

  /** `WHERE tenant_id = ?` on `taxes_tax_groups`. */
  function LinkOfTenant(tenantId: int): TaxLink -> bool
  {
    (l: TaxLink) => l.tenantId == tenantId
  }

  /** `WHERE tax_id = ? AND tenant_id = ?` on `taxes_tax_groups`. */
  function LinkOfTaxInTenant(taxId: int, tenantId: int): TaxLink -> bool
  {
    (l: TaxLink) => l.taxId == taxId && l.tenantId == tenantId
  }

  /** `WHERE id = ? AND tenant_id = ?` on tax groups. */
  function TaxGroupAt(id: int, tenantId: int): TaxGroup -> bool
  {
    (r: TaxGroup) => r.id == id && r.tenantId == tenantId
  }

  /** `WHERE tenant_id = ?` on tax groups. */
  function TaxGroupOfTenant(tenantId: int): TaxGroup -> bool
  {
    (r: TaxGroup) => r.tenantId == tenantId
  }

  /** `SET title = ?` on a tax group. */
  function SetTaxGroupTitle(title: string): TaxGroup -> TaxGroup
  {
    (r: TaxGroup) => r.(title := title)
  }

  /** `WHERE id = ? AND tenant_id = ?` on payment types. */
  function PaymentTypeAt(id: int, tenantId: int): PaymentType -> bool
  {
    (r: PaymentType) => r.id == id && r.tenantId == tenantId
  }

  /** `WHERE tenant_id = ?` on payment types. */
  function PaymentTypeOfTenant(tenantId: int): PaymentType -> bool
  {
    (r: PaymentType) => r.tenantId == tenantId
  }

  /** `SET title = ?, is_active = ?` */
  function SetPaymentType(title: string, isActive: bool): PaymentType -> PaymentType
  {
    (r: PaymentType) => r.(title := title, isActive := isActive)
  }

  /** `SET is_active = ?` */
  function SetPaymentTypeActive(isActive: bool): PaymentType -> PaymentType
  {
    (r: PaymentType) => r.(isActive := isActive)
  }

  /** `WHERE id = ? AND tenant_id = ?` on store tables. */
  function StoreTableAt(id: int, tenantId: int): StoreTable -> bool
  {
    (r: StoreTable) => r.id == id && r.tenantId == tenantId
  }

  /** `WHERE tenant_id = ?` on store tables. */
  function StoreTableOfTenant(tenantId: int): StoreTable -> bool
  {
    (r: StoreTable) => r.tenantId == tenantId
  }

  /** `SET table_title = ?, floor = ?, seating_capacity = ?` */
  function SetStoreTable(title: string, floor: string, seatingCapacity: int): StoreTable -> StoreTable
  {
    (r: StoreTable) => r.(title := title, floor := floor, seatingCapacity := seatingCapacity)
  }

  /** `WHERE id = ? AND tenant_id = ?` on categories. */
  function CategoryAt(id: int, tenantId: int): Category -> bool
  {
    (r: Category) => r.id == id && r.tenantId == tenantId
  }

  /** `WHERE tenant_id = ?` on categories. */
  function CategoryOfTenant(tenantId: int): Category -> bool
  {
    (r: Category) => r.tenantId == tenantId
  }

  /** `SET title = ?` on a category. */
  function SetCategoryTitle(title: string): Category -> Category
  {
    (r: Category) => r.(title := title)
  }

  // ---------------------------------------------------------------------------
  // Taxes and their group links
  // ---------------------------------------------------------------------------

  /**
   * `addTaxDB`: statement 0 INSERTs the tax; when that produced an insert id, statement 1
   * INSERTs its link to `taxGroupId`. Resolves to the insert id. There is no transaction:
   * a refused link insert leaves the new tax in place with no link.
   */
  method AddTax(db: Database, title: string, rate: int, taxType: string, taxGroupId: int, tenantId: int,
                faults: set<nat>)
    returns (r: Outcome<nat>)
    requires db.TaxesValid()
    modifies db`taxes, db`nextTaxId, db`taxLinks
    ensures db.TaxesValid()
    ensures db.nextTaxId == old(db.nextTaxId) + (if 0 in faults then 0 else 1)
    ensures r.Resolved? <==> AllSucceed(faults, 2)
    ensures r.Rejected? ==> RaisedFirst(faults, r.error, 2)
    ensures 0 in faults ==> db.taxes == old(db.taxes)
    ensures 0 !in faults ==>
      && (forall k :: 0 <= k < |old(db.taxes)| ==> old(db.taxes)[k].id < old(db.nextTaxId))
      && db.taxes == old(db.taxes) + [Tax(old(db.nextTaxId), title, rate, taxType, tenantId)]
    ensures r.Resolved? ==>
      && r.value == old(db.nextTaxId)
      && db.taxLinks == old(db.taxLinks) + [TaxLink(r.value, taxGroupId, tenantId)]
    ensures r.Rejected? ==> db.taxLinks == old(db.taxLinks)
  {
    // INSERT INTO taxes
    if 0 in faults {
      return Rejected(StoreError(0));
    }
    var id := db.nextTaxId;
    var tax := Tax(id, title, rate, taxType, tenantId);
    InsertKeepsAutoIncrement(db.taxes, TaxKey, id, tax);
    db.taxes := db.taxes + [tax];
    db.nextTaxId := id + 1;
    // if (result.insertId): AUTO_INCREMENT ids are never 0
    if id != 0 {
      // INSERT INTO taxes_tax_groups
      if 1 in faults {
        return Rejected(StoreError(1));
      }
      db.taxLinks := db.taxLinks + [TaxLink(id, taxGroupId, tenantId)];
    }
    r := Resolved(id);
  }

  /**
   * `updateTaxDB`: statement 0 UPDATEs the tax matching id and tenant, statement 1 DELETEs
   * every link of tax `id` (whatever its tenant), statement 2 INSERTs the link to
   * `taxGroupId`. There is no transaction: each refused statement keeps the earlier ones.
   */
  method UpdateTax(db: Database, id: int, title: string, rate: int, taxType: string, tenantId: int,
                   taxGroupId: int, faults: set<nat>)
    returns (r: Outcome<()>)
    requires db.TaxesValid()
    modifies db`taxes, db`taxLinks
    ensures db.TaxesValid()
    ensures r.Resolved? <==> AllSucceed(faults, 3)
    ensures r.Rejected? ==> RaisedFirst(faults, r.error, 3)
    ensures db.taxes ==
      if 0 in faults then old(db.taxes)
      else UpdateWhere(old(db.taxes), TaxAt(id, tenantId), SetTaxDetails(title, rate, taxType))
    ensures db.taxLinks ==
      if !AllSucceed(faults, 2) then old(db.taxLinks)
      else if 2 in faults then DeleteWhere(old(db.taxLinks), LinksOfTax(id))
      else DeleteWhere(old(db.taxLinks), LinksOfTax(id)) + [TaxLink(id, taxGroupId, tenantId)]
  {
    // UPDATE taxes SET title = ?, rate = ?, type = ? WHERE id = ? AND tenant_id = ?
    if 0 in faults {
      return Rejected(StoreError(0));
    }
    UpdateKeepsAutoIncrement(db.taxes, TaxKey, db.nextTaxId, TaxAt(id, tenantId), SetTaxDetails(title, rate, taxType));
    db.taxes := UpdateWhere(db.taxes, TaxAt(id, tenantId), SetTaxDetails(title, rate, taxType));
    // DELETE FROM taxes_tax_groups WHERE tax_id = ?
    if 1 in faults {
      return Rejected(StoreError(1));
    }
    db.taxLinks := DeleteWhere(db.taxLinks, LinksOfTax(id));
    // INSERT INTO taxes_tax_groups
    if 2 in faults {
      return Rejected(StoreError(2));
    }
    db.taxLinks := db.taxLinks + [TaxLink(id, taxGroupId, tenantId)];
    r := Resolved(());
  }

  /**
   * After `updateTaxDB`'s link statements, tax `id` has exactly one link, to the given
   * group, and the links of every other tax are as they were.
   */
  lemma UpdateTaxLeavesOneLink(links: seq<TaxLink>, id: int, taxGroupId: int, tenantId: int)
    ensures var after := DeleteWhere(links, LinksOfTax(id)) + [TaxLink(id, taxGroupId, tenantId)];
      && Filter(after, LinksOfTax(id)) == [TaxLink(id, taxGroupId, tenantId)]
      && forall other :: other != id ==> Filter(after, LinksOfTax(other)) == Filter(links, LinksOfTax(other))
  {
    var rest := DeleteWhere(links, LinksOfTax(id));
    var link := TaxLink(id, taxGroupId, tenantId);
    FilterConcat(rest, [link], LinksOfTax(id));
    forall k | 0 <= k < |rest| ensures !LinksOfTax(id)(rest[k]) {
      assert rest[k] in rest;
    }
    FilterNone(rest, LinksOfTax(id));
    forall other | other != id
      ensures Filter(rest + [link], LinksOfTax(other)) == Filter(links, LinksOfTax(other))
    {
      FilterConcat(rest, [link], LinksOfTax(other));
      DeleteOutsideView(links, LinksOfTax(id), LinksOfTax(other));
    }
  }

  /**
   * The link DELETE of `updateTaxDB` is scoped by tax id alone: a tenant updating a tax id
   * of another tenant misses that tax's row, yet removes the other tenant's link for it.
   */
  lemma UpdateTaxDropsOtherTenantsLink()
    ensures UpdateWhere([Tax(5, "VAT", 20, "exclusive", 2)], TaxAt(5, 1), SetTaxDetails("GST", 5, "inclusive"))
            == [Tax(5, "VAT", 20, "exclusive", 2)]
    ensures Filter([TaxLink(5, 9, 2)], LinkOfTenant(2)) == [TaxLink(5, 9, 2)]
    ensures Filter(DeleteWhere([TaxLink(5, 9, 2)], LinksOfTax(5)) + [TaxLink(5, 3, 1)], LinkOfTenant(2)) == []
  {
    assert DeleteWhere([TaxLink(5, 9, 2)], LinksOfTax(5)) == [];
    assert Filter([TaxLink(5, 3, 1)], LinkOfTenant(2)) == [];
  }

  /** A link DELETE scoped by tax and tenant touches no other tenant's links. */
  lemma ScopedLinkDeleteKeepsOtherTenants(links: seq<TaxLink>, id: int, tenantId: int)
    ensures forall other :: other != tenantId ==>
      Filter(DeleteWhere(links, LinkOfTaxInTenant(id, tenantId)), LinkOfTenant(other)) == Filter(links, LinkOfTenant(other))
  {
    forall other | other != tenantId
      ensures Filter(DeleteWhere(links, LinkOfTaxInTenant(id, tenantId)), LinkOfTenant(other)) == Filter(links, LinkOfTenant(other))
    {
      DeleteOutsideView(links, LinkOfTaxInTenant(id, tenantId), LinkOfTenant(other));
    }
  }

  /** Appending a link of one tenant leaves every other tenant's links as they were. */
  lemma LinkInsertKeepsOtherTenants(links: seq<TaxLink>, link: TaxLink)
    ensures forall other :: other != link.tenantId ==>
      Filter(links + [link], LinkOfTenant(other)) == Filter(links, LinkOfTenant(other))
  {
    forall other | other != link.tenantId
      ensures Filter(links + [link], LinkOfTenant(other)) == Filter(links, LinkOfTenant(other))
    {
      FilterConcat(links, [link], LinkOfTenant(other));
    }
  }

  /** The links after a tenant-scoped DELETE of tax `id`'s links and the INSERT of its new one. */
  function ScopedLinkUpdate(links: seq<TaxLink>, id: int, taxGroupId: int, tenantId: int): seq<TaxLink>
  {
    DeleteWhere(links, LinkOfTaxInTenant(id, tenantId)) + [TaxLink(id, taxGroupId, tenantId)]
  }

  /**
   * After the scoped DELETE and the INSERT, the tenant has exactly one link for tax `id`,
   * to the given group, and the links of every other tax are as they were.
   */
  lemma ScopedLinkUpdateLeavesOneLink(links: seq<TaxLink>, id: int, taxGroupId: int, tenantId: int)
    ensures Filter(ScopedLinkUpdate(links, id, taxGroupId, tenantId), LinkOfTaxInTenant(id, tenantId))
            == [TaxLink(id, taxGroupId, tenantId)]
    ensures forall other :: other != id ==>
      Filter(ScopedLinkUpdate(links, id, taxGroupId, tenantId), LinksOfTax(other)) == Filter(links, LinksOfTax(other))
  {
    var rest := DeleteWhere(links, LinkOfTaxInTenant(id, tenantId));
    var link := TaxLink(id, taxGroupId, tenantId);
    FilterConcat(rest, [link], LinkOfTaxInTenant(id, tenantId));
    forall k | 0 <= k < |rest| ensures !LinkOfTaxInTenant(id, tenantId)(rest[k]) {
      assert rest[k] in rest;
    }
    FilterNone(rest, LinkOfTaxInTenant(id, tenantId));
    forall other | other != id
      ensures Filter(rest + [link], LinksOfTax(other)) == Filter(links, LinksOfTax(other))
    {
      FilterConcat(rest, [link], LinksOfTax(other));
      DeleteOutsideView(links, LinkOfTaxInTenant(id, tenantId), LinksOfTax(other));
    }
  }

  /**
   * `updateTaxDB` corrected in both respects: the link DELETE is scoped by tenant as well
   * as tax id, and when the tax UPDATE hits no row of the caller's the call stops there,
   * rejected with `NotFound`, so no link is deleted or added. Statements: 0 UPDATE,
   * 1 DELETE, 2 INSERT, with no transaction, as in the source. Every link it adds names
   * one of the caller's own taxes, and no other tenant's link is ever touched.
   */
  method UpdateTaxInTenant(db: Database, id: int, title: string, rate: int, taxType: string, tenantId: int,
                           taxGroupId: int, faults: set<nat>)
    returns (r: Outcome<()>)
    requires db.TaxesValid()
    modifies db`taxes, db`taxLinks
    ensures db.TaxesValid()
    ensures r.Resolved? <==> AllSucceed(faults, 3) && AffectedRows(old(db.taxes), TaxAt(id, tenantId)) > 0
    ensures r == Rejected(NotFound) <==> 0 !in faults && AffectedRows(old(db.taxes), TaxAt(id, tenantId)) == 0
    ensures r.Rejected? && r.error != NotFound ==> RaisedFirst(faults, r.error, 3)
    ensures db.taxes ==
      if 0 in faults then old(db.taxes)
      else UpdateWhere(old(db.taxes), TaxAt(id, tenantId), SetTaxDetails(title, rate, taxType))
    ensures db.taxLinks ==
      if !AllSucceed(faults, 2) || AffectedRows(old(db.taxes), TaxAt(id, tenantId)) == 0 then old(db.taxLinks)
      else if 2 in faults then DeleteWhere(old(db.taxLinks), LinkOfTaxInTenant(id, tenantId))
      else ScopedLinkUpdate(old(db.taxLinks), id, taxGroupId, tenantId)
    ensures AddsOnlyOwnLink(old(db.taxLinks), db.taxLinks, db.taxes, TaxLink(id, taxGroupId, tenantId))
    ensures forall other :: other != tenantId ==>
      Filter(db.taxLinks, LinkOfTenant(other)) == Filter(old(db.taxLinks), LinkOfTenant(other))
    ensures r.Resolved? ==> Filter(db.taxLinks, LinkOfTaxInTenant(id, tenantId)) == [TaxLink(id, taxGroupId, tenantId)]
    ensures r.Resolved? ==> forall other :: other != id ==>
      Filter(db.taxLinks, LinksOfTax(other)) == Filter(old(db.taxLinks), LinksOfTax(other))
  {
    // UPDATE taxes SET title = ?, rate = ?, type = ? WHERE id = ? AND tenant_id = ?
    if 0 in faults {
      return Rejected(StoreError(0));
    }
    var affected := UpdateTaxRow(db, id, title, rate, taxType, tenantId);
    if affected == 0 {
      NoLinkWriteAddsNone(db.taxLinks, db.taxes, TaxLink(id, taxGroupId, tenantId));
      return Rejected(NotFound);
    }
    assert AllSucceed(faults, 1);
    r := ReplaceTaxLinkInTenant(db, id, taxGroupId, tenantId, faults);
    if r.Rejected? {
      assert AllSucceed(faults, r.error.statement);
    }
  }

  /**
   * Statement 0 of the corrected `updateTaxDB`: the tax UPDATE, answering its
   * `affectedRows`. A tax it hit is still the tenant's afterwards.
   */
  method UpdateTaxRow(db: Database, id: int, title: string, rate: int, taxType: string, tenantId: int)
    returns (affected: nat)
    requires db.TaxesValid()
    modifies db`taxes
    ensures db.TaxesValid()
    ensures affected == AffectedRows(old(db.taxes), TaxAt(id, tenantId))
    ensures db.taxes == UpdateWhere(old(db.taxes), TaxAt(id, tenantId), SetTaxDetails(title, rate, taxType))
    ensures affected > 0 ==> AffectedRows(db.taxes, TaxAt(id, tenantId)) > 0
  {
    affected := AffectedRows(db.taxes, TaxAt(id, tenantId));
    if affected > 0 {
      UpdatedTaxStaysInTenant(db.taxes, id, tenantId, title, rate, taxType);
    }
    UpdateKeepsAutoIncrement(db.taxes, TaxKey, db.nextTaxId, TaxAt(id, tenantId), SetTaxDetails(title, rate, taxType));
    db.taxes := UpdateWhere(db.taxes, TaxAt(id, tenantId), SetTaxDetails(title, rate, taxType));
  }

  /**
   * Statements 1 and 2 of the corrected `updateTaxDB`: DELETE the links of tax `id` in the
   * tenant, then INSERT its link to `taxGroupId`. Only the caller's links change, and when
   * the tenant owns a tax `id` the one link added names it.
   */
  method ReplaceTaxLinkInTenant(db: Database, id: int, taxGroupId: int, tenantId: int, faults: set<nat>)
    returns (r: Outcome<()>)
    modifies db`taxLinks
    ensures r.Resolved? <==> 1 !in faults && 2 !in faults
    ensures r.Rejected? ==> r.error == if 1 in faults then StoreError(1) else StoreError(2)
    ensures db.taxLinks ==
      if 1 in faults then old(db.taxLinks)
      else if 2 in faults then DeleteWhere(old(db.taxLinks), LinkOfTaxInTenant(id, tenantId))
      else ScopedLinkUpdate(old(db.taxLinks), id, taxGroupId, tenantId)
    ensures AffectedRows(db.taxes, TaxAt(id, tenantId)) > 0 ==>
      AddsOnlyOwnLink(old(db.taxLinks), db.taxLinks, db.taxes, TaxLink(id, taxGroupId, tenantId))
    ensures forall other :: other != tenantId ==>
      Filter(db.taxLinks, LinkOfTenant(other)) == Filter(old(db.taxLinks), LinkOfTenant(other))
    ensures r.Resolved? ==> Filter(db.taxLinks, LinkOfTaxInTenant(id, tenantId)) == [TaxLink(id, taxGroupId, tenantId)]
    ensures r.Resolved? ==> forall other :: other != id ==>
      Filter(db.taxLinks, LinksOfTax(other)) == Filter(old(db.taxLinks), LinksOfTax(other))
  {
    var links0 := db.taxLinks;
    var link := TaxLink(id, taxGroupId, tenantId);
    // DELETE FROM taxes_tax_groups WHERE tax_id = ? AND tenant_id = ?
    if 1 in faults {
      NoLinkWriteAddsNone(links0, db.taxes, link);
      return Rejected(StoreError(1));
    }
    ScopedLinkDeleteKeepsOtherTenants(links0, id, tenantId);
    var rest := DeleteWhere(links0, LinkOfTaxInTenant(id, tenantId));
    db.taxLinks := rest;
    // INSERT INTO taxes_tax_groups
    if 2 in faults {
      ScopedDeleteAddsNone(links0, db.taxes, id, taxGroupId, tenantId);
      return Rejected(StoreError(2));
    }
    if AffectedRows(db.taxes, TaxAt(id, tenantId)) > 0 {
      ScopedUpdateAddsOwnLink(links0, db.taxes, id, taxGroupId, tenantId);
    }
    LinkInsertKeepsOtherTenants(rest, link);
    ScopedLinkUpdateLeavesOneLink(links0, id, taxGroupId, tenantId);
    db.taxLinks := ScopedLinkUpdate(links0, id, taxGroupId, tenantId);
    r := Resolved(());
  }

  /**
   * Every link in `after` that was not in `before` is `link`, and `taxes` holds a tax of
   * `link`'s tenant with the id it names (some row matches `TaxAt`).
   */
  ghost predicate AddsOnlyOwnLink(before: seq<TaxLink>, after: seq<TaxLink>, taxes: seq<Tax>, link: TaxLink)
  {
    forall l :: l in after && l !in before ==>
      l == link && AffectedRows(taxes, TaxAt(l.taxId, link.tenantId)) > 0
  }

  lemma NoLinkWriteAddsNone(links: seq<TaxLink>, taxes: seq<Tax>, link: TaxLink)
    ensures AddsOnlyOwnLink(links, links, taxes, link)
  {
  }

  lemma ScopedDeleteAddsNone(links: seq<TaxLink>, taxes: seq<Tax>, id: int, taxGroupId: int, tenantId: int)
    ensures AddsOnlyOwnLink(links, DeleteWhere(links, LinkOfTaxInTenant(id, tenantId)), taxes, TaxLink(id, taxGroupId, tenantId))
  {
  }

  lemma ScopedUpdateAddsOwnLink(links: seq<TaxLink>, taxes: seq<Tax>, id: int, taxGroupId: int, tenantId: int)
    requires AffectedRows(taxes, TaxAt(id, tenantId)) > 0
    ensures AddsOnlyOwnLink(links, ScopedLinkUpdate(links, id, taxGroupId, tenantId), taxes, TaxLink(id, taxGroupId, tenantId))
  {
    var rest := DeleteWhere(links, LinkOfTaxInTenant(id, tenantId));
    forall l | l in rest + [TaxLink(id, taxGroupId, tenantId)] && l !in links
      ensures l == TaxLink(id, taxGroupId, tenantId)
    {
      assert l !in rest;
    }
  }

  /** An UPDATE that hit a tax of the tenant leaves a tax with that id in that tenant. */
  lemma UpdatedTaxStaysInTenant(taxes: seq<Tax>, id: int, tenantId: int, title: string, rate: int, taxType: string)
    requires AffectedRows(taxes, TaxAt(id, tenantId)) > 0
    ensures AffectedRows(UpdateWhere(taxes, TaxAt(id, tenantId), SetTaxDetails(title, rate, taxType)), TaxAt(id, tenantId)) > 0
  {
    var hit := Filter(taxes, TaxAt(id, tenantId))[0];
    assert hit in Filter(taxes, TaxAt(id, tenantId));
    var k :| 0 <= k < |taxes| && taxes[k] == hit;
    var after := UpdateWhere(taxes, TaxAt(id, tenantId), SetTaxDetails(title, rate, taxType));
    assert after[k] == SetTaxDetails(title, rate, taxType)(hit);
    assert after[k] in after;
    assert after[k] in Filter(after, TaxAt(id, tenantId));
  }

  /** `deleteTaxDB`: one DELETE (statement 0) of the tax matching id and tenant; its links stay. */
  method DeleteTax(db: Database, id: int, tenantId: int, faults: set<nat>)
    returns (r: Outcome<()>)
    requires db.TaxesValid()
    modifies db`taxes
    ensures db.TaxesValid()
    ensures r.Resolved? <==> 0 !in faults
    ensures r.Resolved? ==> db.taxes == DeleteWhere(old(db.taxes), TaxAt(id, tenantId))
    ensures r.Rejected? ==> r.error == StoreError(0) && db.taxes == old(db.taxes)
  {
    if 0 in faults {
      return Rejected(StoreError(0));
    }
    DeleteKeepsAutoIncrement(db.taxes, TaxKey, db.nextTaxId, TaxAt(id, tenantId));
    db.taxes := DeleteWhere(db.taxes, TaxAt(id, tenantId));
    r := Resolved(());
  }

  /** Updating or deleting a tax of one tenant leaves every other tenant's taxes as they were. */
  lemma TaxWritesIsolateTenants(taxes: seq<Tax>, id: int, tenantId: int, other: int, title: string,
                                rate: int, taxType: string)
    requires other != tenantId
    ensures Filter(UpdateWhere(taxes, TaxAt(id, tenantId), SetTaxDetails(title, rate, taxType)), TaxOfTenant(other))
            == Filter(taxes, TaxOfTenant(other))
    ensures Filter(DeleteWhere(taxes, TaxAt(id, tenantId)), TaxOfTenant(other)) == Filter(taxes, TaxOfTenant(other))
  {
    UpdateOutsideView(taxes, TaxAt(id, tenantId), SetTaxDetails(title, rate, taxType), TaxOfTenant(other));
    DeleteOutsideView(taxes, TaxAt(id, tenantId), TaxOfTenant(other));
  }

  // ---------------------------------------------------------------------------
  // Tax groups
  // ---------------------------------------------------------------------------

  /** `addTaxGroupDB`: one INSERT (statement 0); resolves to the insert id. */
  method AddTaxGroup(db: Database, title: string, tenantId: int, faults: set<nat>)
    returns (r: Outcome<nat>)
    requires db.TaxesValid()
    modifies db`taxGroups, db`nextTaxGroupId
    ensures db.TaxesValid()
    ensures db.nextTaxGroupId == old(db.nextTaxGroupId) + (if 0 in faults then 0 else 1)
    ensures r.Resolved? <==> 0 !in faults
    ensures r.Resolved? ==>
      && r.value == old(db.nextTaxGroupId)
      && (forall k :: 0 <= k < |old(db.taxGroups)| ==> old(db.taxGroups)[k].id < r.value)
      && db.taxGroups == old(db.taxGroups) + [TaxGroup(r.value, title, tenantId)]
    ensures r.Rejected? ==> r.error == StoreError(0) && db.taxGroups == old(db.taxGroups)
  {
    if 0 in faults {
      return Rejected(StoreError(0));
    }
    var id := db.nextTaxGroupId;
    InsertKeepsAutoIncrement(db.taxGroups, TaxGroupKey, id, TaxGroup(id, title, tenantId));
    db.taxGroups := db.taxGroups + [TaxGroup(id, title, tenantId)];
    db.nextTaxGroupId := id + 1;
    r := Resolved(id);
  }

  /** `updateTaxGroupDB`: one UPDATE (statement 0) of the title of the group matching id and tenant. */
  method UpdateTaxGroup(db: Database, id: int, title: string, tenantId: int, faults: set<nat>)
    returns (r: Outcome<()>)
    requires db.TaxesValid()
    modifies db`taxGroups
    ensures db.TaxesValid()
    ensures r.Resolved? <==> 0 !in faults
    ensures r.Resolved? ==> db.taxGroups == UpdateWhere(old(db.taxGroups), TaxGroupAt(id, tenantId), SetTaxGroupTitle(title))
    ensures r.Rejected? ==> r.error == StoreError(0) && db.taxGroups == old(db.taxGroups)
  {
    if 0 in faults {
      return Rejected(StoreError(0));
    }
    UpdateKeepsAutoIncrement(db.taxGroups, TaxGroupKey, db.nextTaxGroupId, TaxGroupAt(id, tenantId), SetTaxGroupTitle(title));
    db.taxGroups := UpdateWhere(db.taxGroups, TaxGroupAt(id, tenantId), SetTaxGroupTitle(title));
    r := Resolved(());
  }

  /** `deleteTaxGroupDB`: one DELETE (statement 0) of the group matching id and tenant; its links stay. */
  method DeleteTaxGroup(db: Database, id: int, tenantId: int, faults: set<nat>)
    returns (r: Outcome<()>)
    requires db.TaxesValid()
    modifies db`taxGroups
    ensures db.TaxesValid()
    ensures r.Resolved? <==> 0 !in faults
    ensures r.Resolved? ==> db.taxGroups == DeleteWhere(old(db.taxGroups), TaxGroupAt(id, tenantId))
    ensures r.Rejected? ==> r.error == StoreError(0) && db.taxGroups == old(db.taxGroups)
  {
    if 0 in faults {
      return Rejected(StoreError(0));
    }
    DeleteKeepsAutoIncrement(db.taxGroups, TaxGroupKey, db.nextTaxGroupId, TaxGroupAt(id, tenantId));
    db.taxGroups := DeleteWhere(db.taxGroups, TaxGroupAt(id, tenantId));
    r := Resolved(());
  }

  /** Updating or deleting a tax group of one tenant leaves every other tenant's groups as they were. */
  lemma TaxGroupWritesIsolateTenants(groups: seq<TaxGroup>, id: int, tenantId: int, other: int, title: string)
    requires other != tenantId
    ensures Filter(UpdateWhere(groups, TaxGroupAt(id, tenantId), SetTaxGroupTitle(title)), TaxGroupOfTenant(other))
            == Filter(groups, TaxGroupOfTenant(other))
    ensures Filter(DeleteWhere(groups, TaxGroupAt(id, tenantId)), TaxGroupOfTenant(other)) == Filter(groups, TaxGroupOfTenant(other))
  {
    UpdateOutsideView(groups, TaxGroupAt(id, tenantId), SetTaxGroupTitle(title), TaxGroupOfTenant(other));
    DeleteOutsideView(groups, TaxGroupAt(id, tenantId), TaxGroupOfTenant(other));
  }

  // ---------------------------------------------------------------------------
  // The tax groups with their taxes
  // ---------------------------------------------------------------------------

  /** One element of a group's `taxes` array: the joined tax's columns, each NULL when the join found no tax. */
  datatype TaxEntry = TaxEntry(id: Option<nat>, title: Option<string>, rate: Option<int>, taxType: Option<string>)

  /** One row of the result of `getAllTaxGroupsAndTaxesDB`. */
  datatype GroupTaxes = GroupTaxes(id: nat, title: string, taxes: seq<TaxEntry>)

  /** A row of `tax_groups tg LEFT JOIN taxes_tax_groups ttg ... LEFT JOIN taxes t ...`. */
  type GroupJoinRow = ((TaxGroup, Option<TaxLink>), Option<Tax>)

  /** `JSON_OBJECT('id', t.id, 'title', t.title, 'rate', t.rate, 'type', t.type)` */
  function EntryOf(t: Option<Tax>): TaxEntry
  {
    match t
    case None => TaxEntry(None, None, None, None)
    case Some(x) => TaxEntry(Some(x.id), Some(x.title), Some(x.rate), Some(x.taxType))
  }

  /** `ON tg.id = ttg.tax_group_id` */
  function GroupLinkOn(): (TaxGroup, TaxLink) -> bool
  {
    (g: TaxGroup, l: TaxLink) => g.id == l.taxGroupId
  }

  /** `ON t.id = ttg.tax_id`: a NULL link matches no tax. */
  function LinkTaxOn(): ((TaxGroup, Option<TaxLink>), Tax) -> bool
  {
    (p: (TaxGroup, Option<TaxLink>), t: Tax) => p.1.Some? && p.1.value.taxId == t.id
  }

  /** The joined rows `GROUP BY tg.id` collects for group `g`. */
  function GroupJoin(g: TaxGroup, links: seq<TaxLink>, taxes: seq<Tax>): seq<GroupJoinRow>
  {
    LeftJoin(LeftJoin([g], links, GroupLinkOn()), taxes, LinkTaxOn())
  }

  /** The JSON object a joined row contributes to the array. */
  function RowEntry(): GroupJoinRow -> TaxEntry
  {
    (q: GroupJoinRow) => EntryOf(q.1)
  }

  /** `JSON_ARRAYAGG(...)` over a group's joined rows: SQL NULL when there are none. */
  function AggregatedTaxes(g: TaxGroup, links: seq<TaxLink>, taxes: seq<Tax>): Option<seq<TaxEntry>>
  {
    var rows := GroupJoin(g, links, taxes);
    if rows == [] then None else Some(Project(rows, RowEntry()))
  }

  /** `taxes: group.taxes ? group.taxes : []`: a NULL array becomes the empty one. */
  function TaxesOrEmpty(taxes: Option<seq<TaxEntry>>): seq<TaxEntry>
  {
    match taxes
    case None => []
    case Some(entries) => entries
  }

  /** The result row of one group, as `getAllTaxGroupsAndTaxesDB` builds it. */
  function GroupRowAsWritten(links: seq<TaxLink>, taxes: seq<Tax>): TaxGroup -> GroupTaxes
  {
    (g: TaxGroup) => GroupTaxes(g.id, g.title, TaxesOrEmpty(AggregatedTaxes(g, links, taxes)))
  }

  /** The LEFT JOINs keep every group: a group has at least one joined row, linked or not. */
  lemma GroupJoinNeverEmpty(g: TaxGroup, links: seq<TaxLink>, taxes: seq<Tax>)
    ensures GroupJoin(g, links, taxes) != []
  {
    var inner := LeftJoin([g], links, GroupLinkOn());
    assert inner == JoinOne(g, links, GroupLinkOn()) + LeftJoin([g][1..], links, GroupLinkOn());
    assert GroupJoin(g, links, taxes) == JoinOne(inner[0], taxes, LinkTaxOn()) + LeftJoin(inner[1..], taxes, LinkTaxOn());
  }

  /**
   * What `getAllTaxGroupsAndTaxesDB` lists for one group: `JSON_ARRAYAGG` is never NULL,
   * the array is never empty, its entries that name a tax are exactly the group's linked
   * taxes, in join order, and every other entry is the all-NULL object.
   */
  lemma {:induction false} GroupRowAsWrittenTaxes(g: TaxGroup, links: seq<TaxLink>, taxes: seq<Tax>)
    ensures AggregatedTaxes(g, links, taxes).Some?
    ensures var ts := GroupRowAsWritten(links, taxes)(g).taxes;
      && |ts| > 0
      && Filter(ts, NamesTax()) == GroupTaxEntries(g, links, taxes)
      && forall j :: 0 <= j < |ts| ==> ts[j] == TaxEntry(None, None, None, None) || ts[j] in GroupTaxEntries(g, links, taxes)
  {
    GroupJoinNeverEmpty(g, links, taxes);
    var rows := GroupJoin(g, links, taxes);
    var ts := GroupRowAsWritten(links, taxes)(g).taxes;
    assert ts == Project(rows, RowEntry());
    forall j | 0 <= j < |ts|
      ensures ts[j] == TaxEntry(None, None, None, None) || ts[j] in GroupTaxEntries(g, links, taxes)
    {
      assert ts[j] == EntryOf(rows[j].1);
      assert ts[j] in ts;
    }
  }

  lemma GroupRowsAsWrittenTaxes(gs: seq<TaxGroup>, links: seq<TaxLink>, taxes: seq<Tax>)
    ensures forall k :: 0 <= k < |gs| ==>
      && AggregatedTaxes(gs[k], links, taxes).Some?
      && var ts := GroupRowAsWritten(links, taxes)(gs[k]).taxes;
      && |ts| > 0
      && Filter(ts, NamesTax()) == GroupTaxEntries(gs[k], links, taxes)
      && forall j :: 0 <= j < |ts| ==> ts[j] == TaxEntry(None, None, None, None) || ts[j] in GroupTaxEntries(gs[k], links, taxes)
  {
    forall k | 0 <= k < |gs|
      ensures && AggregatedTaxes(gs[k], links, taxes).Some?
              && var ts := GroupRowAsWritten(links, taxes)(gs[k]).taxes;
              && |ts| > 0
              && Filter(ts, NamesTax()) == GroupTaxEntries(gs[k], links, taxes)
              && forall j :: 0 <= j < |ts| ==> ts[j] == TaxEntry(None, None, None, None) || ts[j] in GroupTaxEntries(gs[k], links, taxes)
    {
      GroupRowAsWrittenTaxes(gs[k], links, taxes);
    }
  }

  /**
   * `getAllTaxGroupsAndTaxesDB`: one row per group of the tenant, in table order, with the
   * aggregated taxes of the group. The aggregate of every group is an array, never NULL and
   * never empty; its entries that name a tax are the group's linked taxes, and the rest
   * are all-NULL objects.
   */
  function AllTaxGroupsAndTaxes(groups: seq<TaxGroup>, links: seq<TaxLink>, taxes: seq<Tax>, tenantId: int)
    : (r: seq<GroupTaxes>)
    ensures |r| == |Filter(groups, TaxGroupOfTenant(tenantId))|
    ensures forall k :: 0 <= k < |r| ==>
      var g := Filter(groups, TaxGroupOfTenant(tenantId))[k];
      && r[k].id == g.id && r[k].title == g.title && g in groups && g.tenantId == tenantId
      && AggregatedTaxes(g, links, taxes).Some?
      && |r[k].taxes| > 0
      && Filter(r[k].taxes, NamesTax()) == GroupTaxEntries(g, links, taxes)
      && forall j :: 0 <= j < |r[k].taxes| ==>
           r[k].taxes[j] == TaxEntry(None, None, None, None) || r[k].taxes[j] in GroupTaxEntries(g, links, taxes)
  {
    var gs := Filter(groups, TaxGroupOfTenant(tenantId));
    GroupRowsAsWrittenTaxes(gs, links, taxes);
    var r := Project(gs, GroupRowAsWritten(links, taxes));
    assert forall k :: 0 <= k < |r| ==> r[k] == GroupRowAsWritten(links, taxes)(gs[k]) && gs[k] in gs;
    r
  }

  /**
   * The array `JSON_ARRAYAGG` builds over a LEFT JOIN is never NULL, so the `[]` fallback
   * never applies: a group without links has one joined row, all of whose tax columns are
   * NULL, and its `taxes` is one entry of NULLs rather than the empty array.
   */
  lemma GroupWithoutLinksListsNullTax(g: TaxGroup, links: seq<TaxLink>, taxes: seq<Tax>)
    requires forall k :: 0 <= k < |links| ==> links[k].taxGroupId != g.id
    ensures AggregatedTaxes(g, links, taxes).Some?
    ensures GroupRowAsWritten(links, taxes)(g).taxes == [TaxEntry(None, None, None, None)]
  {
    MatchesEmpty(g, links, GroupLinkOn());
    var inner := LeftJoin([g], links, GroupLinkOn());
    assert inner == [(g, None)] + LeftJoin([g][1..], links, GroupLinkOn());
    assert inner == [(g, None)];
    MatchesEmpty((g, None), taxes, LinkTaxOn());
    assert GroupJoin(g, links, taxes) == [((g, None), None)] + LeftJoin(inner[1..], taxes, LinkTaxOn());
    assert GroupJoin(g, links, taxes) == [((g, None), None)];
  }

  /** An entry that names a tax: its row joined one. */
  function NamesTax(): TaxEntry -> bool
  {
    (e: TaxEntry) => e.id.Some?
  }

  /** The taxes of a group as intended: the entries of joined taxes only, so a group without any lists `[]`. */
  function GroupTaxEntries(g: TaxGroup, links: seq<TaxLink>, taxes: seq<Tax>): seq<TaxEntry>
  {
    Filter(Project(GroupJoin(g, links, taxes), RowEntry()), NamesTax())
  }

  function GroupRowOf(links: seq<TaxLink>, taxes: seq<Tax>): TaxGroup -> GroupTaxes
  {
    (g: TaxGroup) => GroupTaxes(g.id, g.title, GroupTaxEntries(g, links, taxes))
  }

  /** `getAllTaxGroupsAndTaxesDB` with the group's taxes as intended. */
  function TaxGroupsWithTaxes(groups: seq<TaxGroup>, links: seq<TaxLink>, taxes: seq<Tax>, tenantId: int)
    : (r: seq<GroupTaxes>)
    ensures |r| == |Filter(groups, TaxGroupOfTenant(tenantId))|
    ensures forall k :: 0 <= k < |r| ==>
      var g := Filter(groups, TaxGroupOfTenant(tenantId))[k];
      r[k].id == g.id && r[k].title == g.title && r[k].taxes == GroupTaxEntries(g, links, taxes)
  {
    Project(Filter(groups, TaxGroupOfTenant(tenantId)), GroupRowOf(links, taxes))
  }

  /**
   * The list as written and the intended list name the same groups, and dropping the
   * all-NULL entries from a group's taxes as written gives its intended taxes.
   */
  lemma AsWrittenTaxesDropToIntended(groups: seq<TaxGroup>, links: seq<TaxLink>, taxes: seq<Tax>, tenantId: int)
    ensures var asWritten := AllTaxGroupsAndTaxes(groups, links, taxes, tenantId);
      var intended := TaxGroupsWithTaxes(groups, links, taxes, tenantId);
      && |asWritten| == |intended|
      && forall k :: 0 <= k < |asWritten| ==>
           && asWritten[k].id == intended[k].id && asWritten[k].title == intended[k].title
           && Filter(asWritten[k].taxes, NamesTax()) == intended[k].taxes
  {
  }

  /**
   * The intended `taxes` of a group lists exactly the taxes some link attaches to it: an
   * entry is there if and only if it is the object of an existing tax linked to the group.
   */
  lemma GroupTaxEntriesAreLinkedTaxes(g: TaxGroup, links: seq<TaxLink>, taxes: seq<Tax>, e: TaxEntry)
    ensures e in GroupTaxEntries(g, links, taxes) <==>
      exists l, t :: l in links && t in taxes && l.taxGroupId == g.id && l.taxId == t.id && e == EntryOf(Some(t))
  {
    var inner := LeftJoin([g], links, GroupLinkOn());
    var rows := GroupJoin(g, links, taxes);
    var entries := Project(rows, RowEntry());
    if e in GroupTaxEntries(g, links, taxes) {
      assert e in entries && e.id.Some?;
      var k :| 0 <= k < |entries| && entries[k] == e;
      var q := rows[k];
      assert q in rows && e == EntryOf(q.1);
      LeftJoinMembers(inner, taxes, LinkTaxOn(), q);
      LeftJoinMembers([g], links, GroupLinkOn(), q.0);
      var l, t := q.0.1.value, q.1.value;
      assert l in links && t in taxes && l.taxGroupId == g.id && l.taxId == t.id && e == EntryOf(Some(t));
    }
    if exists l, t :: l in links && t in taxes && l.taxGroupId == g.id && l.taxId == t.id && e == EntryOf(Some(t)) {
      var l, t :| l in links && t in taxes && l.taxGroupId == g.id && l.taxId == t.id && e == EntryOf(Some(t));
      LeftJoinMembers([g], links, GroupLinkOn(), (g, Some(l)));
      var q: GroupJoinRow := ((g, Some(l)), Some(t));
      LeftJoinMembers(inner, taxes, LinkTaxOn(), q);
      var k :| 0 <= k < |rows| && rows[k] == q;
      assert entries[k] == e;
    }
  }

  /** In particular a group no link attaches a tax to lists the empty array. */
  lemma GroupWithoutTaxesListsNone(g: TaxGroup, links: seq<TaxLink>, taxes: seq<Tax>)
    requires forall k :: 0 <= k < |links| ==> links[k].taxGroupId != g.id
    ensures GroupTaxEntries(g, links, taxes) == []
  {
    var inner := LeftJoin([g], links, GroupLinkOn());
    var rows := GroupJoin(g, links, taxes);
    var entries := Project(rows, RowEntry());
    forall k | 0 <= k < |entries| ensures !NamesTax()(entries[k]) {
      LeftJoinMembers(inner, taxes, LinkTaxOn(), rows[k]);
      LeftJoinMembers([g], links, GroupLinkOn(), rows[k].0);
    }
    FilterNone(entries, NamesTax());
  }

  /**
   * The joins `ON tg.id = ttg.tax_group_id` and `ON t.id = ttg.tax_id` compare no tenants,
   * and `addTaxDB` does not check who owns the group it links: tenant 2's tax linked to
   * tenant 1's group is listed under that group, as written and as corrected alike.
   */
  lemma TaxJoinsIgnoreTenant()
    ensures TaxGroupsWithTaxes([TaxGroup(3, "Food", 1)], [TaxLink(5, 3, 2)], [Tax(5, "VAT", 20, "exclusive", 2)], 1)
            == [GroupTaxes(3, "Food", [TaxEntry(Some(5), Some("VAT"), Some(20), Some("exclusive"))])]
  {
    var g, link, tax := TaxGroup(3, "Food", 1), TaxLink(5, 3, 2), Tax(5, "VAT", 20, "exclusive", 2);
    assert MatchesOf(g, [link], GroupLinkOn()) == [link];
    assert JoinOne(g, [link], GroupLinkOn()) == [(g, Some(link))];
    var inner := LeftJoin([g], [link], GroupLinkOn());
    assert inner == [(g, Some(link))] + LeftJoin([g][1..], [link], GroupLinkOn());
    assert inner == [(g, Some(link))];
    assert MatchesOf((g, Some(link)), [tax], LinkTaxOn()) == [tax];
    assert JoinOne((g, Some(link)), [tax], LinkTaxOn()) == [((g, Some(link)), Some(tax))];
    assert GroupJoin(g, [link], [tax]) == [((g, Some(link)), Some(tax))] + LeftJoin(inner[1..], [tax], LinkTaxOn());
    assert GroupJoin(g, [link], [tax]) == [((g, Some(link)), Some(tax))];
    var e := TaxEntry(Some(5), Some("VAT"), Some(20), Some("exclusive"));
    assert Project(GroupJoin(g, [link], [tax]), RowEntry()) == [e];
    assert Filter([e], NamesTax()) == [e];
    assert GroupTaxEntries(g, [link], [tax]) == [e];
    assert Filter([g], TaxGroupOfTenant(1)) == [g];
  }

  // ---------------------------------------------------------------------------
  // Payment types
  // ---------------------------------------------------------------------------

  /** `addPaymentTypeDB`: one INSERT (statement 0); resolves to the insert id. */
  method AddPaymentType(db: Database, title: string, isActive: bool, tenantId: int, faults: set<nat>)
    returns (r: Outcome<nat>)
    requires db.StoreSettingsValid()
    modifies db`paymentTypes, db`nextPaymentTypeId
    ensures db.StoreSettingsValid()
    ensures db.nextPaymentTypeId == old(db.nextPaymentTypeId) + (if 0 in faults then 0 else 1)
    ensures r.Resolved? <==> 0 !in faults
    ensures r.Resolved? ==>
      && r.value == old(db.nextPaymentTypeId)
      && (forall k :: 0 <= k < |old(db.paymentTypes)| ==> old(db.paymentTypes)[k].id < r.value)
      && db.paymentTypes == old(db.paymentTypes) + [PaymentType(r.value, title, isActive, tenantId)]
    ensures r.Rejected? ==> r.error == StoreError(0) && db.paymentTypes == old(db.paymentTypes)
  {
    if 0 in faults {
      return Rejected(StoreError(0));
    }
    var id := db.nextPaymentTypeId;
    InsertKeepsAutoIncrement(db.paymentTypes, PaymentTypeKey, id, PaymentType(id, title, isActive, tenantId));
    db.paymentTypes := db.paymentTypes + [PaymentType(id, title, isActive, tenantId)];
    db.nextPaymentTypeId := id + 1;
    r := Resolved(id);
  }

  /** The WHERE condition of `getPaymentTypesDB`: `is_active = 1 AND tenant_id = ?` or `tenant_id = ?`. */
  function PaymentTypeListed(activeOnly: bool, tenantId: int): PaymentType -> bool
  {
    if activeOnly then (r: PaymentType) => r.isActive && r.tenantId == tenantId
    else (r: PaymentType) => r.tenantId == tenantId
  }

  /**
   * `getPaymentTypesDB`: the tenant's payment types in table order, only the active ones
   * when `activeOnly`.
   */
  function PaymentTypes(rows: seq<PaymentType>, activeOnly: bool, tenantId: int): (r: seq<PaymentType>)
    ensures forall x :: x in r <==> x in rows && x.tenantId == tenantId && (activeOnly ==> x.isActive)
  {
    Filter(rows, PaymentTypeListed(activeOnly, tenantId))
  }

  /** `updatePaymentTypeDB`: one UPDATE (statement 0) of title and flag on the row matching id and tenant. */
  method UpdatePaymentType(db: Database, id: int, title: string, isActive: bool, tenantId: int, faults: set<nat>)
    returns (r: Outcome<()>)
    requires db.StoreSettingsValid()
    modifies db`paymentTypes
    ensures db.StoreSettingsValid()
    ensures r.Resolved? <==> 0 !in faults
    ensures r.Resolved? ==>
      db.paymentTypes == UpdateWhere(old(db.paymentTypes), PaymentTypeAt(id, tenantId), SetPaymentType(title, isActive))
    ensures r.Rejected? ==> r.error == StoreError(0) && db.paymentTypes == old(db.paymentTypes)
  {
    if 0 in faults {
      return Rejected(StoreError(0));
    }
    UpdateKeepsAutoIncrement(db.paymentTypes, PaymentTypeKey, db.nextPaymentTypeId, PaymentTypeAt(id, tenantId),
                             SetPaymentType(title, isActive));
    db.paymentTypes := UpdateWhere(db.paymentTypes, PaymentTypeAt(id, tenantId), SetPaymentType(title, isActive));
    r := Resolved(());
  }

  /** `togglePaymentTypeDB`: one UPDATE (statement 0) of the flag on the row matching id and tenant. */
  method TogglePaymentType(db: Database, id: int, isActive: bool, tenantId: int, faults: set<nat>)
    returns (r: Outcome<()>)
    requires db.StoreSettingsValid()
    modifies db`paymentTypes
    ensures db.StoreSettingsValid()
    ensures r.Resolved? <==> 0 !in faults
    ensures r.Resolved? ==>
      db.paymentTypes == UpdateWhere(old(db.paymentTypes), PaymentTypeAt(id, tenantId), SetPaymentTypeActive(isActive))
    ensures r.Rejected? ==> r.error == StoreError(0) && db.paymentTypes == old(db.paymentTypes)
  {
    if 0 in faults {
      return Rejected(StoreError(0));
    }
    UpdateKeepsAutoIncrement(db.paymentTypes, PaymentTypeKey, db.nextPaymentTypeId, PaymentTypeAt(id, tenantId),
                             SetPaymentTypeActive(isActive));
    db.paymentTypes := UpdateWhere(db.paymentTypes, PaymentTypeAt(id, tenantId), SetPaymentTypeActive(isActive));
    r := Resolved(());
  }

  /**
   * A toggle decides what the active list shows: switching a payment type off removes it
   * from the tenant's active list and keeps every other entry; switching it on lists it.
   */
  lemma ToggleDecidesActiveListing(rows: seq<PaymentType>, id: int, isActive: bool, tenantId: int)
    ensures var after := UpdateWhere(rows, PaymentTypeAt(id, tenantId), SetPaymentTypeActive(isActive));
      !isActive ==> forall x :: x in PaymentTypes(after, true, tenantId) <==> x in PaymentTypes(rows, true, tenantId) && x.id != id
    ensures var after := UpdateWhere(rows, PaymentTypeAt(id, tenantId), SetPaymentTypeActive(isActive));
      isActive ==> forall k :: 0 <= k < |rows| && rows[k].id == id && rows[k].tenantId == tenantId ==>
        rows[k].(isActive := true) in PaymentTypes(after, true, tenantId)
  {
    var after := UpdateWhere(rows, PaymentTypeAt(id, tenantId), SetPaymentTypeActive(isActive));
    if !isActive {
      forall x ensures x in PaymentTypes(after, true, tenantId) <==> x in PaymentTypes(rows, true, tenantId) && x.id != id {
        if x in after {
          var k :| 0 <= k < |after| && after[k] == x;
          assert x == if PaymentTypeAt(id, tenantId)(rows[k]) then rows[k].(isActive := false) else rows[k];
        }
        if x in rows && x.id != id {
          var k :| 0 <= k < |rows| && rows[k] == x;
          assert after[k] == x;
        }
      }
    } else {
      forall k | 0 <= k < |rows| && rows[k].id == id && rows[k].tenantId == tenantId
        ensures rows[k].(isActive := true) in PaymentTypes(after, true, tenantId)
      {
        assert after[k] == rows[k].(isActive := true);
      }
    }
  }

  /** `deletePaymentTypeDB`: one DELETE (statement 0) of the row matching id and tenant. */
  method DeletePaymentType(db: Database, id: int, tenantId: int, faults: set<nat>)
    returns (r: Outcome<()>)
    requires db.StoreSettingsValid()
    modifies db`paymentTypes
    ensures db.StoreSettingsValid()
    ensures r.Resolved? <==> 0 !in faults
    ensures r.Resolved? ==> db.paymentTypes == DeleteWhere(old(db.paymentTypes), PaymentTypeAt(id, tenantId))
    ensures r.Rejected? ==> r.error == StoreError(0) && db.paymentTypes == old(db.paymentTypes)
  {
    if 0 in faults {
      return Rejected(StoreError(0));
    }
    DeleteKeepsAutoIncrement(db.paymentTypes, PaymentTypeKey, db.nextPaymentTypeId, PaymentTypeAt(id, tenantId));
    db.paymentTypes := DeleteWhere(db.paymentTypes, PaymentTypeAt(id, tenantId));
    r := Resolved(());
  }

  /** Updating, toggling or deleting a payment type of one tenant leaves every other tenant's as they were. */
  lemma PaymentTypeWritesIsolateTenants(rows: seq<PaymentType>, id: int, tenantId: int, other: int, title: string,
                                        isActive: bool)
    requires other != tenantId
    ensures Filter(UpdateWhere(rows, PaymentTypeAt(id, tenantId), SetPaymentType(title, isActive)), PaymentTypeOfTenant(other))
            == Filter(rows, PaymentTypeOfTenant(other))
    ensures Filter(UpdateWhere(rows, PaymentTypeAt(id, tenantId), SetPaymentTypeActive(isActive)), PaymentTypeOfTenant(other))
            == Filter(rows, PaymentTypeOfTenant(other))
    ensures Filter(DeleteWhere(rows, PaymentTypeAt(id, tenantId)), PaymentTypeOfTenant(other))
            == Filter(rows, PaymentTypeOfTenant(other))
  {
    UpdateOutsideView(rows, PaymentTypeAt(id, tenantId), SetPaymentType(title, isActive), PaymentTypeOfTenant(other));
    UpdateOutsideView(rows, PaymentTypeAt(id, tenantId), SetPaymentTypeActive(isActive), PaymentTypeOfTenant(other));
    DeleteOutsideView(rows, PaymentTypeAt(id, tenantId), PaymentTypeOfTenant(other));
  }

  // ---------------------------------------------------------------------------
  // Store tables and categories
  // ---------------------------------------------------------------------------

  /** `addStoreTableDB`: one INSERT (statement 0); resolves to the insert id. */
  method AddStoreTable(db: Database, title: string, floor: string, seatingCapacity: int, tenantId: int, faults: set<nat>)
    returns (r: Outcome<nat>)
    requires db.StoreSettingsValid()
    modifies db`storeTables, db`nextStoreTableId
    ensures db.StoreSettingsValid()
    ensures db.nextStoreTableId == old(db.nextStoreTableId) + (if 0 in faults then 0 else 1)
    ensures r.Resolved? <==> 0 !in faults
    ensures r.Resolved? ==>
      && r.value == old(db.nextStoreTableId)
      && (forall k :: 0 <= k < |old(db.storeTables)| ==> old(db.storeTables)[k].id < r.value)
      && db.storeTables == old(db.storeTables) + [StoreTable(r.value, title, floor, seatingCapacity, tenantId)]
    ensures r.Rejected? ==> r.error == StoreError(0) && db.storeTables == old(db.storeTables)
  {
    if 0 in faults {
      return Rejected(StoreError(0));
    }
    var id := db.nextStoreTableId;
    var row := StoreTable(id, title, floor, seatingCapacity, tenantId);
    InsertKeepsAutoIncrement(db.storeTables, StoreTableKey, id, row);
    db.storeTables := db.storeTables + [row];
    db.nextStoreTableId := id + 1;
    r := Resolved(id);
  }

  /** `updateStoreTableDB`: one UPDATE (statement 0) of title, floor and capacity on the row matching id and tenant. */
  method UpdateStoreTable(db: Database, id: int, title: string, floor: string, seatingCapacity: int, tenantId: int,
                          faults: set<nat>)
    returns (r: Outcome<()>)
    requires db.StoreSettingsValid()
    modifies db`storeTables
    ensures db.StoreSettingsValid()
    ensures r.Resolved? <==> 0 !in faults
    ensures r.Resolved? ==>
      db.storeTables == UpdateWhere(old(db.storeTables), StoreTableAt(id, tenantId), SetStoreTable(title, floor, seatingCapacity))
    ensures r.Rejected? ==> r.error == StoreError(0) && db.storeTables == old(db.storeTables)
  {
    if 0 in faults {
      return Rejected(StoreError(0));
    }
    UpdateKeepsAutoIncrement(db.storeTables, StoreTableKey, db.nextStoreTableId, StoreTableAt(id, tenantId),
                             SetStoreTable(title, floor, seatingCapacity));
    db.storeTables := UpdateWhere(db.storeTables, StoreTableAt(id, tenantId), SetStoreTable(title, floor, seatingCapacity));
    r := Resolved(());
  }

  /** `deleteStoreTableDB`: one DELETE (statement 0) of the row matching id and tenant. */
  method DeleteStoreTable(db: Database, id: int, tenantId: int, faults: set<nat>)
    returns (r: Outcome<()>)
    requires db.StoreSettingsValid()
    modifies db`storeTables
    ensures db.StoreSettingsValid()
    ensures r.Resolved? <==> 0 !in faults
    ensures r.Resolved? ==> db.storeTables == DeleteWhere(old(db.storeTables), StoreTableAt(id, tenantId))
    ensures r.Rejected? ==> r.error == StoreError(0) && db.storeTables == old(db.storeTables)
  {
    if 0 in faults {
      return Rejected(StoreError(0));
    }
    DeleteKeepsAutoIncrement(db.storeTables, StoreTableKey, db.nextStoreTableId, StoreTableAt(id, tenantId));
    db.storeTables := DeleteWhere(db.storeTables, StoreTableAt(id, tenantId));
    r := Resolved(());
  }

  /** Updating or deleting a store table of one tenant leaves every other tenant's tables as they were. */
  lemma StoreTableWritesIsolateTenants(rows: seq<StoreTable>, id: int, tenantId: int, other: int, title: string,
                                       floor: string, seatingCapacity: int)
    requires other != tenantId
    ensures Filter(UpdateWhere(rows, StoreTableAt(id, tenantId), SetStoreTable(title, floor, seatingCapacity)),
                   StoreTableOfTenant(other)) == Filter(rows, StoreTableOfTenant(other))
    ensures Filter(DeleteWhere(rows, StoreTableAt(id, tenantId)), StoreTableOfTenant(other)) == Filter(rows, StoreTableOfTenant(other))
  {
    UpdateOutsideView(rows, StoreTableAt(id, tenantId), SetStoreTable(title, floor, seatingCapacity), StoreTableOfTenant(other));
    DeleteOutsideView(rows, StoreTableAt(id, tenantId), StoreTableOfTenant(other));
  }

  /** `addCategoryDB`: one INSERT (statement 0); resolves to the insert id. */
  method AddCategory(db: Database, title: string, tenantId: int, faults: set<nat>)
    returns (r: Outcome<nat>)
    requires db.StoreSettingsValid()
    modifies db`categories, db`nextCategoryId
    ensures db.StoreSettingsValid()
    ensures db.nextCategoryId == old(db.nextCategoryId) + (if 0 in faults then 0 else 1)
    ensures r.Resolved? <==> 0 !in faults
    ensures r.Resolved? ==>
      && r.value == old(db.nextCategoryId)
      && (forall k :: 0 <= k < |old(db.categories)| ==> old(db.categories)[k].id < r.value)
      && db.categories == old(db.categories) + [Category(r.value, title, tenantId)]
    ensures r.Rejected? ==> r.error == StoreError(0) && db.categories == old(db.categories)
  {
    if 0 in faults {
      return Rejected(StoreError(0));
    }
    var id := db.nextCategoryId;
    InsertKeepsAutoIncrement(db.categories, CategoryKey, id, Category(id, title, tenantId));
    db.categories := db.categories + [Category(id, title, tenantId)];
    db.nextCategoryId := id + 1;
    r := Resolved(id);
  }

  /** `updateCategoryDB`: one UPDATE (statement 0) of the title of the category matching id and tenant. */
  method UpdateCategory(db: Database, id: int, title: string, tenantId: int, faults: set<nat>)
    returns (r: Outcome<()>)
    requires db.StoreSettingsValid()
    modifies db`categories
    ensures db.StoreSettingsValid()
    ensures r.Resolved? <==> 0 !in faults
    ensures r.Resolved? ==> db.categories == UpdateWhere(old(db.categories), CategoryAt(id, tenantId), SetCategoryTitle(title))
    ensures r.Rejected? ==> r.error == StoreError(0) && db.categories == old(db.categories)
  {
    if 0 in faults {
      return Rejected(StoreError(0));
    }
    UpdateKeepsAutoIncrement(db.categories, CategoryKey, db.nextCategoryId, CategoryAt(id, tenantId), SetCategoryTitle(title));
    db.categories := UpdateWhere(db.categories, CategoryAt(id, tenantId), SetCategoryTitle(title));
    r := Resolved(());
  }

  /** `deleteCategoryDB`: one DELETE (statement 0) of the category matching id and tenant. */
  method DeleteCategory(db: Database, id: int, tenantId: int, faults: set<nat>)
    returns (r: Outcome<()>)
    requires db.StoreSettingsValid()
    modifies db`categories
    ensures db.StoreSettingsValid()
    ensures r.Resolved? <==> 0 !in faults
    ensures r.Resolved? ==> db.categories == DeleteWhere(old(db.categories), CategoryAt(id, tenantId))
    ensures r.Rejected? ==> r.error == StoreError(0) && db.categories == old(db.categories)
  {
    if 0 in faults {
      return Rejected(StoreError(0));
    }
    DeleteKeepsAutoIncrement(db.categories, CategoryKey, db.nextCategoryId, CategoryAt(id, tenantId));
    db.categories := DeleteWhere(db.categories, CategoryAt(id, tenantId));
    r := Resolved(());
  }

  /** Updating or deleting a category of one tenant leaves every other tenant's categories as they were. */
  lemma CategoryWritesIsolateTenants(rows: seq<Category>, id: int, tenantId: int, other: int, title: string)
    requires other != tenantId
    ensures Filter(UpdateWhere(rows, CategoryAt(id, tenantId), SetCategoryTitle(title)), CategoryOfTenant(other))
            == Filter(rows, CategoryOfTenant(other))
    ensures Filter(DeleteWhere(rows, CategoryAt(id, tenantId)), CategoryOfTenant(other)) == Filter(rows, CategoryOfTenant(other))
  {
    UpdateOutsideView(rows, CategoryAt(id, tenantId), SetCategoryTitle(title), CategoryOfTenant(other));
    DeleteOutsideView(rows, CategoryAt(id, tenantId), CategoryOfTenant(other));
  }

  // ---------------------------------------------------------------------------
  // The QR-menu code
  // ---------------------------------------------------------------------------

  /** `WHERE tenant_id = ?` on `store_details`. */
  function DetailsOfTenant(tenantId: int): StoreDetails -> bool
  {
    (d: StoreDetails) => d.tenantId == tenantId
  }

  /**
   * `getQRMenuCodeDB`: `result[0]?.unique_qr_code || null` on the tenant's first
   * store-details row. A code is only ever returned when it is the tenant's and non-empty.
   */
  function QrMenuCode(details: seq<StoreDetails>, tenantId: int): (r: Option<string>)
    ensures r.Some? ==> r.value != "" && Some(r.value) in Project(Filter(details, DetailsOfTenant(tenantId)), QrCodeOf())
    ensures (forall k :: 0 <= k < |details| && details[k].tenantId == tenantId ==> !TruthyString(details[k].uniqueQrCode))
            ==> r.None?
  {
    match First(Filter(details, DetailsOfTenant(tenantId)))
    case None => None
    case Some(d) =>
      assert d in Filter(details, DetailsOfTenant(tenantId));
      if TruthyString(d.uniqueQrCode) then d.uniqueQrCode else None
  }

  /** The `unique_qr_code` column. */
  function QrCodeOf(): StoreDetails -> Option<string>
  {
    (d: StoreDetails) => d.uniqueQrCode
  }

  /** `LIMIT 1` without ORDER BY reads the tenant's first row in table order; its falsy code becomes `null`. */
  lemma QrMenuCodeIsFirstRow(details: seq<StoreDetails>, tenantId: int, k: nat)
    requires k < |details| && details[k].tenantId == tenantId
    requires forall j :: 0 <= j < k ==> details[j].tenantId != tenantId
    ensures QrMenuCode(details, tenantId) == if TruthyString(details[k].uniqueQrCode) then details[k].uniqueQrCode else None
  {
    FilterFirst(details, DetailsOfTenant(tenantId), k);
  }

  // ---------------------------------------------------------------------------
  // The QR order
  // ---------------------------------------------------------------------------

  /** One entry of `cartItems`: the fields `placeOrderViaQrMenuDB` reads. */
  datatype CartItem = CartItem(
    id: int, variantId: Option<int>, price: int, quantity: int, notes: Option<string>, addonsIds: Option<seq<int>>)

  /** `item?.addons_ids?.length > 0 ? JSON.stringify(item.addons_ids) : null` */
  function AddonsColumn(addonsIds: Option<seq<int>>): (r: Option<string>)
    ensures r.Some? <==> addonsIds.Some? && addonsIds.value != []
    ensures r.Some? ==> Json.Parse(r.value) == Some(addonsIds.value)
  {
    if addonsIds.Some? && |addonsIds.value| > 0 then
      Json.ParseStringify(addonsIds.value);
      Some(Json.Stringify(addonsIds.value))
    else None
  }

  /** The addon ids an order line records: the array its `addons` text holds, none for NULL. */
  function AddonIdsOf(addons: Option<string>): seq<int>
  {
    match addons
    case None => []
    case Some(text) =>
      match Json.Parse(text)
      case None => []
      case Some(ids) => ids
  }

  /** Reading an order line's `addons` column back gives the cart item's addon ids. */
  lemma AddonsColumnRoundTrip(addonsIds: Option<seq<int>>)
    ensures AddonIdsOf(AddonsColumn(addonsIds)) == if addonsIds.Some? then addonsIds.value else []
  {
  }

  /** The row of `qr_order_items` one cart item becomes. */
  function OrderLineOf(orderId: nat, tenantId: int): CartItem -> QrOrderItem
  {
    (item: CartItem) => QrOrderItem(orderId, item.id, item.variantId, item.price, item.quantity, item.notes,
                                    AddonsColumn(item.addonsIds), tenantId)
  }

  /** `cartItems.map(...)`: the bulk `VALUES ?` list, one row per cart item in cart order. */
  function OrderLines(orderId: nat, cart: seq<CartItem>, tenantId: int): seq<QrOrderItem>
  {
    Project(cart, OrderLineOf(orderId, tenantId))
  }

  /** Every order line carries the order id and tenant, and the cart item's fields and addon ids. */
  lemma OrderLinesRecordCart(orderId: nat, cart: seq<CartItem>, tenantId: int)
    ensures |OrderLines(orderId, cart, tenantId)| == |cart|
    ensures forall k :: 0 <= k < |cart| ==>
      var line := OrderLines(orderId, cart, tenantId)[k];
      && line.orderId == orderId && line.tenantId == tenantId
      && line.itemId == cart[k].id && line.variantId == cart[k].variantId
      && line.price == cart[k].price && line.quantity == cart[k].quantity && line.notes == cart[k].notes
      && AddonIdsOf(line.addons) == (if cart[k].addonsIds.Some? then cart[k].addonsIds.value else [])
  {
    forall k | 0 <= k < |cart|
      ensures AddonIdsOf(OrderLines(orderId, cart, tenantId)[k].addons)
              == (if cart[k].addonsIds.Some? then cart[k].addonsIds.value else [])
    {
      AddonsColumnRoundTrip(cart[k].addonsIds);
    }
  }

  /** `WHERE order_id = ?` on `qr_order_items`. */
  function LineOfOrder(orderId: nat): QrOrderItem -> bool
  {
    (line: QrOrderItem) => line.orderId == orderId
  }

  /** `WHERE phone = ?` on customers: the lookup is not scoped by tenant. */
  function CustomerWithPhone(phone: string): Customer -> bool
  {
    (c: Customer) => c.phone == phone
  }

  /** The customer row the order adds: one when `customerId` is truthy and no customer has that phone. */
  function NewCustomers(customers: seq<Customer>, customerId: Option<string>, customerName: Option<string>,
                        tenantId: int): seq<Customer>
  {
    if TruthyString(customerId) && Filter(customers, CustomerWithPhone(customerId.value)) == [] then
      [Customer(customerId.value, customerName, tenantId)]
    else []
  }

  /**
   * The customer lookup is by phone alone: a phone another tenant already registered
   * counts as known, so the ordering tenant gets no customer row of its own.
   */
  lemma CustomerLookupIgnoresTenant()
    ensures var customers := [Customer("5550100", Some("Ann"), 1)];
      && Filter(customers, (c: Customer) => c.tenantId == 2) == []
      && NewCustomers(customers, Some("5550100"), Some("Bob"), 2) == []
      && NewCustomers([], Some("5550100"), Some("Bob"), 2) == [Customer("5550100", Some("Bob"), 2)]
  {
    var customers := [Customer("5550100", Some("Ann"), 1)];
    assert customers[1..] == [];
    assert Filter(customers, CustomerWithPhone("5550100")) == [customers[0]];
  }

  /**
   * An order never duplicates a customer: afterwards a truthy `customerId` is a known
   * phone, held by as many rows as before or, when it was unknown, by exactly one.
   */
  lemma OrderRegistersCustomerOnce(customers: seq<Customer>, customerId: Option<string>, customerName: Option<string>,
                                   tenantId: int)
    requires TruthyString(customerId)
    ensures var before := Filter(customers, CustomerWithPhone(customerId.value));
      var after := Filter(customers + NewCustomers(customers, customerId, customerName, tenantId), CustomerWithPhone(customerId.value));
      |after| == (if before == [] then 1 else |before|)
  {
    var added := NewCustomers(customers, customerId, customerName, tenantId);
    FilterConcat(customers, added, CustomerWithPhone(customerId.value));
  }

  /**
   * The number of statements an order sends: BEGIN, the order INSERT, the line INSERT,
   * the phone lookup when `customerId` is truthy, the customer INSERT when the lookup found
   * nobody, and COMMIT.
   */
  function OrderStatements(customers: seq<Customer>, customerId: Option<string>): nat
  {
    if !TruthyString(customerId) then 4
    else if Filter(customers, CustomerWithPhone(customerId.value)) == [] then 6
    else 5
  }

  /** The statements the store refuses: those in `faults`, and the line INSERT for an empty cart (`VALUES` with no row). */
  function OrderFaults(faults: set<nat>, cart: seq<CartItem>): set<nat>
  {
    if cart == [] then faults + {2} else faults
  }

  /** `INSERT INTO qr_orders`: appends `order`, which takes the next AUTO_INCREMENT id. */
  method InsertQrOrder(db: Database, order: QrOrder)
    requires db.OrdersValid() && order.id == db.nextQrOrderId
    modifies db`qrOrders, db`nextQrOrderId
    ensures db.OrdersValid()
    ensures db.qrOrders == old(db.qrOrders) + [order]
    ensures db.nextQrOrderId == old(db.nextQrOrderId) + 1
  {
    InsertKeepsAutoIncrement(db.qrOrders, QrOrderKey, db.nextQrOrderId, order);
    db.qrOrders := db.qrOrders + [order];
    db.nextQrOrderId := db.nextQrOrderId + 1;
  }

  /** `INSERT INTO qr_order_items ... VALUES ?`: appends the lines of an order already issued. */
  method InsertOrderLines(db: Database, lines: seq<QrOrderItem>)
    requires db.OrdersValid()
    requires forall k :: 0 <= k < |lines| ==> lines[k].orderId < db.nextQrOrderId
    modifies db`qrOrderItems
    ensures db.OrdersValid()
    ensures db.qrOrderItems == old(db.qrOrderItems) + lines
  {
    db.qrOrderItems := db.qrOrderItems + lines;
  }

  /** ROLLBACK of an order begun on the given tables; the order counter keeps any id it issued. */
  method RollbackOrder(db: Database, orders0: seq<QrOrder>, lines0: seq<QrOrderItem>, customers0: seq<Customer>, next0: nat)
    requires db.OrdersValid()
    requires AutoIncrement(orders0, QrOrderKey, next0) && next0 <= db.nextQrOrderId
    requires forall k :: 0 <= k < |lines0| ==> lines0[k].orderId < next0
    modifies db`qrOrders, db`qrOrderItems, db`customers
    ensures db.OrdersValid()
    ensures db.qrOrders == orders0 && db.qrOrderItems == lines0 && db.customers == customers0
  {
    BumpKeepsAutoIncrement(orders0, QrOrderKey, next0, db.nextQrOrderId);
    db.qrOrders, db.qrOrderItems, db.customers := orders0, lines0, customers0;
  }

  /**
   * The customer step of an order: when `customerId` is truthy, the phone lookup
   * (statement 3) and, when nobody has the phone, the customer INSERT (statement 4).
   * Returns the first refused statement it sent, if any.
   */
  method RegisterCustomer(db: Database, customerId: Option<string>, customerName: Option<string>, tenantId: int,
                          refused: set<nat>)
    returns (failed: Option<nat>)
    requires AllSucceed(refused, 3)
    modifies db`customers
    ensures failed.None? <==> AllSucceed(refused, OrderStatements(old(db.customers), customerId) - 1)
    ensures failed.Some? ==>
      && RaisedFirst(refused, StoreError(failed.value), OrderStatements(old(db.customers), customerId) - 1)
      && db.customers == old(db.customers)
    ensures failed.None? ==>
      db.customers == old(db.customers) + NewCustomers(old(db.customers), customerId, customerName, tenantId)
  {
    failed := None;
    if TruthyString(customerId) {
      // SELECT 1 FROM customers WHERE phone = ?
      if 3 in refused {
        return Some(3);
      }
      if Filter(db.customers, CustomerWithPhone(customerId.value)) == [] {
        // INSERT INTO customers (phone, name, tenant_id)
        if 4 in refused {
          return Some(4);
        }
        db.customers := db.customers + [Customer(customerId.value, customerName, tenantId)];
      }
    }
  }

  /**
   * `placeOrderViaQrMenuDB`, in one transaction: BEGIN; INSERT the order with
   * `paymentStatus || 'pending'`; INSERT one line per cart item; when `customerId` is
   * truthy, look the phone up and INSERT the customer if nobody has it; COMMIT. Resolves to
   * the order's insert id. Any refused statement rolls every table back and rethrows.
   */
  method PlaceOrderViaQrMenu(db: Database, tenantId: int, deliveryType: string, cart: seq<CartItem>,
                             customerType: string, customerId: Option<string>, tableId: Option<int>,
                             customerName: Option<string>, paymentStatus: Option<string>, faults: set<nat>)
    returns (r: Outcome<nat>)
    requires db.OrdersValid()
    modifies db`qrOrders, db`nextQrOrderId, db`qrOrderItems, db`customers
    ensures db.OrdersValid()
    ensures db.nextQrOrderId == old(db.nextQrOrderId) + (if AllSucceed(OrderFaults(faults, cart), 2) then 1 else 0)
    ensures r.Resolved? <==> AllSucceed(OrderFaults(faults, cart), OrderStatements(old(db.customers), customerId))
    ensures r.Resolved? ==>
      && r.value == old(db.nextQrOrderId)
      && db.qrOrders == old(db.qrOrders) +
           [QrOrder(r.value, deliveryType, customerType, customerId, tableId, OrElse(paymentStatus, "pending"), tenantId)]
      && db.qrOrderItems == old(db.qrOrderItems) + OrderLines(r.value, cart, tenantId)
      && db.customers == old(db.customers) + NewCustomers(old(db.customers), customerId, customerName, tenantId)
    ensures r.Rejected? ==>
      && RaisedFirst(OrderFaults(faults, cart), r.error, OrderStatements(old(db.customers), customerId))
      && db.qrOrders == old(db.qrOrders)
      && db.qrOrderItems == old(db.qrOrderItems)
      && db.customers == old(db.customers)
  {
    var refused := OrderFaults(faults, cart);
    var last := OrderStatements(db.customers, customerId) - 1;
    // BEGIN
    if 0 in refused {
      return Rejected(StoreError(0));
    }
    var orders0, lines0, customers0, next0 := db.qrOrders, db.qrOrderItems, db.customers, db.nextQrOrderId;
    // INSERT INTO qr_orders
    if 1 in refused {
      return Rejected(StoreError(1));
    }
    var orderId := db.nextQrOrderId;
    InsertQrOrder(db, QrOrder(orderId, deliveryType, customerType, customerId, tableId, OrElse(paymentStatus, "pending"), tenantId));
    // INSERT INTO qr_order_items ... VALUES ?
    if 2 in refused {
      RollbackOrder(db, orders0, lines0, customers0, next0);
      return Rejected(StoreError(2));
    }
    InsertOrderLines(db, OrderLines(orderId, cart, tenantId));
    // the customer lookup and INSERT
    var failed := RegisterCustomer(db, customerId, customerName, tenantId, refused);
    if failed.Some? {
      RollbackOrder(db, orders0, lines0, customers0, next0);
      return Rejected(StoreError(failed.value));
    }
    // COMMIT
    if last in refused {
      RollbackOrder(db, orders0, lines0, customers0, next0);
      return Rejected(StoreError(last));
    }
    r := Resolved(orderId);
  }

  /**
   * The lines of a committed order are exactly its cart, in cart order: the new order id is
   * fresh, so no earlier line is counted with it.
   */
  lemma CommittedOrderLinesAreCart(lines0: seq<QrOrderItem>, orderId: nat, cart: seq<CartItem>, tenantId: int)
    requires forall k :: 0 <= k < |lines0| ==> lines0[k].orderId < orderId
    ensures Filter(lines0 + OrderLines(orderId, cart, tenantId), LineOfOrder(orderId)) == OrderLines(orderId, cart, tenantId)
  {
    FilterConcat(lines0, OrderLines(orderId, cart, tenantId), LineOfOrder(orderId));
    FilterNone(lines0, LineOfOrder(orderId));
    FilterAll(OrderLines(orderId, cart, tenantId), LineOfOrder(orderId));
  }
}
