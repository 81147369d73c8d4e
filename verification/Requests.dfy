/**
 What each write operation leaves in the table, written out on rows and fields, and when it
 is refused: the reading against which `Apply` is checked.
 */
module Requests {
  import opened Wrappers
  import opened Domain
  import opened FieldSchema
  import opened Catalog

  // ------------------------------------------------------------------------- one row

  /** Every row but these stays, and no row goes. */
  ghost predicate OthersStay(before: Table, after: Table, ids: set<Id>) {
    && before.Keys <= after.Keys <= before.Keys + ids
    && forall id :: id in before && id !in ids ==> after[id] == before[id]
  }

  /** The row carries the request's columns under version 1. */
  ghost predicate Created(before: Table, after: Table, id: Id, p: Product) {
    && id !in before && id in after && OthersStay(before, after, {id})
    && after[id].ptype == p.ptype && after[id].schemaVersion == p.schemaVersion && after[id].status == p.status
    && after[id].attributes == p.attributes && after[id].images == p.images && after[id].content == p.content
    && after[id].version == 1
  }

  /** The row carries the request's attributes, images and content; the rest of it stays, one version up. */
  ghost predicate Rewritten(before: Table, after: Table, id: Id, expected: int, c: Change) {
    && id in before && id in after && OthersStay(before, after, {id})
    && after[id].attributes == c.attributes && after[id].images == c.images && after[id].content == c.content
    && after[id].ptype == before[id].ptype && after[id].schemaVersion == before[id].schemaVersion
    && after[id].status == before[id].status
    && before[id].version == expected && after[id].version == expected + 1
  }

  lemma CreationIs(lib: Lib, s: State, id: Id, p: Product)
    requires Apply(lib, s, Create(id, p)).Ok?
    ensures var t := Apply(lib, s, Create(id, p)).value;
      Created(s.table, t.table, id, p) && t.schemas == s.schemas && t.active == s.active
  {
  }

  /** A creation is refused exactly without its schema, with bad attributes or images, or under a used id. */
  lemma CreationIff(lib: Lib, s: State, id: Id, p: Product)
    ensures Apply(lib, s, Create(id, p)).Ok? <==>
      && AttributesValid(lib, s, p.ptype, p.schemaVersion, p.attributes)
      && |ImagesAt(p.images, Main)| == 1 && |ImagesAt(p.images, Gallery)| <= 5
      && id !in s.table
  {
    ImagesOkIff(p.images);
  }

  lemma EditIs(lib: Lib, s: State, id: Id, expected: int, schemaVersion: int, c: Change)
    requires Apply(lib, s, Edit(id, expected, schemaVersion, c)).Ok?
    ensures var t := Apply(lib, s, Edit(id, expected, schemaVersion, c)).value;
      Rewritten(s.table, t.table, id, expected, c) && t.schemas == s.schemas && t.active == s.active
  {
  }

  /** An edit is refused exactly without its row, for another schema version, bad attributes or images, or a stale version. */
  lemma EditIff(lib: Lib, s: State, id: Id, expected: int, schemaVersion: int, c: Change)
    ensures var r := Apply(lib, s, Edit(id, expected, schemaVersion, c));
      && (r.Ok? <==>
            && id in s.table && s.table[id].schemaVersion == schemaVersion && s.table[id].version == expected
            && AttributesValid(lib, s, s.table[id].ptype, schemaVersion, c.attributes)
            && |ImagesAt(c.images, Main)| == 1 && |ImagesAt(c.images, Gallery)| <= 5)
      && (r == Err(ProductNotFound) <==> id !in s.table)
      && (r == Err(StaleVersion) ==> id in s.table && s.table[id].version != expected)
  {
    ImagesOkIff(c.images);
  }

  // ------------------------------------------------------------------------- batches

  /** The last of the items that name this id. */
  predicate LastNamed(items: seq<(Id, int)>, i: nat, id: Id) {
    i < |items| && items[i].0 == id && forall k :: i < k < |items| ==> items[k].0 != id
  }

  /** `dict(items)` keeps the version given last. */
  lemma {:induction false} ExpectedIsLast(items: seq<(Id, int)>, i: nat, id: Id)
    requires LastNamed(items, i, id)
    ensures id in ExpectedVersions(items) && ExpectedVersions(items)[id] == items[i].1
  {
    var n := |items| - 1;
    if i < n {
      assert items[n].0 != id;
      ExpectedIsLast(items[..n], i, id);
    }
  }

  /** The batch names row `i` once, at its current version, and its status may become the target. */
  ghost predicate ItemFits(table: Table, items: seq<(Id, int)>, target: ProductStatus, i: nat)
    requires i < |items|
  {
    && (forall k :: 0 <= k < |items| && k != i ==> items[k].0 != items[i].0)
    && items[i].0 in table && table[items[i].0].version == items[i].1
    && table[items[i].0].status != Penalized && table[items[i].0].status != target
  }

  /** The first reason that applies to the row named at position `i`. */
  ghost predicate ReasonIs(table: Table, items: seq<(Id, int)>, target: ProductStatus, i: nat, reason: Reason)
    requires i < |items|
  {
    var id := items[i].0;
    var alone := forall k :: 0 <= k < |items| && k != i ==> items[k].0 != id;
    match reason
    case DuplicateProductId => !alone
    case NotFound => alone && id !in table
    case VersionConflict => alone && id in table && table[id].version != items[i].1
    case IllegalTransition =>
      && alone && id in table && table[id].version == items[i].1
      && (table[id].status == Penalized || table[id].status == target)
  }

  /** Each named row fails for the first reason that applies, and for none exactly if it fits. */
  lemma ReasonsAre(table: Table, items: seq<(Id, int)>, target: ProductStatus, i: nat)
    requires i < |items|
    ensures Judged(table, items, target, i, BatchReasons(table, items, target))
  {
    var id := items[i].0;
    assert id in NamedIds(items);
    if forall k :: 0 <= k < |items| && k != i ==> items[k].0 != id {
      assert LastNamed(items, i, id) && !Duplicated(items, id);
      ExpectedIsLast(items, i, id);
      if id in table {
        AllowedIff(table[id].status, target);
      }
    } else {
      var k :| 0 <= k < |items| && k != i && items[k].0 == id;
      assert Duplicated(items, id);
    }
  }

  /** The row named at position `i` is in the failure map for the first reason that applies, exactly if it does not fit. */
  ghost predicate Judged(table: Table, items: seq<(Id, int)>, target: ProductStatus, i: nat, reasons: map<Id, Reason>)
    requires i < |items|
  {
    && (items[i].0 in reasons <==> !ItemFits(table, items, target, i))
    && (items[i].0 in reasons ==> ReasonIs(table, items, target, i, reasons[items[i].0]))
  }

  /** No reason names a row that the batch does not. */
  lemma ReasonsNameItems(table: Table, items: seq<(Id, int)>, target: ProductStatus, id: Id)
    requires id in BatchReasons(table, items, target)
    ensures exists i :: 0 <= i < |items| && items[i].0 == id
  {
  }

  /** Every named row has the target status, one version up, and its other columns as before. */
  ghost predicate StatusSet(before: Table, after: Table, items: seq<(Id, int)>, target: ProductStatus) {
    && OthersStay(before, after, set i | 0 <= i < |items| :: items[i].0) && after.Keys == before.Keys
    && forall i :: 0 <= i < |items| ==> RowMoved(before, after, items[i].0, items[i].1, target)
  }

  ghost predicate RowMoved(before: Table, after: Table, id: Id, expected: int, target: ProductStatus) {
    && id in before && id in after
    && after[id].status == target && before[id].version == expected && after[id].version == expected + 1
    && after[id].ptype == before[id].ptype && after[id].schemaVersion == before[id].schemaVersion
    && after[id].attributes == before[id].attributes && after[id].images == before[id].images
    && after[id].content == before[id].content
  }

  lemma BatchIs(table: Table, items: seq<(Id, int)>, target: ProductStatus)
    requires BatchReasons(table, items, target) == map[]
    ensures StatusSet(table, Moved(table, NamedIds(items), target), items, target)
  {
    var after := Moved(table, NamedIds(items), target);
    forall i | 0 <= i < |items|
      ensures RowMoved(table, after, items[i].0, items[i].1, target)
    {
      ReasonsAre(table, items, target, i);
      assert items[i].0 in NamedIds(items);
    }
  }

  // ------------------------------------------------------------------------- templates

  /** A template is added for a positive version that is new, and active only where none is. */
  lemma TemplateIs(lib: Lib, s: State, ptype: ProductType, version: int, schema: Schema, active: bool)
    ensures var r := Apply(lib, s, AddSchema(ptype, version, schema, active));
      && (r.Ok? <==> version >= 1 && (ptype, version) !in s.schemas && !(active && ptype in s.active))
      && (r.Ok? ==> TemplateAdded(s, r.value, ptype, version, schema, active))
  {
  }

  /** One schema more, active if so asked; no row and no other schema touched. */
  ghost predicate TemplateAdded(before: State, after: State, ptype: ProductType, version: int, schema: Schema, active: bool) {
    && after.table == before.table
    && (forall k :: Lookup(after.schemas, k) == if k == (ptype, version) then Some(schema) else Lookup(before.schemas, k))
    && (forall t :: Lookup(after.active, t) == if active && t == ptype then Some(version) else Lookup(before.active, t))
  }
}
