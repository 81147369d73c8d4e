/**
 The management service over one session: repository statements change the session's
 working state, and each service call ends in a commit or a rollback.
 */
module Service {
  import opened Wrappers
  import opened Domain
  import opened FieldSchema
  import opened Catalog
  import opened Requests
  import Attributes

  /** Ids in ascending order, as `ORDER BY id` returns them. */
  function SortedIds(ids: set<Id>): (r: seq<Id>)
    ensures forall i, j :: 0 <= i < j < |r| ==> r[i] < r[j]
    ensures forall id :: id in r <==> id in ids
  {
    if ids == {} then []
    else
      var m := Greatest(ids);
      SortedIds(ids - {m}) + [m]
  }

  function Greatest(ids: set<Id>): (m: Id)
    requires ids != {}
    ensures m in ids && forall id :: id in ids ==> id <= m
  {
    HasGreatest(ids);
    var m :| m in ids && forall id :: id in ids ==> id <= m;
    m
  }

  lemma {:induction false} HasGreatest(ids: set<Id>)
    requires ids != {}
    ensures exists m :: m in ids && forall id :: id in ids ==> id <= m
  {
    var x :| x in ids;
    var rest := ids - {x};
    assert forall id :: id in ids <==> id in rest || id == x;
    if rest == {} {
      assert x in ids && forall id :: id in ids ==> id <= x;
    } else {
      HasGreatest(rest);
      var m :| m in rest && forall id :: id in rest ==> id <= m;
      var top := if m <= x then x else m;
      assert top in ids && forall id :: id in ids ==> id <= top;
    }
  }

  ghost function Elements(ids: seq<Id>): set<Id> {
    set id | id in ids
  }

  class ProductService {
    const lib: Lib
    var committed: State
    var working: State

    constructor (lib: Lib)
      ensures committed == working == EMPTY && this.lib == lib
    {
      this.lib := lib;
      committed, working := EMPTY, EMPTY;
    }

    method Commit()
      modifies this`committed
      ensures committed == working
    {
      committed := working;
    }

    method Rollback()
      modifies this`working
      ensures working == committed
    {
      working := committed;
    }

    // ------------------------------------------------------------ repository statements

    method CountKinds(images: seq<Image>) returns (ok: bool)
      ensures ok <==> ImagesOk(images)
      ensures ok <==> |ImagesAt(images, Main)| == 1 && |ImagesAt(images, Gallery)| <= 5
    {
      ImagesOkIff(images);
      var main, gallery := 0, 0;
      for i := 0 to |images|
        invariant main == CountKind(images[..i], Main) && gallery == CountKind(images[..i], Gallery)
      {
        assert images[..i + 1][..i] == images[..i];
        if images[i].kind == Main {
          main := main + 1;
        } else {
          gallery := gallery + 1;
        }
      }
      assert images[..|images|] == images;
      return main == 1 && gallery <= 5;
    }

    /** The first loop of a batch: ids that were named before. */
    method FindDuplicates(items: seq<(Id, int)>) returns (failures: map<Id, Reason>)
      ensures forall id :: id in failures <==> id in NamedIds(items) && Duplicated(items, id)
      ensures forall id :: id in failures ==> failures[id] == DuplicateProductId
    {
      var seen: set<Id> := {};
      failures := map[];
      for i := 0 to |items|
        invariant forall id :: id in seen <==> exists k :: 0 <= k < i && items[k].0 == id
        invariant forall id :: id in failures <==> exists k, l :: 0 <= k < l < i && items[k].0 == id && items[l].0 == id
        invariant forall id :: id in failures ==> failures[id] == DuplicateProductId
      {
        var id := items[i].0;
        if id in seen {
          failures := failures[id := DuplicateProductId];
        }
        seen := seen + {id};
      }
    }

    /** The second loop: ids no locked row carries, unless they failed already. */
    method AddMissing(ids: set<Id>, found: set<Id>, before: map<Id, Reason>) returns (failures: map<Id, Reason>)
      requires before.Keys <= ids
      ensures failures.Keys == before.Keys + (ids - found)
      ensures forall id :: id in failures ==> failures[id] == if id in before then before[id] else NotFound
    {
      failures := before;
      var missing := ids - found;
      while missing != {}
        invariant missing <= ids - found
        invariant failures.Keys == before.Keys + (ids - found - missing)
        invariant forall id :: id in failures ==> failures[id] == if id in before then before[id] else NotFound
        decreases missing
      {
        var id :| id in missing;
        if id !in failures {
          failures := failures[id := NotFound];
        }
        missing := missing - {id};
      }
    }

    /** The body of the third loop. */
    method CheckRow(p: Product, expected: int, target: ProductStatus) returns (reason: Option<Reason>)
      ensures reason == RowFails(p, expected, target)
    {
      if p.version != expected {
        return Some(VersionConflict);
      }
      var checked := AssertTransition(p.status, target);
      reason := if checked.Err? then Some(IllegalTransition) else None;
    }

    /** The third loop: the locked rows' versions and transitions. */
    method CheckRows(rows: seq<Id>, expected: map<Id, int>, target: ProductStatus, before: map<Id, Reason>)
      returns (failures: map<Id, Reason>)
      requires RowsKnown(working.table, expected, rows)
      ensures forall id :: Lookup(failures, id) == AfterRows(before, working.table, expected, target, rows, id)
    {
      failures := before;
      for i := 0 to |rows|
        invariant forall id :: Lookup(failures, id) == AfterRows(before, working.table, expected, target, rows[..i], id)
      {
        var id := rows[i];
        OneMoreRow(before, working.table, expected, target, rows, i, failures);
        if id !in failures {
          var reason := CheckRow(working.table[id], expected[id], target);
          if reason.Some? {
            failures := failures[id := reason.value];
          }
        }
      }
      assert rows[..|rows|] == rows;
    }

    /** The last loop: every row moves to the target, one version up. */
    method MoveRows(rows: seq<Id>, target: ProductStatus)
      requires forall i :: 0 <= i < |rows| ==> rows[i] in working.table
      requires forall i, j :: 0 <= i < j < |rows| ==> rows[i] < rows[j]
      modifies this`working
      ensures working == old(working).(table := Moved(old(working.table), Elements(rows), target))
    {
      ghost var before := working.table;
      for i := 0 to |rows|
        invariant working == old(working).(table := Moved(before, Elements(rows[..i]), target))
      {
        var id := rows[i];
        OneMoreMoved(before, rows, i, target);
        working := working.(table := working.table[id := working.table[id].(status := target, version := working.table[id].version + 1)]);
      }
      assert rows[..|rows|] == rows;
    }

    /** The statement's rows, and the failures the three loops find. */
    method ValidateBatch(items: seq<(Id, int)>, target: ProductStatus) returns (rows: seq<Id>, failures: map<Id, Reason>)
      ensures failures == BatchReasons(working.table, items, target)
      ensures rows == SortedIds(Found(working.table, NamedIds(items)))
    {
      var duplicates := FindDuplicates(items);
      var expected := ExpectedVersions(items);
      var found := Found(working.table, expected.Keys);
      rows := SortedIds(found);
      var unusable := AddMissing(expected.Keys, found, duplicates);
      failures := CheckRows(rows, expected, target, unusable);
      FailuresAreReasons(working.table, items, target, duplicates, unusable, rows, failures);
    }

    /**
     A batch status change: the failure map is exactly the declarative one, and the
     rows move only when it is empty.
     */
    method BatchUpdateStatus(items: seq<(Id, int)>, target: ProductStatus) returns (r: Result<seq<Id>, map<Id, Reason>>)
      modifies this`working
      ensures var reasons := BatchReasons(old(working.table), items, target);
        if reasons == map[] then
          r == Ok(SortedIds(NamedIds(items)))
          && working == old(working).(table := Moved(old(working.table), NamedIds(items), target))
        else
          r == Err(reasons) && working == old(working)
      ensures r.Ok? ==> StatusSet(old(working.table), working.table, items, target)
      ensures r.Err? ==> forall i :: 0 <= i < |items| ==> Judged(old(working.table), items, target, i, r.error)
    {
      forall i | 0 <= i < |items|
        ensures Judged(working.table, items, target, i, BatchReasons(working.table, items, target))
      {
        ReasonsAre(working.table, items, target, i);
      }
      var rows, failures := ValidateBatch(items, target);
      if failures != map[] {
        return Err(failures);
      }
      AllFound(working.table, items, target);
      assert forall i :: 0 <= i < |rows| ==> rows[i] in Found(working.table, NamedIds(items));
      BatchIs(working.table, items, target);
      MoveRows(rows, target);
      return Ok(rows);
    }

    /** The compare-and-set UPDATE: it matches id and version, or says which of the two is wrong. */
    method UpdateRow(id: Id, expected: int, attributes: Fields, content: string) returns (r: Result<Product, Failure>)
      modifies this`working
      ensures if id in old(working.table) && old(working.table)[id].version == expected then
          var p := old(working.table)[id];
          var q := p.(attributes := attributes, content := content, version := p.version + 1);
          r == Ok(q) && working == old(working).(table := old(working.table)[id := q])
        else
          r == Err(if id in old(working.table) then StaleVersion else ProductNotFound) && working == old(working)
    {
      if id in working.table && working.table[id].version == expected {
        var q := working.table[id].(attributes := attributes, content := content, version := working.table[id].version + 1);
        working := working.(table := working.table[id := q]);
        return Ok(q);
      }
      return Err(if id in working.table then StaleVersion else ProductNotFound);
    }

    method ReplaceImages(id: Id, images: seq<Image>) returns (r: Result<(), Failure>)
      requires id in working.table
      modifies this`working
      ensures if ImagesOk(images) then
          r == Ok(()) && working == old(working).(table := old(working.table)[id := old(working.table)[id].(images := images)])
        else
          r == Err(InvalidImages) && working == old(working)
      ensures r.Ok? <==> |ImagesAt(images, Main)| == 1 && |ImagesAt(images, Gallery)| <= 5
    {
      var ok := CountKinds(images);
      if !ok {
        return Err(InvalidImages);
      }
      working := working.(table := working.table[id := working.table[id].(images := images)]);
      return Ok(());
    }

    method CreateWithImages(id: Id, p: Product) returns (r: Result<(), Failure>)
      modifies this`working
      ensures if !ImagesOk(p.images) then r == Err(InvalidImages) && working == old(working)
        else if id in old(working.table) then r == Err(ProductConflict) && working == old(working)
        else r == Ok(()) && working == old(working).(table := old(working.table)[id := p.(version := 1)])
      ensures r == Err(InvalidImages) <==> !(|ImagesAt(p.images, Main)| == 1 && |ImagesAt(p.images, Gallery)| <= 5)
    {
      var ok := CountKinds(p.images);
      if !ok {
        return Err(InvalidImages);
      }
      if id in working.table {
        return Err(ProductConflict);
      }
      working := working.(table := working.table[id := p.(version := 1)]);
      return Ok(());
    }

    // ------------------------------------------------------------ service calls

    /** Between calls nothing is pending and the catalog is sane. */
    ghost predicate Valid()
      reads this
    {
      committed == working && Sane(lib, committed)
    }

    method CheckAttributes(schema: Schema, attributes: Fields) returns (ok: bool, fields: map<string, seq<string>>)
      ensures ok <==> Satisfies(lib, schema, Obj(attributes))
      ensures !ok ==> Explains(lib, schema, attributes, fields)
    {
      var report := Attributes.ValidateAttributes(lib, schema, attributes);
      Attributes.EmptyIffValid(lib, schema, attributes, report);
      fields := Attributes.GroupByField(report);
      ok := report == [];
    }

    method Create(id: Id, p: Product) returns (r: Result<(), Failure>, fields: map<string, seq<string>>)
      requires Valid()
      modifies this
      ensures Valid()
      ensures if p.ptype !in old(committed.active) || old(committed.active)[p.ptype] != p.schemaVersion
        then r == Err(SchemaVersionConflict) && committed == old(committed)
        else Settled(lib, old(committed), committed, Op.Create(id, p), r)
      ensures r.Ok? ==> Created(old(committed.table), committed.table, id, p)
      ensures r == Err(InvalidAttributes) ==> Explains(lib, old(committed.schemas)[(p.ptype, p.schemaVersion)], p.attributes, fields)
    {
      fields := map[];
      if p.ptype !in working.active || working.active[p.ptype] != p.schemaVersion {
        return Err(SchemaVersionConflict), fields;
      }
      var schema := working.schemas[(p.ptype, p.schemaVersion)];
      var ok, errors := CheckAttributes(schema, p.attributes);
      if !ok {
        return Err(InvalidAttributes), errors;
      }
      r := CreateWithImages(id, p);
      if r.Ok? {
        ApplyKeepsSane(lib, old(committed), Op.Create(id, p));
        CreationIs(lib, old(committed), id, p);
        Commit();
      } else {
        Rollback();
      }
    }

    /** The two statements of an edit, uncommitted. */
    method WriteEdit(id: Id, expected: int, change: Change) returns (r: Result<(), Failure>)
      requires id in working.table
      modifies this`working
      ensures var p := old(working.table)[id];
        if p.version != expected then r == Err(StaleVersion)
        else if !ImagesOk(change.images) then r == Err(InvalidImages)
        else r == Ok(()) && working == old(working).(table := old(working.table)[id := Edited(p, change)])
    {
      var updated := UpdateRow(id, expected, change.attributes, change.content);
      if updated.Err? {
        return Err(updated.error);
      }
      r := ReplaceImages(id, change.images);
    }

    method Update(id: Id, expected: int, schemaVersion: int, change: Change)
      returns (r: Result<(), Failure>, fields: map<string, seq<string>>)
      requires Valid()
      modifies this
      ensures Valid()
      ensures Settled(lib, old(committed), committed, Op.Edit(id, expected, schemaVersion, change), r)
      ensures r.Ok? ==> Rewritten(old(committed.table), committed.table, id, expected, change)
      ensures r == Err(InvalidAttributes) ==>
        Explains(lib, old(committed.schemas)[(old(committed.table)[id].ptype, schemaVersion)], change.attributes, fields)
    {
      fields := map[];
      if id !in working.table {
        return Err(ProductNotFound), fields;
      }
      var existing := working.table[id];
      if (existing.ptype, existing.schemaVersion) !in working.schemas || schemaVersion != existing.schemaVersion {
        return Err(SchemaVersionConflict), fields;
      }
      var ok, errors := CheckAttributes(working.schemas[(existing.ptype, schemaVersion)], change.attributes);
      if !ok {
        return Err(InvalidAttributes), errors;
      }
      r := WriteEdit(id, expected, change);
      if r.Ok? {
        ApplyKeepsSane(lib, old(committed), Op.Edit(id, expected, schemaVersion, change));
        EditIs(lib, old(committed), id, expected, schemaVersion, change);
        Commit();
      } else {
        Rollback();
      }
    }

    method BatchStatus(items: seq<(Id, int)>, target: ProductStatus) returns (r: Result<(), Failure>)
      requires Valid()
      modifies this
      ensures Valid()
      ensures Settled(lib, old(committed), committed, Op.SetStatus(items, target), r)
      ensures r.Ok? ==> StatusSet(old(committed.table), committed.table, items, target)
    {
      var updated := BatchUpdateStatus(items, target);
      if updated.Ok? {
        ApplyKeepsSane(lib, old(committed), Op.SetStatus(items, target));
        Commit();
        r := Ok(());
      } else {
        Rollback();
        r := Err(BatchFailures(updated.error));
      }
    }

    /** One product's status change is a batch of one. */
    method UpdateStatus(id: Id, version: int, target: ProductStatus) returns (r: Result<(), Failure>)
      requires Valid()
      modifies this
      ensures Valid()
      ensures Settled(lib, old(committed), committed, Op.SetStatus([(id, version)], target), r)
      ensures r.Ok? ==> RowMoved(old(committed.table), committed.table, id, version, target)
    {
      r := BatchStatus([(id, version)], target);
      assert [(id, version)][0] == (id, version);
    }

    /** The repository's template insert, committed by its caller. */
    method CreateSchema(ptype: ProductType, version: int, schema: Schema, active: bool) returns (r: Result<(), Failure>)
      requires Valid()
      modifies this
      ensures Valid()
      ensures Settled(lib, old(committed), committed, Op.AddSchema(ptype, version, schema, active), r)
      ensures r.Ok? <==>
        version >= 1 && (ptype, version) !in old(committed.schemas) && !(active && ptype in old(committed.active))
      ensures r.Ok? ==> TemplateAdded(old(committed), committed, ptype, version, schema, active)
    {
      TemplateIs(lib, committed, ptype, version, schema, active);
      if version < 1 || (ptype, version) in working.schemas || (active && ptype in working.active) {
        return Err(SchemaConflict);
      }
      ApplyKeepsSane(lib, committed, Op.AddSchema(ptype, version, schema, active));
      working := working.(schemas := working.schemas[(ptype, version) := schema],
                          active := if active then working.active[ptype := version] else working.active);
      Commit();
      return Ok(());
    }
  }

  /** A failing call leaves the committed catalog alone; a succeeding one commits what the operation does alone. */
  ghost predicate Settled(lib: Lib, before: State, after: State, op: Op, r: Result<(), Failure>) {
    match Apply(lib, before, op)
    case Ok(s) => r == Ok(()) && after == s
    case Err(e) => r == Err(e) && after == before
  }

  /** The grouped messages of a canonical report on these attributes. */
  ghost predicate Explains(lib: Lib, schema: Schema, attributes: Fields, fields: map<string, seq<string>>) {
    exists report ::
      Attributes.Report(lib, Errors(lib, schema, Obj(attributes), []), report) && report != [] && Attributes.GroupedBy(fields, report)
  }

  lemma OneMoreRow(before: map<Id, Reason>, table: Table, expected: map<Id, int>, target: ProductStatus, rows: seq<Id>, i: nat,
                   failures: map<Id, Reason>)
    requires i < |rows| && RowsKnown(table, expected, rows)
    requires RowsKnown(table, expected, rows[..i])
    requires forall id :: Lookup(failures, id) == AfterRows(before, table, expected, target, rows[..i], id)
    ensures RowsKnown(table, expected, rows[..i + 1])
    ensures var reason := RowFails(table[rows[i]], expected[rows[i]], target);
      var failures' := if rows[i] !in failures && reason.Some? then failures[rows[i] := reason.value] else failures;
      forall id :: Lookup(failures', id) == AfterRows(before, table, expected, target, rows[..i + 1], id)
  {
    var row := rows[i];
    assert rows[..i + 1] == rows[..i] + [row];
    assert forall x :: x in rows[..i + 1] <==> x in rows[..i] || x == row;
    var reason := RowFails(table[row], expected[row], target);
    var failures' := if row !in failures && reason.Some? then failures[row := reason.value] else failures;
    forall id
      ensures Lookup(failures', id) == AfterRows(before, table, expected, target, rows[..i + 1], id)
    {
      assert Lookup(failures, id) == AfterRows(before, table, expected, target, rows[..i], id);
    }
  }

  lemma OneMoreMoved(table: Table, rows: seq<Id>, i: nat, target: ProductStatus)
    requires i < |rows| && rows[i] in table
    requires forall k, l :: 0 <= k < l < |rows| ==> rows[k] < rows[l]
    ensures var row, moved := rows[i], Moved(table, Elements(rows[..i]), target);
      moved[row] == table[row]
      && Moved(table, Elements(rows[..i + 1]), target) == moved[row := table[row].(status := target, version := table[row].version + 1)]
  {
    assert rows[..i + 1] == rows[..i] + [rows[i]] && rows[i] !in rows[..i];
    assert Elements(rows[..i + 1]) == Elements(rows[..i]) + {rows[i]};
  }

  function RowFails(p: Product, expected: int, target: ProductStatus): Option<Reason> {
    if p.version != expected then Some(VersionConflict)
    else if !Allowed(p.status, target) then Some(IllegalTransition)
    else None
  }

  ghost predicate RowsKnown(table: Table, expected: map<Id, int>, rows: seq<Id>) {
    forall id :: id in rows ==> id in table && id in expected
  }

  /** What an id fails with after the third loop has seen these rows. */
  ghost function AfterRows(before: map<Id, Reason>, table: Table, expected: map<Id, int>, target: ProductStatus, rows: seq<Id>, id: Id)
    : Option<Reason>
    requires RowsKnown(table, expected, rows)
  {
    if id in before then Some(before[id])
    else if id in rows then RowFails(table[id], expected[id], target)
    else None
  }

  /** The ids of the statement that exist. */
  function Found(table: Table, ids: set<Id>): set<Id> {
    set id | id in ids && id in table
  }

  /** For one named id: duplicate before missing before the row's own faults. */
  lemma FailureIsReason(table: Table, items: seq<(Id, int)>, target: ProductStatus,
                        duplicates: map<Id, Reason>, unusable: map<Id, Reason>, rows: seq<Id>, id: Id)
    requires id in NamedIds(items)
    requires id in duplicates <==> Duplicated(items, id)
    requires id in duplicates ==> duplicates[id] == DuplicateProductId
    requires id in unusable <==> id in duplicates || id !in table
    requires id in unusable ==> unusable[id] == if id in duplicates then duplicates[id] else NotFound
    requires id in rows <==> id in table
    requires RowsKnown(table, ExpectedVersions(items), rows)
    ensures AfterRows(unusable, table, ExpectedVersions(items), target, rows, id) == WhyFails(table, items, target, id)
  {
  }

  /** The three loops together: each id fails with the first reason that applies to it. */
  lemma FailuresAreReasons(table: Table, items: seq<(Id, int)>, target: ProductStatus,
                           duplicates: map<Id, Reason>, unusable: map<Id, Reason>, rows: seq<Id>, failures: map<Id, Reason>)
    requires forall id :: id in duplicates <==> id in NamedIds(items) && Duplicated(items, id)
    requires forall id :: id in duplicates ==> duplicates[id] == DuplicateProductId
    requires unusable.Keys == duplicates.Keys + (NamedIds(items) - Found(table, NamedIds(items)))
    requires forall id :: id in unusable ==> unusable[id] == if id in duplicates then duplicates[id] else NotFound
    requires forall id :: id in rows <==> id in Found(table, NamedIds(items))
    requires RowsKnown(table, ExpectedVersions(items), rows)
    requires forall id :: Lookup(failures, id) == AfterRows(unusable, table, ExpectedVersions(items), target, rows, id)
    ensures failures == BatchReasons(table, items, target)
  {
    forall id
      ensures Lookup(failures, id) == Lookup(BatchReasons(table, items, target), id)
    {
      assert Lookup(failures, id) == AfterRows(unusable, table, ExpectedVersions(items), target, rows, id);
      if id in NamedIds(items) {
        FailureIsReason(table, items, target, duplicates, unusable, rows, id);
      }
    }
    SameLookups(failures, BatchReasons(table, items, target));
  }

  lemma SameLookups(a: map<Id, Reason>, b: map<Id, Reason>)
    requires forall id :: Lookup(a, id) == Lookup(b, id)
    ensures a == b
  {
    assert forall id :: id in a <==> Lookup(a, id).Some?;
    assert forall id :: id in b <==> Lookup(b, id).Some?;
    assert forall id :: id in a ==> Lookup(a, id) == Lookup(b, id);
  }

  lemma AllFound(table: Table, items: seq<(Id, int)>, target: ProductStatus)
    requires BatchReasons(table, items, target) == map[]
    ensures Found(table, NamedIds(items)) == NamedIds(items)
    ensures Elements(SortedIds(NamedIds(items))) == NamedIds(items)
  {
    forall id | id in NamedIds(items)
      ensures id in table
    {
      BatchMovesNamed(table, items, target, id);
    }
  }
}
