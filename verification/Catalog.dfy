/**
 The catalog as one committed state, and what each write operation does to it when it
 runs alone: the sequential meaning of `create`, `update`, `update_status`,
 `batch_status` and `create_schema`.
 */
module Catalog {
  import opened Wrappers
  import opened Domain
  import opened FieldSchema

  type Id = nat

  datatype ImageKind = Main | Gallery

  datatype Image = Image(kind: ImageKind, url: string, sortOrder: nat)

  /** A product row with its images; `content` stands for title, texts, price, stock, delivery and return rule. */
  datatype Product = Product(
    ptype: ProductType,
    schemaVersion: int,
    status: ProductStatus,
    version: int,
    attributes: Fields,
    images: seq<Image>,
    content: string)

  /** The columns an edit replaces: never the type, the schema version or the status. */
  datatype Change = Change(attributes: Fields, images: seq<Image>, content: string)

  type Table = map<Id, Product>

  type SchemaKey = (ProductType, int)

  datatype State = State(table: Table, schemas: map<SchemaKey, Schema>, active: map<ProductType, int>)

  const EMPTY := State(map[], map[], map[])

  datatype Reason = DuplicateProductId | NotFound | VersionConflict | IllegalTransition

  datatype Failure =
    | ProductNotFound
    | StaleVersion
    | SchemaVersionConflict
    | InvalidAttributes
    | InvalidImages
    | ProductConflict
    | SchemaConflict
    | BatchFailures(failures: map<Id, Reason>)

  datatype Op =
    | Create(id: Id, product: Product)
    | Edit(id: Id, expected: int, schemaVersion: int, change: Change)
    | SetStatus(items: seq<(Id, int)>, target: ProductStatus)
    | AddSchema(ptype: ProductType, version: int, schema: Schema, active: bool)
    | Activate(ptype: ProductType, version: int)

  // ------------------------------------------------------------------------- images

  function CountKind(images: seq<Image>, kind: ImageKind): nat {
    if images == [] then 0
    else CountKind(images[..|images| - 1], kind) + (if images[|images| - 1].kind == kind then 1 else 0)
  }

  predicate ImagesOk(images: seq<Image>) {
    CountKind(images, Main) == 1 && CountKind(images, Gallery) <= 5
  }

  /** The positions of the images of one kind. */
  ghost function ImagesAt(images: seq<Image>, kind: ImageKind): set<nat> {
    set i: nat | i < |images| && images[i].kind == kind
  }

  lemma {:induction false} CountIsSize(images: seq<Image>, kind: ImageKind)
    ensures CountKind(images, kind) == |ImagesAt(images, kind)|
  {
    if images != [] {
      var n := |images| - 1;
      CountIsSize(images[..n], kind);
      assert ImagesAt(images, kind) == ImagesAt(images[..n], kind) + (if images[n].kind == kind then {n} else {});
    }
  }

  /** Legal images: exactly one position holds a main image and at most five hold a gallery image. */
  lemma ImagesOkIff(images: seq<Image>)
    ensures ImagesOk(images) <==> |ImagesAt(images, Main)| == 1 && |ImagesAt(images, Gallery)| <= 5
  {
    CountIsSize(images, Main);
    CountIsSize(images, Gallery);
  }

  // ------------------------------------------------------------------------- batches

  function NamedIds(items: seq<(Id, int)>): set<Id> {
    set i | 0 <= i < |items| :: items[i].0
  }

  ghost predicate Duplicated(items: seq<(Id, int)>, id: Id) {
    exists i, j :: 0 <= i < j < |items| && items[i].0 == id && items[j].0 == id
  }

  /** `dict(items)`: the last version given for each id. */
  function ExpectedVersions(items: seq<(Id, int)>): (m: map<Id, int>)
    ensures m.Keys == NamedIds(items)
  {
    if items == [] then map[]
    else
      var n := |items| - 1;
      assert NamedIds(items) == NamedIds(items[..n]) + {items[n].0} by {
        assert forall i :: 0 <= i < n ==> items[..n][i] == items[i];
      }
      ExpectedVersions(items[..n])[items[n].0 := items[n].1]
  }

  /** Why an id named by a batch fails: the first reason that applies. */
  ghost function WhyFails(table: Table, items: seq<(Id, int)>, target: ProductStatus, id: Id): Option<Reason>
    requires id in NamedIds(items)
  {
    if Duplicated(items, id) then Some(DuplicateProductId)
    else if id !in table then Some(NotFound)
    else if table[id].version != ExpectedVersions(items)[id] then Some(VersionConflict)
    else if !Allowed(table[id].status, target) then Some(IllegalTransition)
    else None
  }

  ghost function BatchReasons(table: Table, items: seq<(Id, int)>, target: ProductStatus): map<Id, Reason> {
    map id | id in NamedIds(items) && WhyFails(table, items, target, id).Some? :: WhyFails(table, items, target, id).value
  }

  /** The named rows moved to the target, every other row as it was. */
  function Moved(table: Table, ids: set<Id>, target: ProductStatus): Table {
    map id | id in table :: if id in ids then table[id].(status := target, version := table[id].version + 1) else table[id]
  }

  function Edited(p: Product, c: Change): Product {
    p.(attributes := c.attributes, images := c.images, content := c.content, version := p.version + 1)
  }

  // ------------------------------------------------------------------------- one operation alone

  ghost predicate AttributesValid(lib: Lib, s: State, ptype: ProductType, version: int, attributes: Fields) {
    (ptype, version) in s.schemas && Satisfies(lib, s.schemas[(ptype, version)], Obj(attributes))
  }

  /** The state after a write operation that runs alone, or why it writes nothing. */
  ghost function Apply(lib: Lib, s: State, op: Op): Result<State, Failure> {
    match op
    case Create(id, p) =>
      if (p.ptype, p.schemaVersion) !in s.schemas then Err(SchemaVersionConflict)
      else if !AttributesValid(lib, s, p.ptype, p.schemaVersion, p.attributes) then Err(InvalidAttributes)
      else if !ImagesOk(p.images) then Err(InvalidImages)
      else if id in s.table then Err(ProductConflict)
      else Ok(s.(table := s.table[id := p.(version := 1)]))
    case Edit(id, expected, schemaVersion, change) =>
      if id !in s.table then Err(ProductNotFound)
      else if (s.table[id].ptype, s.table[id].schemaVersion) !in s.schemas || schemaVersion != s.table[id].schemaVersion then
        Err(SchemaVersionConflict)
      else if !AttributesValid(lib, s, s.table[id].ptype, schemaVersion, change.attributes) then Err(InvalidAttributes)
      else if s.table[id].version != expected then Err(StaleVersion)
      else if !ImagesOk(change.images) then Err(InvalidImages)
      else Ok(s.(table := s.table[id := Edited(s.table[id], change)]))
    case SetStatus(items, target) =>
      var reasons := BatchReasons(s.table, items, target);
      if reasons != map[] then Err(BatchFailures(reasons))
      else Ok(s.(table := Moved(s.table, NamedIds(items), target)))
    case AddSchema(ptype, version, schema, active) =>
      if version < 1 || (ptype, version) in s.schemas || (active && ptype in s.active) then Err(SchemaConflict)
      else Ok(s.(schemas := s.schemas[(ptype, version) := schema],
                 active := if active then s.active[ptype := version] else s.active))
    case Activate(ptype, version) =>
      if (ptype, version) !in s.schemas then Err(SchemaConflict)
      else Ok(s.(active := s.active[ptype := version]))
  }

  // ------------------------------------------------------------------------- every single step

  /** What one committed write may do to a product. */
  ghost predicate LegalChange(before: Option<Product>, after: Product) {
    match before
    case None => after.version == 1
    case Some(p) =>
      && after.version == p.version + 1
      && after.ptype == p.ptype
      && after.schemaVersion == p.schemaVersion
      && (after.status == p.status
          || (Allowed(p.status, after.status) && after == p.(status := after.status, version := after.version)))
  }

  /** Every product satisfies the schema it was published under and carries a legal set of images. */
  ghost predicate Sane(lib: Lib, s: State) {
    && (forall id :: id in s.table ==>
          && s.table[id].version >= 1
          && ImagesOk(s.table[id].images)
          && AttributesValid(lib, s, s.table[id].ptype, s.table[id].schemaVersion, s.table[id].attributes))
    && (forall t :: t in s.active ==> (t, s.active[t]) in s.schemas)
  }

  lemma BatchMovesNamed(table: Table, items: seq<(Id, int)>, target: ProductStatus, id: Id)
    requires BatchReasons(table, items, target) == map[] && id in NamedIds(items)
    ensures id in table && table[id].version == ExpectedVersions(items)[id] && Allowed(table[id].status, target)
    ensures !Duplicated(items, id)
  {
    assert WhyFails(table, items, target, id).Some? <==> id in BatchReasons(table, items, target);
  }

  /** One operation changes a product legally or not at all, removes none, and never unbinds a schema. */
  lemma ApplyIsLegal(lib: Lib, s: State, op: Op)
    requires Apply(lib, s, op).Ok?
    ensures var t := Apply(lib, s, op).value;
      && s.table.Keys <= t.table.Keys
      && (forall id :: id in t.table && Lookup(s.table, id) != Some(t.table[id]) ==> LegalChange(Lookup(s.table, id), t.table[id]))
      && (forall k :: k in s.schemas ==> k in t.schemas && t.schemas[k] == s.schemas[k])
  {
    if op.SetStatus? {
      forall id | id in NamedIds(op.items)
        ensures id in s.table && Allowed(s.table[id].status, op.target)
      {
        BatchMovesNamed(s.table, op.items, op.target, id);
      }
    }
  }

  /**
   Attributes stay valid against the schema version the product is bound to, whatever
   version is active, and image counts stay legal.
   */
  lemma ApplyKeepsSane(lib: Lib, s: State, op: Op)
    requires Sane(lib, s) && Apply(lib, s, op).Ok?
    ensures Sane(lib, Apply(lib, s, op).value)
  {
  }

  // ------------------------------------------------------------------------- sequential runs

  /** The operations one at a time from the empty catalog; an error if one of them writes nothing. */
  ghost function Replay(lib: Lib, log: seq<Op>): Result<State, Failure> {
    if log == [] then Ok(EMPTY)
    else match Replay(lib, log[..|log| - 1])
      case Err(e) => Err(e)
      case Ok(s) => Apply(lib, s, log[|log| - 1])
  }

  lemma {:induction false} ReplayPrefix(lib: Lib, log: seq<Op>, i: nat)
    requires Replay(lib, log).Ok? && i <= |log|
    ensures Replay(lib, log[..i]).Ok?
  {
    if i == |log| {
      assert log[..i] == log;
    } else {
      ReplayPrefix(lib, log[..|log| - 1], i);
      assert log[..|log| - 1][..i] == log[..i];
    }
  }

  /** The catalog after the first `i` operations. */
  ghost function At(lib: Lib, log: seq<Op>, i: nat): State
    requires Replay(lib, log).Ok? && i <= |log|
  {
    ReplayPrefix(lib, log, i);
    Replay(lib, log[..i]).value
  }

  lemma AtNext(lib: Lib, log: seq<Op>, i: nat)
    requires Replay(lib, log).Ok? && i < |log|
    ensures Apply(lib, At(lib, log, i), log[i]) == Ok(At(lib, log, i + 1))
  {
    ReplayPrefix(lib, log, i + 1);
    assert log[..i + 1][..i] == log[..i];
  }

  lemma {:induction false} EveryStateSane(lib: Lib, log: seq<Op>, i: nat)
    requires Replay(lib, log).Ok? && i <= |log|
    ensures Sane(lib, At(lib, log, i))
    ensures forall id :: id in At(lib, log, i).table ==> FitToPublish(lib, At(lib, log, i), At(lib, log, i).table[id])
  {
    if i > 0 {
      EveryStateSane(lib, log, i - 1);
      AtNext(lib, log, i - 1);
      ApplyKeepsSane(lib, At(lib, log, i - 1), log[i - 1]);
    }
    SaneIsFit(lib, At(lib, log, i));
  }

  /** The attributes satisfy the schema the product is bound to; one image is the main one, at most five are in the gallery. */
  ghost predicate FitToPublish(lib: Lib, s: State, p: Product) {
    && (p.ptype, p.schemaVersion) in s.schemas && Satisfies(lib, s.schemas[(p.ptype, p.schemaVersion)], Obj(p.attributes))
    && |ImagesAt(p.images, Main)| == 1 && |ImagesAt(p.images, Gallery)| <= 5
  }

  lemma SaneIsFit(lib: Lib, s: State)
    requires Sane(lib, s)
    ensures forall id :: id in s.table ==> FitToPublish(lib, s, s.table[id])
  {
    forall id | id in s.table
      ensures FitToPublish(lib, s, s.table[id])
    {
      ImagesOkIff(s.table[id].images);
    }
  }

  /** A product keeps its type and schema version for ever, and its version never goes back. */
  lemma {:induction false} BindingIsPermanent(lib: Lib, log: seq<Op>, i: nat, j: nat, id: Id)
    requires Replay(lib, log).Ok? && i <= j <= |log| && id in At(lib, log, i).table
    ensures id in At(lib, log, j).table
    ensures var p, q := At(lib, log, i).table[id], At(lib, log, j).table[id];
      q.ptype == p.ptype && q.schemaVersion == p.schemaVersion && p.version <= q.version
  {
    if i < j {
      BindingIsPermanent(lib, log, i, j - 1, id);
      AtNext(lib, log, j - 1);
      ApplyIsLegal(lib, At(lib, log, j - 1), log[j - 1]);
    }
  }

  /** The product ids an operation writes. */
  function Writes(op: Op): set<Id> {
    match op
    case Create(id, _) => {id}
    case Edit(id, _, _, _) => {id}
    case SetStatus(items, _) => NamedIds(items)
    case _ => {}
  }

  function CountWrites(log: seq<Op>, id: Id): nat {
    if log == [] then 0
    else CountWrites(log[..|log| - 1], id) + (if id in Writes(log[|log| - 1]) then 1 else 0)
  }

  lemma ApplyWrites(lib: Lib, s: State, op: Op, id: Id)
    requires Apply(lib, s, op).Ok?
    ensures var t := Apply(lib, s, op).value;
      if id in Writes(op) then
        id in t.table && t.table[id].version == (if id in s.table then s.table[id].version + 1 else 1)
      else Lookup(t.table, id) == Lookup(s.table, id)
  {
    if op.SetStatus? && id in NamedIds(op.items) {
      BatchMovesNamed(s.table, op.items, op.target, id);
    }
  }

  /** A product's version is the number of committed writes to it: one for its creation, one for every change. */
  lemma {:induction false} VersionCountsWrites(lib: Lib, log: seq<Op>, id: Id)
    requires Replay(lib, log).Ok?
    ensures var s := Replay(lib, log).value;
      if id in s.table then s.table[id].version == CountWrites(log, id) else CountWrites(log, id) == 0
  {
    if log != [] {
      var before := log[..|log| - 1];
      VersionCountsWrites(lib, before, id);
      ApplyWrites(lib, Replay(lib, before).value, log[|log| - 1], id);
    }
  }

  /** The version an operation must find on a row it writes. */
  ghost function Demands(op: Op, id: Id): Option<int>
    requires id in Writes(op)
  {
    match op
    case Create(_, _) => None
    case Edit(_, expected, _, _) => Some(expected)
    case SetStatus(items, _) => Some(ExpectedVersions(items)[id])
  }

  lemma ApplyMeetsDemand(lib: Lib, s: State, op: Op, id: Id)
    requires Apply(lib, s, op).Ok? && id in Writes(op) && Demands(op, id).Some?
    ensures id in s.table && s.table[id].version == Demands(op, id).value
  {
    if op.SetStatus? {
      BatchMovesNamed(s.table, op.items, op.target, id);
    }
  }

  /** No update is lost: of all operations that expect one version of one product, at most one ever commits. */
  lemma OneWriterPerVersion(lib: Lib, log: seq<Op>, i: nat, j: nat, id: Id)
    requires Replay(lib, log).Ok? && i < |log| && j < |log|
    requires id in Writes(log[i]) && id in Writes(log[j])
    requires Demands(log[i], id).Some? && Demands(log[i], id) == Demands(log[j], id)
    ensures i == j
  {
    if i != j {
      var a, b := if i < j then i else j, if i < j then j else i;
      AtNext(lib, log, a);
      AtNext(lib, log, b);
      ApplyMeetsDemand(lib, At(lib, log, a), log[a], id);
      ApplyMeetsDemand(lib, At(lib, log, b), log[b], id);
      ApplyWrites(lib, At(lib, log, a), log[a], id);
      BindingIsPermanent(lib, log, a + 1, b, id);
    }
  }

  /** The statuses a product has had, one for every committed write to it. */
  ghost function Statuses(lib: Lib, log: seq<Op>, id: Id): (ss: seq<ProductStatus>)
    requires Replay(lib, log).Ok?
  {
    if log == [] then []
    else
      var before := log[..|log| - 1];
      var s := Replay(lib, log).value;
      Statuses(lib, before, id) + (if id in Writes(log[|log| - 1]) && id in s.table then [s.table[id].status] else [])
  }

  /** A product's whole status history follows the transition relation. */
  lemma {:induction false} HistoryIsStatusPath(lib: Lib, log: seq<Op>, id: Id)
    requires Replay(lib, log).Ok?
    ensures StatusPath(Statuses(lib, log, id))
    ensures var s, ss := Replay(lib, log).value, Statuses(lib, log, id);
      if id in s.table then ss != [] && ss[|ss| - 1] == s.table[id].status else ss == []
  {
    if log != [] {
      var before, op := log[..|log| - 1], log[|log| - 1];
      var s := Replay(lib, before).value;
      HistoryIsStatusPath(lib, before, id);
      ApplyWrites(lib, s, op, id);
      ApplyIsLegal(lib, s, op);
    }
  }
}
