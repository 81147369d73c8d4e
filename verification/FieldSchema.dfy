/**
 Validation of a product's dynamic attributes: a recursive evaluator of JSON Schema
 Draft 2020-12, and the flattening of its errors into a canonical list.
 */
module FieldSchema {
  import opened Wrappers

  datatype Json =
    | Null
    | Bool(b: bool)
    | Num(n: int)
    | Str(s: string)
    | Arr(items: Items)
    | Obj(fields: Fields)

  datatype Items = NoItems | Item(head: Json, tail: Items)

  /** An object's members in insertion order. */
  datatype Fields = NoFields | Field(name: string, value: Json, rest: Fields)

  /** A schema is a boolean or an object of keywords. */
  datatype Schema = Always | Never | Object(keywords: Keywords)

  datatype Keywords = Done | Cons(head: Keyword, tail: Keywords)

  datatype Members = NoMembers | Member(name: string, schema: Schema, rest: Members)

  datatype Schemas = NoSchemas | OneOf(head: Schema, tail: Schemas)

  /** `Assertion` stands for the keywords that look at one value: type, enum, minimum, pattern, format, ... */
  datatype Keyword =
    | Assertion(name: string, value: Json)
    | Required(names: seq<string>)
    | Properties(members: Members)
    | PatternProperties(members: Members)
    | AdditionalProperties(schema: Schema)
    | PrefixItems(schemas: Schemas)
    | ItemsOf(schema: Schema)
    | AllOf(schemas: Schemas)
    | AnyOf(schemas: Schemas)
    | ExactlyOneOf(schemas: Schemas)
    | Not(schema: Schema)
    | Conditional(test: Schema, yes: Schema, no: Schema)   // if, then, else; an absent branch is Always

  /** What the model leaves to the libraries: single-value checks, pattern search and message texts. */
  datatype Lib = Lib(
    holds: (string, Json, Json) -> bool,
    complaint: (string, Json, Json) -> string,
    matches: (string, string) -> bool,
    repr: string -> string)

  datatype Step = Key(name: string) | Index(i: nat)

  type Path = seq<Step>

  datatype Validator = AdditionalV | RequiredV | OtherV

  /** A validation error as the evaluator yields it. */
  datatype RawError = RawError(validator: Validator, path: Path, instance: Json, schema: Keywords,
                               required: seq<string>, message: string)

  datatype FieldError = FieldError(path: Path, message: string)

  // ------------------------------------------------------------------------- instances

  predicate Has(fs: Fields, name: string) {
    fs.Field? && (fs.name == name || Has(fs.rest, name))
  }

  function Get(fs: Fields, name: string): Json
    requires Has(fs, name)
  {
    if fs.name == name then fs.value else Get(fs.rest, name)
  }

  function Nth(js: Items, i: nat): Option<Json> {
    match js
    case NoItems => None
    case Item(head, tail) => if i == 0 then Some(head) else Nth(tail, i - 1)
  }

  /** The value a path leads to. */
  function Resolve(j: Json, p: Path): Option<Json>
    decreases |p|
  {
    if p == [] then Some(j)
    else match p[0]
      case Key(name) => if j.Obj? && Has(j.fields, name) then Resolve(Get(j.fields, name), p[1..]) else None
      case Index(i) =>
        if j.Arr? && Nth(j.items, i).Some? then Resolve(Nth(j.items, i).value, p[1..]) else None
  }

  lemma {:induction false} ResolveOneMore(j: Json, p: Path, step: Step)
    requires Resolve(j, p).Some?
    ensures Resolve(j, p + [step]) == Resolve(Resolve(j, p).value, [step])
    decreases |p|
  {
    if p == [] {
      assert p + [step] == [step];
    } else {
      assert (p + [step])[1..] == p[1..] + [step];
      match p[0]
      case Key(name) => ResolveOneMore(Get(j.fields, name), p[1..], step);
      case Index(i) => ResolveOneMore(Nth(j.items, i).value, p[1..], step);
    }
  }

  // ------------------------------------------------------------------------- unknown fields

  predicate Listed(ms: Members, name: string) {
    ms.Member? && (ms.name == name || Listed(ms.rest, name))
  }

  predicate SomeMatch(lib: Lib, ms: Members, name: string) {
    ms.Member? && (lib.matches(ms.name, name) || SomeMatch(lib, ms.rest, name))
  }

  predicate Declared(ks: Keywords, name: string) {
    ks.Cons? && ((ks.head.Properties? && Listed(ks.head.members, name)) || Declared(ks.tail, name))
  }

  predicate Patterned(lib: Lib, ks: Keywords, name: string) {
    ks.Cons? && ((ks.head.PatternProperties? && SomeMatch(lib, ks.head.members, name)) || Patterned(lib, ks.tail, name))
  }

  predicate Unknown(lib: Lib, ks: Keywords, name: string) {
    !Declared(ks, name) && !Patterned(lib, ks, name)
  }

  /** The unknown members of an object, in its own order. */
  function Extras(lib: Lib, ks: Keywords, fs: Fields): seq<string> {
    match fs
    case NoFields => []
    case Field(name, _, rest) => (if Unknown(lib, ks, name) then [name] else []) + Extras(lib, ks, rest)
  }

  /** No two members of an object share a name. */
  predicate DistinctNames(fs: Fields) {
    fs.Field? ==> !Has(fs.rest, fs.name) && DistinctNames(fs.rest)
  }

  lemma {:induction false} ExtrasOnce(lib: Lib, ks: Keywords, fs: Fields, name: string)
    requires DistinctNames(fs)
    ensures multiset(Extras(lib, ks, fs))[name] <= 1
  {
    if fs.Field? {
      ExtrasOnce(lib, ks, fs.rest, name);
      ExtrasIff(lib, ks, fs.rest, fs.name);
    }
  }

  lemma {:induction false} ExtrasIff(lib: Lib, ks: Keywords, fs: Fields, name: string)
    ensures name in Extras(lib, ks, fs) <==> Has(fs, name) && Unknown(lib, ks, name)
  {
    if fs.Field? {
      ExtrasIff(lib, ks, fs.rest, name);
    }
  }

  // ------------------------------------------------------------------------- everything by position

  /** An object's members, an array's items, a schema's keywords and their parts, as sequences. */
  function FieldList(fs: Fields): seq<(string, Json)> {
    match fs
    case NoFields => []
    case Field(name, value, rest) => [(name, value)] + FieldList(rest)
  }

  function ItemList(js: Items): seq<Json> {
    match js
    case NoItems => []
    case Item(head, tail) => [head] + ItemList(tail)
  }

  function KeywordList(ks: Keywords): seq<Keyword> {
    match ks
    case Done => []
    case Cons(k, rest) => [k] + KeywordList(rest)
  }

  function MemberList(ms: Members): seq<(string, Schema)> {
    match ms
    case NoMembers => []
    case Member(name, schema, rest) => [(name, schema)] + MemberList(rest)
  }

  function SchemaList(subs: Schemas): seq<Schema> {
    match subs
    case NoSchemas => []
    case OneOf(head, tail) => [head] + SchemaList(tail)
  }

  /** The object's member at this position has this name. */
  predicate NamedAt(fs: Fields, i: nat, name: string) {
    i < |FieldList(fs)| && FieldList(fs)[i].0 == name
  }

  /** Keyword `i` is `properties` and its member `m` has this name. */
  predicate DeclaredAt(ks: Keywords, i: nat, m: nat, name: string) {
    && i < |KeywordList(ks)| && KeywordList(ks)[i].Properties?
    && m < |MemberList(KeywordList(ks)[i].members)| && MemberList(KeywordList(ks)[i].members)[m].0 == name
  }

  /** Keyword `i` is `patternProperties` and its pattern `m` matches this name. */
  predicate PatternedAt(lib: Lib, ks: Keywords, i: nat, m: nat, name: string) {
    && i < |KeywordList(ks)| && KeywordList(ks)[i].PatternProperties?
    && m < |MemberList(KeywordList(ks)[i].members)| && lib.matches(MemberList(KeywordList(ks)[i].members)[m].0, name)
  }

  /** No sibling keyword says anything of a member of this name. */
  ghost predicate NobodyNames(lib: Lib, ks: Keywords, name: string) {
    && (forall i: nat, m: nat :: !DeclaredAt(ks, i, m, name))
    && (forall i: nat, m: nat :: !PatternedAt(lib, ks, i, m, name))
  }

  lemma {:induction false} HasIff(fs: Fields, name: string)
    ensures Has(fs, name) <==> exists i: nat :: NamedAt(fs, i, name)
  {
    if fs.Field? {
      HasIff(fs.rest, name);
      assert fs.name == name ==> NamedAt(fs, 0, name);
      if i: nat :| NamedAt(fs.rest, i, name) {
        assert NamedAt(fs, i + 1, name);
      }
      if i: nat :| NamedAt(fs, i, name) {
        assert i == 0 || NamedAt(fs.rest, i - 1, name);
      }
    }
  }

  /** A member's value stands at the first position of its name. */
  lemma {:induction false} GetIsFirst(fs: Fields, name: string) returns (i: nat)
    requires Has(fs, name)
    ensures NamedAt(fs, i, name) && FieldList(fs)[i].1 == Get(fs, name)
    ensures forall k: nat :: k < i ==> !NamedAt(fs, k, name)
  {
    if fs.name == name {
      i := 0;
    } else {
      var k := GetIsFirst(fs.rest, name);
      i := k + 1;
      forall l: nat | l < i
        ensures !NamedAt(fs, l, name)
      {
        assert l > 0 ==> !NamedAt(fs.rest, l - 1, name);
      }
    }
  }

  lemma {:induction false} NthIsItem(js: Items, i: nat)
    ensures Nth(js, i) == if i < |ItemList(js)| then Some(ItemList(js)[i]) else None
  {
    if js.Item? && i > 0 {
      NthIsItem(js.tail, i - 1);
    }
  }

  predicate ListedAt(ms: Members, m: nat, name: string) {
    m < |MemberList(ms)| && MemberList(ms)[m].0 == name
  }

  lemma {:induction false} ListedIff(ms: Members, name: string)
    ensures Listed(ms, name) <==> exists m: nat :: ListedAt(ms, m, name)
  {
    if ms.Member? {
      ListedIff(ms.rest, name);
      assert ms.name == name ==> ListedAt(ms, 0, name);
      if m: nat :| ListedAt(ms.rest, m, name) {
        assert ListedAt(ms, m + 1, name);
      }
      if m: nat :| ListedAt(ms, m, name) {
        assert m == 0 || ListedAt(ms.rest, m - 1, name);
      }
    }
  }

  predicate MatchAt(lib: Lib, ms: Members, m: nat, name: string) {
    m < |MemberList(ms)| && lib.matches(MemberList(ms)[m].0, name)
  }

  lemma {:induction false} SomeMatchIff(lib: Lib, ms: Members, name: string)
    ensures SomeMatch(lib, ms, name) <==> exists m: nat :: MatchAt(lib, ms, m, name)
  {
    if ms.Member? {
      SomeMatchIff(lib, ms.rest, name);
      assert lib.matches(ms.name, name) ==> MatchAt(lib, ms, 0, name);
      if m: nat :| MatchAt(lib, ms.rest, m, name) {
        assert MatchAt(lib, ms, m + 1, name);
      }
      if m: nat :| MatchAt(lib, ms, m, name) {
        assert m == 0 || MatchAt(lib, ms.rest, m - 1, name);
      }
    }
  }

  /** A name is declared if and only if some `properties` keyword carries it at some position. */
  lemma {:induction false} DeclaredIff(ks: Keywords, name: string)
    ensures Declared(ks, name) <==> exists i: nat, m: nat :: DeclaredAt(ks, i, m, name)
  {
    if ks.Cons? {
      DeclaredIff(ks.tail, name);
      if ks.head.Properties? {
        ListedIff(ks.head.members, name);
        if m: nat :| ListedAt(ks.head.members, m, name) {
          assert DeclaredAt(ks, 0, m, name);
        }
      }
      if i: nat, m: nat :| DeclaredAt(ks.tail, i, m, name) {
        assert DeclaredAt(ks, i + 1, m, name);
      }
      if i: nat, m: nat :| DeclaredAt(ks, i, m, name) {
        assert if i == 0 then ListedAt(ks.head.members, m, name) else DeclaredAt(ks.tail, i - 1, m, name);
      }
    }
  }

  /** A name is patterned if and only if some pattern of some `patternProperties` keyword matches it. */
  lemma {:induction false} PatternedIff(lib: Lib, ks: Keywords, name: string)
    ensures Patterned(lib, ks, name) <==> exists i: nat, m: nat :: PatternedAt(lib, ks, i, m, name)
  {
    if ks.Cons? {
      PatternedIff(lib, ks.tail, name);
      if ks.head.PatternProperties? {
        SomeMatchIff(lib, ks.head.members, name);
        if m: nat :| MatchAt(lib, ks.head.members, m, name) {
          assert PatternedAt(lib, ks, 0, m, name);
        }
      }
      if i: nat, m: nat :| PatternedAt(lib, ks.tail, i, m, name) {
        assert PatternedAt(lib, ks, i + 1, m, name);
      }
      if i: nat, m: nat :| PatternedAt(lib, ks, i, m, name) {
        assert if i == 0 then MatchAt(lib, ks.head.members, m, name) else PatternedAt(lib, ks.tail, i - 1, m, name);
      }
    }
  }

  lemma UnknownIff(lib: Lib, ks: Keywords, name: string)
    ensures Unknown(lib, ks, name) <==> NobodyNames(lib, ks, name)
  {
    DeclaredIff(ks, name);
    PatternedIff(lib, ks, name);
  }

  /** The unknown members: at some position of the object, declared at no position and matched at none. */
  lemma ExtrasAreUnknown(lib: Lib, ks: Keywords, fs: Fields, name: string)
    ensures name in Extras(lib, ks, fs) <==> (exists i: nat :: NamedAt(fs, i, name)) && NobodyNames(lib, ks, name)
  {
    ExtrasIff(lib, ks, fs, name);
    HasIff(fs, name);
    UnknownIff(lib, ks, name);
  }

  // ------------------------------------------------------------------------- items by position

  function Length(subs: Schemas): nat {
    if subs.OneOf? then 1 + Length(subs.tail) else 0
  }

  /** How many items the sibling `prefixItems` takes. */
  function PrefixLength(ks: Keywords): nat {
    match ks
    case Done => 0
    case Cons(k, rest) => if k.PrefixItems? then Length(k.schemas) else PrefixLength(rest)
  }

  function Dropped(js: Items, n: nat): Items {
    if n == 0 || js.NoItems? then js else Dropped(js.tail, n - 1)
  }

  /** The items `items` is about. */
  function Rest(ks: Keywords, js: Items): Items {
    Dropped(js, PrefixLength(ks))
  }

  lemma {:induction false} DroppedHead(js: Items, n: nat)
    requires Dropped(js, n).Item?
    ensures Nth(js, n) == Some(Dropped(js, n).head) && Dropped(js, n + 1) == Dropped(js, n).tail
  {
    if n > 0 {
      DroppedHead(js.tail, n - 1);
    }
  }

  // ------------------------------------------------------------------------- the evaluator

  function Errors(lib: Lib, s: Schema, j: Json, at: Path): seq<RawError>
    decreases s, 0
  {
    match s
    case Always => []
    case Never => [RawError(OtherV, at, j, Done, [], lib.complaint("false", Null, j))]
    case Object(ks) => KeywordErrors(lib, ks, ks, j, at)
  }

  function KeywordErrors(lib: Lib, all: Keywords, ks: Keywords, j: Json, at: Path): seq<RawError>
    decreases ks, 0
  {
    match ks
    case Done => []
    case Cons(k, rest) => ErrorsOf(lib, all, k, j, at) + KeywordErrors(lib, all, rest, j, at)
  }

  function ErrorsOf(lib: Lib, all: Keywords, k: Keyword, j: Json, at: Path): seq<RawError>
    decreases k, 0
  {
    var plain := (name: string) => RawError(OtherV, at, j, all, [], lib.complaint(name, Null, j));
    match k
    case Assertion(name, value) =>
      if lib.holds(name, value, j) then [] else [RawError(OtherV, at, j, all, [], lib.complaint(name, value, j))]
    case Required(names) => if j.Obj? then RequiredErrors(lib, all, names, names, j, at) else []
    case Properties(ms) => if j.Obj? then MemberErrors(lib, ms, j.fields, at) else []
    case PatternProperties(ms) => if j.Obj? then PatternErrors(lib, ms, j.fields, at) else []
    case AdditionalProperties(sub) =>
      if !j.Obj? then []
      else if sub.Object? then ExtraErrors(lib, all, sub, j.fields, j.fields, at)
      else if sub.Never? && Extras(lib, all, j.fields) != [] then
        [RawError(AdditionalV, at, j, all, [], lib.complaint("additionalProperties", Null, j))]
      else []
    case PrefixItems(subs) => if j.Arr? then PrefixErrors(lib, subs, j.items, 0, at) else []
    case ItemsOf(sub) =>
      if !j.Arr? then []
      else if sub.Never? then (if Rest(all, j.items) == NoItems then [] else [plain("items")])
      else ItemErrors(lib, sub, Rest(all, j.items), PrefixLength(all), at)
    case AllOf(subs) => EachErrors(lib, subs, j, at)
    case AnyOf(subs) => if SomeClean(lib, subs, j, at) then [] else [plain("anyOf")]
    case ExactlyOneOf(subs) => if CleanCount(lib, subs, j, at) == 1 then [] else [plain("oneOf")]
    case Not(sub) => if Errors(lib, sub, j, at) == [] then [plain("not")] else []
    case Conditional(test, yes, no) =>
      if Errors(lib, test, j, at) == [] then Errors(lib, yes, j, at) else Errors(lib, no, j, at)
  }

  /** One error for every missing name, each carrying the whole `required` list. */
  function RequiredErrors(lib: Lib, all: Keywords, names: seq<string>, rest: seq<string>, j: Json, at: Path): seq<RawError>
    requires j.Obj?
  {
    if rest == [] then []
    else
      (if Has(j.fields, rest[0]) then []
       else [RawError(RequiredV, at, j, all, names, lib.complaint("required", Str(rest[0]), j))])
      + RequiredErrors(lib, all, names, rest[1..], j, at)
  }

  function MemberErrors(lib: Lib, ms: Members, fs: Fields, at: Path): seq<RawError>
    decreases ms, 0
  {
    match ms
    case NoMembers => []
    case Member(name, sub, rest) =>
      (if Has(fs, name) then Errors(lib, sub, Get(fs, name), at + [Key(name)]) else [])
      + MemberErrors(lib, rest, fs, at)
  }

  function PatternErrors(lib: Lib, ms: Members, fs: Fields, at: Path): seq<RawError>
    decreases ms, 0
  {
    match ms
    case NoMembers => []
    case Member(pattern, sub, rest) =>
      MatchingErrors(lib, pattern, sub, fs, fs, at) + PatternErrors(lib, rest, fs, at)
  }

  function MatchingErrors(lib: Lib, pattern: string, sub: Schema, fs: Fields, rest: Fields, at: Path): seq<RawError>
    decreases sub, 1, rest
  {
    match rest
    case NoFields => []
    case Field(name, _, more) =>
      (if lib.matches(pattern, name) && Has(fs, name) then Errors(lib, sub, Get(fs, name), at + [Key(name)]) else [])
      + MatchingErrors(lib, pattern, sub, fs, more, at)
  }

  function ExtraErrors(lib: Lib, all: Keywords, sub: Schema, fs: Fields, rest: Fields, at: Path): seq<RawError>
    decreases sub, 1, rest
  {
    match rest
    case NoFields => []
    case Field(name, _, more) =>
      (if Unknown(lib, all, name) && Has(fs, name) then Errors(lib, sub, Get(fs, name), at + [Key(name)]) else [])
      + ExtraErrors(lib, all, sub, fs, more, at)
  }

  function ItemErrors(lib: Lib, sub: Schema, js: Items, i: nat, at: Path): seq<RawError>
    decreases sub, 1, js
  {
    match js
    case NoItems => []
    case Item(head, tail) => Errors(lib, sub, head, at + [Index(i)]) + ItemErrors(lib, sub, tail, i + 1, at)
  }

  function PrefixErrors(lib: Lib, subs: Schemas, js: Items, i: nat, at: Path): seq<RawError>
    decreases subs, 0
  {
    if subs.OneOf? && js.Item? then
      Errors(lib, subs.head, js.head, at + [Index(i)]) + PrefixErrors(lib, subs.tail, js.tail, i + 1, at)
    else []
  }

  function EachErrors(lib: Lib, subs: Schemas, j: Json, at: Path): seq<RawError>
    decreases subs, 0
  {
    match subs
    case NoSchemas => []
    case OneOf(head, tail) => Errors(lib, head, j, at) + EachErrors(lib, tail, j, at)
  }

  predicate SomeClean(lib: Lib, subs: Schemas, j: Json, at: Path)
    decreases subs, 0
  {
    subs.OneOf? && (Errors(lib, subs.head, j, at) == [] || SomeClean(lib, subs.tail, j, at))
  }

  function CleanCount(lib: Lib, subs: Schemas, j: Json, at: Path): nat
    decreases subs, 0
  {
    match subs
    case NoSchemas => 0
    case OneOf(head, tail) => (if Errors(lib, head, j, at) == [] then 1 else 0) + CleanCount(lib, tail, j, at)
  }

  // ------------------------------------------------------------------------- satisfaction

  /** JSON Schema Draft 2020-12: when an instance is valid against a schema. */
  ghost predicate Satisfies(lib: Lib, s: Schema, j: Json)
    decreases s, 0
  {
    match s
    case Always => true
    case Never => false
    case Object(ks) => AllHold(lib, ks, ks, j)
  }

  ghost predicate AllHold(lib: Lib, all: Keywords, ks: Keywords, j: Json)
    decreases ks, 0
  {
    ks.Cons? ==> Holds(lib, all, ks.head, j) && AllHold(lib, all, ks.tail, j)
  }

  ghost predicate Holds(lib: Lib, all: Keywords, k: Keyword, j: Json)
    decreases k, 0
  {
    match k
    case Assertion(name, value) => lib.holds(name, value, j)
    // Validation, section 6.5.3: every name in the list is a property of the instance
    case Required(names) => j.Obj? ==> forall n :: n in names ==> Has(j.fields, n)
    case Properties(ms) => j.Obj? ==> MembersHold(lib, ms, j.fields)
    case PatternProperties(ms) => j.Obj? ==> PatternsHold(lib, ms, j.fields)
    // Core, section 10.3.2.3: members named by no sibling keyword satisfy the subschema
    case AdditionalProperties(sub) =>
      j.Obj? ==> forall n :: Has(j.fields, n) && Unknown(lib, all, n) ==> Satisfies(lib, sub, Get(j.fields, n))
    // Core, section 10.3.1: the first items by position, the rest by `items`
    case PrefixItems(subs) => j.Arr? ==> PrefixHolds(lib, subs, j.items)
    case ItemsOf(sub) => j.Arr? ==> ItemsHold(lib, sub, Rest(all, j.items))
    case AllOf(subs) => EachHolds(lib, subs, j)
    case AnyOf(subs) => SomeHolds(lib, subs, j)
    case ExactlyOneOf(subs) => HoldCount(lib, subs, j) == 1
    case Not(sub) => !Satisfies(lib, sub, j)
    case Conditional(test, yes, no) => if Satisfies(lib, test, j) then Satisfies(lib, yes, j) else Satisfies(lib, no, j)
  }

  ghost predicate MembersHold(lib: Lib, ms: Members, fs: Fields)
    decreases ms, 0
  {
    ms.Member? ==>
      && (Has(fs, ms.name) ==> Satisfies(lib, ms.schema, Get(fs, ms.name)))
      && MembersHold(lib, ms.rest, fs)
  }

  ghost predicate PatternsHold(lib: Lib, ms: Members, fs: Fields)
    decreases ms, 0
  {
    ms.Member? ==>
      && (forall n :: Has(fs, n) && lib.matches(ms.name, n) ==> Satisfies(lib, ms.schema, Get(fs, n)))
      && PatternsHold(lib, ms.rest, fs)
  }

  ghost predicate ItemsHold(lib: Lib, sub: Schema, js: Items)
    decreases sub, 1, js
  {
    js.Item? ==> Satisfies(lib, sub, js.head) && ItemsHold(lib, sub, js.tail)
  }

  ghost predicate PrefixHolds(lib: Lib, subs: Schemas, js: Items)
    decreases subs, 0
  {
    subs.OneOf? && js.Item? ==> Satisfies(lib, subs.head, js.head) && PrefixHolds(lib, subs.tail, js.tail)
  }

  ghost function HoldCount(lib: Lib, subs: Schemas, j: Json): nat
    decreases subs, 0
  {
    match subs
    case NoSchemas => 0
    case OneOf(head, tail) => (if Satisfies(lib, head, j) then 1 else 0) + HoldCount(lib, tail, j)
  }

  ghost predicate EachHolds(lib: Lib, subs: Schemas, j: Json)
    decreases subs, 0
  {
    subs.OneOf? ==> Satisfies(lib, subs.head, j) && EachHolds(lib, subs.tail, j)
  }

  ghost predicate SomeHolds(lib: Lib, subs: Schemas, j: Json)
    decreases subs, 0
  {
    subs.OneOf? && (Satisfies(lib, subs.head, j) || SomeHolds(lib, subs.tail, j))
  }

  // ------------------------------------------------------- what every yielded error is worth

  /** The error's path leads to its instance, and the two special kinds have something to report. */
  ghost predicate Sound(lib: Lib, root: Json, e: RawError) {
    && Resolve(root, e.path) == Some(e.instance)
    && (e.validator.RequiredV? ==> e.instance.Obj? && exists n :: n in e.required && !Has(e.instance.fields, n))
    && (e.validator.AdditionalV? ==> e.instance.Obj? && Extras(lib, e.schema, e.instance.fields) != [])
  }

  ghost predicate AllSound(lib: Lib, root: Json, es: seq<RawError>) {
    forall e :: e in es ==> Sound(lib, root, e)
  }

  lemma BothSound(lib: Lib, root: Json, a: seq<RawError>, b: seq<RawError>)
    requires AllSound(lib, root, a) && AllSound(lib, root, b)
    ensures AllSound(lib, root, a + b)
    ensures a + b == [] <==> a == [] && b == []
  {
  }

  /** The evaluator yields nothing exactly on valid instances, and only sound errors. */
  lemma {:induction false} EvaluatorCorrect(lib: Lib, root: Json, s: Schema, j: Json, at: Path)
    requires Resolve(root, at) == Some(j)
    ensures Errors(lib, s, j, at) == [] <==> Satisfies(lib, s, j)
    ensures AllSound(lib, root, Errors(lib, s, j, at))
    decreases s, 0
  {
    if s.Object? {
      KeywordsCorrect(lib, root, s.keywords, s.keywords, j, at);
    }
  }

  lemma {:induction false} KeywordsCorrect(lib: Lib, root: Json, all: Keywords, ks: Keywords, j: Json, at: Path)
    requires Resolve(root, at) == Some(j)
    ensures KeywordErrors(lib, all, ks, j, at) == [] <==> AllHold(lib, all, ks, j)
    ensures AllSound(lib, root, KeywordErrors(lib, all, ks, j, at))
    decreases ks, 0
  {
    if ks.Cons? {
      KeywordCorrect(lib, root, all, ks.head, j, at);
      KeywordsCorrect(lib, root, all, ks.tail, j, at);
      BothSound(lib, root, ErrorsOf(lib, all, ks.head, j, at), KeywordErrors(lib, all, ks.tail, j, at));
    }
  }

  lemma {:induction false} KeywordCorrect(lib: Lib, root: Json, all: Keywords, k: Keyword, j: Json, at: Path)
    requires Resolve(root, at) == Some(j)
    ensures ErrorsOf(lib, all, k, j, at) == [] <==> Holds(lib, all, k, j)
    ensures AllSound(lib, root, ErrorsOf(lib, all, k, j, at))
    decreases k, 1
  {
    if k.Required? || k.Properties? || k.PatternProperties? || k.AdditionalProperties? {
      ObjectKeywordCorrect(lib, root, all, k, j, at);
    } else if k.PrefixItems? || k.ItemsOf? {
      ArrayKeywordCorrect(lib, root, all, k, j, at);
    } else if k.Not? || k.Conditional? {
      BranchingCorrect(lib, root, all, k, j, at);
    } else if !k.Assertion? {
      CombiningCorrect(lib, root, all, k, j, at);
    }
  }

  lemma {:induction false} ObjectKeywordCorrect(lib: Lib, root: Json, all: Keywords, k: Keyword, j: Json, at: Path)
    requires Resolve(root, at) == Some(j)
    requires k.Required? || k.Properties? || k.PatternProperties? || k.AdditionalProperties?
    ensures ErrorsOf(lib, all, k, j, at) == [] <==> Holds(lib, all, k, j)
    ensures AllSound(lib, root, ErrorsOf(lib, all, k, j, at))
    decreases k, 0
  {
    if j.Obj? {
      if k.Required? {
        RequiredCorrect(lib, root, all, k.names, k.names, j, at);
      } else if k.Properties? {
        MembersCorrect(lib, root, k.members, j, at);
      } else if k.PatternProperties? {
        PatternsCorrect(lib, root, k.members, j, at);
      } else {
        AdditionalCorrect(lib, root, all, k.schema, j, at);
      }
    }
  }

  lemma {:induction false} ArrayKeywordCorrect(lib: Lib, root: Json, all: Keywords, k: Keyword, j: Json, at: Path)
    requires Resolve(root, at) == Some(j) && (k.PrefixItems? || k.ItemsOf?)
    ensures ErrorsOf(lib, all, k, j, at) == [] <==> Holds(lib, all, k, j)
    ensures AllSound(lib, root, ErrorsOf(lib, all, k, j, at))
    decreases k, 0
  {
    if j.Arr? {
      if k.PrefixItems? {
        PrefixCorrect(lib, root, k.schemas, j, j.items, 0, at);
      } else {
        RestCorrect(lib, root, all, k.schema, j, at);
      }
    }
  }

  lemma {:induction false} RestCorrect(lib: Lib, root: Json, all: Keywords, sub: Schema, j: Json, at: Path)
    requires Resolve(root, at) == Some(j) && j.Arr?
    ensures ErrorsOf(lib, all, ItemsOf(sub), j, at) == [] <==> ItemsHold(lib, sub, Rest(all, j.items))
    ensures AllSound(lib, root, ErrorsOf(lib, all, ItemsOf(sub), j, at))
    decreases sub, 3
  {
    if sub.Never? {
      NeverHolds(lib, Rest(all, j.items));
    } else {
      ItemsCorrect(lib, root, sub, j, Rest(all, j.items), PrefixLength(all), at);
    }
  }

  lemma NeverHolds(lib: Lib, js: Items)
    ensures ItemsHold(lib, Never, js) <==> js == NoItems
  {
  }

  lemma {:induction false} CombiningCorrect(lib: Lib, root: Json, all: Keywords, k: Keyword, j: Json, at: Path)
    requires Resolve(root, at) == Some(j) && (k.AllOf? || k.AnyOf? || k.ExactlyOneOf?)
    ensures ErrorsOf(lib, all, k, j, at) == [] <==> Holds(lib, all, k, j)
    ensures AllSound(lib, root, ErrorsOf(lib, all, k, j, at))
    decreases k, 0
  {
    if k.AllOf? {
      EachCorrect(lib, root, k.schemas, j, at);
    } else if k.AnyOf? {
      SomeCorrect(lib, root, k.schemas, j, at);
    } else {
      CountCorrect(lib, root, k.schemas, j, at);
    }
  }

  lemma {:induction false} BranchingCorrect(lib: Lib, root: Json, all: Keywords, k: Keyword, j: Json, at: Path)
    requires Resolve(root, at) == Some(j) && (k.Not? || k.Conditional?)
    ensures ErrorsOf(lib, all, k, j, at) == [] <==> Holds(lib, all, k, j)
    ensures AllSound(lib, root, ErrorsOf(lib, all, k, j, at))
    decreases k, 0
  {
    if k.Not? {
      EvaluatorCorrect(lib, root, k.schema, j, at);
    } else {
      EvaluatorCorrect(lib, root, k.test, j, at);
      EvaluatorCorrect(lib, root, k.yes, j, at);
      EvaluatorCorrect(lib, root, k.no, j, at);
    }
  }

  lemma {:induction false} RequiredCorrect(lib: Lib, root: Json, all: Keywords, names: seq<string>, rest: seq<string>, j: Json, at: Path)
    requires Resolve(root, at) == Some(j) && j.Obj?
    requires forall n :: n in rest ==> n in names
    ensures RequiredErrors(lib, all, names, rest, j, at) == [] <==> (forall n :: n in rest ==> Has(j.fields, n))
    ensures AllSound(lib, root, RequiredErrors(lib, all, names, rest, j, at))
  {
    if rest != [] {
      assert rest[0] in rest && forall n :: n in rest <==> n == rest[0] || n in rest[1..];
      RequiredCorrect(lib, root, all, names, rest[1..], j, at);
    }
  }

  lemma ChildResolves(root: Json, j: Json, at: Path, name: string)
    requires Resolve(root, at) == Some(j) && j.Obj? && Has(j.fields, name)
    ensures Resolve(root, at + [Key(name)]) == Some(Get(j.fields, name))
  {
    ResolveOneMore(root, at, Key(name));
  }

  lemma {:induction false} MembersCorrect(lib: Lib, root: Json, ms: Members, j: Json, at: Path)
    requires Resolve(root, at) == Some(j) && j.Obj?
    ensures MemberErrors(lib, ms, j.fields, at) == [] <==> MembersHold(lib, ms, j.fields)
    ensures AllSound(lib, root, MemberErrors(lib, ms, j.fields, at))
    decreases ms, 0
  {
    if ms.Member? {
      if Has(j.fields, ms.name) {
        ChildResolves(root, j, at, ms.name);
        EvaluatorCorrect(lib, root, ms.schema, Get(j.fields, ms.name), at + [Key(ms.name)]);
      }
      MembersCorrect(lib, root, ms.rest, j, at);
    }
  }

  lemma {:induction false} PatternsCorrect(lib: Lib, root: Json, ms: Members, j: Json, at: Path)
    requires Resolve(root, at) == Some(j) && j.Obj?
    ensures PatternErrors(lib, ms, j.fields, at) == [] <==> PatternsHold(lib, ms, j.fields)
    ensures AllSound(lib, root, PatternErrors(lib, ms, j.fields, at))
    decreases ms, 0
  {
    if ms.Member? {
      MatchingCorrect(lib, root, ms.name, ms.schema, j, j.fields, at);
      PatternsCorrect(lib, root, ms.rest, j, at);
    }
  }

  lemma {:induction false} MatchingCorrect(lib: Lib, root: Json, pattern: string, sub: Schema, j: Json, rest: Fields, at: Path)
    requires Resolve(root, at) == Some(j) && j.Obj?
    requires forall n :: Has(rest, n) ==> Has(j.fields, n)
    ensures MatchingErrors(lib, pattern, sub, j.fields, rest, at) == []
        <==> (forall n :: Has(rest, n) && lib.matches(pattern, n) ==> Satisfies(lib, sub, Get(j.fields, n)))
    ensures AllSound(lib, root, MatchingErrors(lib, pattern, sub, j.fields, rest, at))
    decreases sub, 1, rest
  {
    if rest.Field? {
      assert Has(rest, rest.name);
      if lib.matches(pattern, rest.name) {
        ChildResolves(root, j, at, rest.name);
        EvaluatorCorrect(lib, root, sub, Get(j.fields, rest.name), at + [Key(rest.name)]);
      }
      MatchingCorrect(lib, root, pattern, sub, j, rest.rest, at);
    }
  }

  lemma {:induction false} ExtrasCorrect(lib: Lib, root: Json, all: Keywords, sub: Schema, j: Json, rest: Fields, at: Path)
    requires Resolve(root, at) == Some(j) && j.Obj?
    requires forall n :: Has(rest, n) ==> Has(j.fields, n)
    ensures ExtraErrors(lib, all, sub, j.fields, rest, at) == []
        <==> (forall n :: Has(rest, n) && Unknown(lib, all, n) ==> Satisfies(lib, sub, Get(j.fields, n)))
    ensures AllSound(lib, root, ExtraErrors(lib, all, sub, j.fields, rest, at))
    decreases sub, 1, rest
  {
    if rest.Field? {
      assert Has(rest, rest.name);
      if Unknown(lib, all, rest.name) {
        ChildResolves(root, j, at, rest.name);
        EvaluatorCorrect(lib, root, sub, Get(j.fields, rest.name), at + [Key(rest.name)]);
      }
      ExtrasCorrect(lib, root, all, sub, j, rest.rest, at);
    }
  }

  lemma {:induction false} AdditionalCorrect(lib: Lib, root: Json, all: Keywords, sub: Schema, j: Json, at: Path)
    requires Resolve(root, at) == Some(j) && j.Obj?
    ensures var k := AdditionalProperties(sub);
      && (ErrorsOf(lib, all, k, j, at) == [] <==> Holds(lib, all, k, j))
      && AllSound(lib, root, ErrorsOf(lib, all, k, j, at))
    decreases sub, 2
  {
    match sub
    case Always =>
    case Object(_) => ExtrasCorrect(lib, root, all, sub, j, j.fields, at);
    case Never =>
      forall n
        ensures n in Extras(lib, all, j.fields) <==> Has(j.fields, n) && Unknown(lib, all, n)
      {
        ExtrasIff(lib, all, j.fields, n);
      }
      var extras := Extras(lib, all, j.fields);
      if extras != [] {
        assert extras[0] in extras;
      }
  }

  lemma {:induction false} ItemsCorrect(lib: Lib, root: Json, sub: Schema, j: Json, js: Items, i: nat, at: Path)
    requires Resolve(root, at) == Some(j) && j.Arr?
    requires js == Dropped(j.items, i)
    ensures ItemErrors(lib, sub, js, i, at) == [] <==> ItemsHold(lib, sub, js)
    ensures AllSound(lib, root, ItemErrors(lib, sub, js, i, at))
    decreases sub, 1, js
  {
    if js.Item? {
      DroppedHead(j.items, i);
      ResolveOneMore(root, at, Index(i));
      EvaluatorCorrect(lib, root, sub, js.head, at + [Index(i)]);
      ItemsCorrect(lib, root, sub, j, js.tail, i + 1, at);
    }
  }

  lemma {:induction false} PrefixCorrect(lib: Lib, root: Json, subs: Schemas, j: Json, js: Items, i: nat, at: Path)
    requires Resolve(root, at) == Some(j) && j.Arr?
    requires js == Dropped(j.items, i)
    ensures PrefixErrors(lib, subs, js, i, at) == [] <==> PrefixHolds(lib, subs, js)
    ensures AllSound(lib, root, PrefixErrors(lib, subs, js, i, at))
    decreases subs, 0
  {
    if subs.OneOf? && js.Item? {
      DroppedHead(j.items, i);
      ResolveOneMore(root, at, Index(i));
      EvaluatorCorrect(lib, root, subs.head, js.head, at + [Index(i)]);
      PrefixCorrect(lib, root, subs.tail, j, js.tail, i + 1, at);
    }
  }

  lemma {:induction false} CountCorrect(lib: Lib, root: Json, subs: Schemas, j: Json, at: Path)
    requires Resolve(root, at) == Some(j)
    ensures CleanCount(lib, subs, j, at) == HoldCount(lib, subs, j)
    decreases subs, 0
  {
    if subs.OneOf? {
      EvaluatorCorrect(lib, root, subs.head, j, at);
      CountCorrect(lib, root, subs.tail, j, at);
    }
  }

  lemma {:induction false} EachCorrect(lib: Lib, root: Json, subs: Schemas, j: Json, at: Path)
    requires Resolve(root, at) == Some(j)
    ensures EachErrors(lib, subs, j, at) == [] <==> EachHolds(lib, subs, j)
    ensures AllSound(lib, root, EachErrors(lib, subs, j, at))
    decreases subs, 0
  {
    if subs.OneOf? {
      EvaluatorCorrect(lib, root, subs.head, j, at);
      EachCorrect(lib, root, subs.tail, j, at);
    }
  }

  lemma {:induction false} SomeCorrect(lib: Lib, root: Json, subs: Schemas, j: Json, at: Path)
    requires Resolve(root, at) == Some(j)
    ensures SomeClean(lib, subs, j, at) <==> SomeHolds(lib, subs, j)
    decreases subs, 0
  {
    if subs.OneOf? {
      EvaluatorCorrect(lib, root, subs.head, j, at);
      SomeCorrect(lib, root, subs.tail, j, at);
    }
  }
}
