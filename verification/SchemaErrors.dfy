/**
 Which errors the evaluator yields, keyword by keyword, over positions of the schema and of
 the instance: all of them, and no others.
 */
module SchemaErrors {
  import opened Wrappers
  import opened FieldSchema

  // ------------------------------------------------------------------------- a schema yields what its keywords yield

  ghost predicate YieldedByKeyword(lib: Lib, all: Keywords, ks: Keywords, i: nat, j: Json, at: Path, e: RawError) {
    i < |KeywordList(ks)| && e in ErrorsOf(lib, all, KeywordList(ks)[i], j, at)
  }

  lemma {:induction false} ObjectYields(lib: Lib, ks: Keywords, j: Json, at: Path, e: RawError)
    ensures e in Errors(lib, Object(ks), j, at) <==> exists i: nat :: YieldedByKeyword(lib, ks, ks, i, j, at, e)
  {
    KeywordsYield(lib, ks, ks, j, at, e);
  }

  lemma {:induction false} KeywordsYield(lib: Lib, all: Keywords, ks: Keywords, j: Json, at: Path, e: RawError)
    ensures e in KeywordErrors(lib, all, ks, j, at) <==> exists i: nat :: YieldedByKeyword(lib, all, ks, i, j, at, e)
  {
    if ks.Cons? {
      KeywordsYield(lib, all, ks.tail, j, at, e);
      assert YieldedByKeyword(lib, all, ks, 0, j, at, e) ==> e in KeywordErrors(lib, all, ks, j, at);
      if i: nat :| YieldedByKeyword(lib, all, ks.tail, i, j, at, e) {
        assert YieldedByKeyword(lib, all, ks, i + 1, j, at, e);
      }
      if i: nat :| YieldedByKeyword(lib, all, ks, i, j, at, e) {
        assert i == 0 || YieldedByKeyword(lib, all, ks.tail, i - 1, j, at, e);
      }
    }
  }

  /** The schemas without keywords: one accepts everything, the other refuses everything once. */
  lemma ConstantsYield(lib: Lib, j: Json, at: Path, e: RawError)
    ensures Errors(lib, Always, j, at) == []
    ensures e in Errors(lib, Never, j, at) <==> e.validator.OtherV? && e == RawError(OtherV, at, j, Done, [], lib.complaint("false", Null, j))
  {
  }

  // ------------------------------------------------------------------------- objects

  /** The `i`-th listed name is no member. */
  ghost predicate LacksAt(fs: Fields, rest: seq<string>, i: nat) {
    i < |rest| && forall k: nat :: !NamedAt(fs, k, rest[i])
  }

  predicate IsRequiredError(lib: Lib, all: Keywords, names: seq<string>, name: string, j: Json, at: Path, e: RawError) {
    e == RawError(RequiredV, at, j, all, names, lib.complaint("required", Str(name), j))
  }

  ghost predicate RequiredAt(lib: Lib, all: Keywords, names: seq<string>, rest: seq<string>, i: nat, j: Json, at: Path, e: RawError)
    requires j.Obj?
  {
    LacksAt(j.fields, rest, i) && IsRequiredError(lib, all, names, rest[i], j, at, e)
  }

  /** `required` yields an error for each listed name that is no member. */
  lemma RequiredYields(lib: Lib, all: Keywords, names: seq<string>, j: Json, at: Path, e: RawError)
    requires j.Obj?
    ensures e in ErrorsOf(lib, all, Required(names), j, at) <==>
      exists i: nat :: RequiredAt(lib, all, names, names, i, j, at, e)
  {
    RequiredIff(lib, all, names, names, j, at, e);
  }

  lemma {:induction false} RequiredIff(lib: Lib, all: Keywords, names: seq<string>, rest: seq<string>, j: Json, at: Path, e: RawError)
    requires j.Obj?
    ensures e in RequiredErrors(lib, all, names, rest, j, at) <==> exists i: nat :: RequiredAt(lib, all, names, rest, i, j, at, e)
  {
    if rest != [] {
      RequiredIff(lib, all, names, rest[1..], j, at, e);
      HasIff(j.fields, rest[0]);
      assert RequiredAt(lib, all, names, rest, 0, j, at, e) ==> e in RequiredErrors(lib, all, names, rest, j, at);
      if i: nat :| RequiredAt(lib, all, names, rest[1..], i, j, at, e) {
        assert RequiredAt(lib, all, names, rest, i + 1, j, at, e);
      }
      if i: nat :| RequiredAt(lib, all, names, rest, i, j, at, e) {
        assert i == 0 || RequiredAt(lib, all, names, rest[1..], i - 1, j, at, e);
      }
      if e in RequiredErrors(lib, all, names, rest, j, at) && e !in RequiredErrors(lib, all, names, rest[1..], j, at) {
        assert RequiredAt(lib, all, names, rest, 0, j, at, e);
      }
    }
  }

  ghost predicate PropertyYields(lib: Lib, ms: Members, i: nat, fs: Fields, at: Path, e: RawError) {
    && i < |MemberList(ms)| && Has(fs, MemberList(ms)[i].0)
    && e in Errors(lib, MemberList(ms)[i].1, Get(fs, MemberList(ms)[i].0), at + [Key(MemberList(ms)[i].0)])
  }

  /** `properties` yields the errors of each declared member that is present, at its own path. */
  lemma PropertiesYield(lib: Lib, all: Keywords, ms: Members, fs: Fields, at: Path, e: RawError)
    ensures e in ErrorsOf(lib, all, Properties(ms), Obj(fs), at) <==> exists i: nat :: PropertyYields(lib, ms, i, fs, at, e)
  {
    MembersYield(lib, ms, fs, at, e);
  }

  lemma {:induction false} MembersYield(lib: Lib, ms: Members, fs: Fields, at: Path, e: RawError)
    ensures e in MemberErrors(lib, ms, fs, at) <==> exists i: nat :: PropertyYields(lib, ms, i, fs, at, e)
  {
    if ms.Member? {
      MembersYield(lib, ms.rest, fs, at, e);
      assert PropertyYields(lib, ms, 0, fs, at, e) ==> e in MemberErrors(lib, ms, fs, at);
      if i: nat :| PropertyYields(lib, ms.rest, i, fs, at, e) {
        assert PropertyYields(lib, ms, i + 1, fs, at, e);
      }
      if i: nat :| PropertyYields(lib, ms, i, fs, at, e) {
        assert i == 0 || PropertyYields(lib, ms.rest, i - 1, fs, at, e);
      }
    }
  }

  ghost predicate MatchYields(lib: Lib, pattern: string, sub: Schema, fs: Fields, name: string, at: Path, e: RawError) {
    Has(fs, name) && lib.matches(pattern, name) && e in Errors(lib, sub, Get(fs, name), at + [Key(name)])
  }

  ghost predicate PatternYields(lib: Lib, ms: Members, i: nat, fs: Fields, at: Path, e: RawError) {
    i < |MemberList(ms)| && exists n :: MatchYields(lib, MemberList(ms)[i].0, MemberList(ms)[i].1, fs, n, at, e)
  }

  /** `patternProperties` yields the errors of each member a pattern matches, at its own path. */
  lemma PatternPropertiesYield(lib: Lib, all: Keywords, ms: Members, fs: Fields, at: Path, e: RawError)
    ensures e in ErrorsOf(lib, all, PatternProperties(ms), Obj(fs), at) <==> exists i: nat :: PatternYields(lib, ms, i, fs, at, e)
  {
    PatternsYield(lib, ms, fs, at, e);
  }

  lemma {:induction false} PatternsYield(lib: Lib, ms: Members, fs: Fields, at: Path, e: RawError)
    ensures e in PatternErrors(lib, ms, fs, at) <==> exists i: nat :: PatternYields(lib, ms, i, fs, at, e)
  {
    if ms.Member? {
      PatternsYield(lib, ms.rest, fs, at, e);
      FirstPatternYields(lib, ms, fs, at, e);
      if i: nat :| PatternYields(lib, ms.rest, i, fs, at, e) {
        assert MemberList(ms)[i + 1] == MemberList(ms.rest)[i];
        assert PatternYields(lib, ms, i + 1, fs, at, e);
      }
      if i: nat :| PatternYields(lib, ms, i, fs, at, e) {
        assert i > 0 ==> MemberList(ms)[i] == MemberList(ms.rest)[i - 1];
        assert i == 0 || PatternYields(lib, ms.rest, i - 1, fs, at, e);
      }
    }
  }

  lemma FirstPatternYields(lib: Lib, ms: Members, fs: Fields, at: Path, e: RawError)
    requires ms.Member?
    ensures PatternYields(lib, ms, 0, fs, at, e) <==> e in MatchingErrors(lib, ms.name, ms.schema, fs, fs, at)
  {
    MatchesYield(lib, ms.name, ms.schema, fs, fs, at, e);
    assert MemberList(ms)[0] == (ms.name, ms.schema);
    if n :| MatchYields(lib, ms.name, ms.schema, fs, n, at, e) {
      assert Has(fs, n) && MatchYields(lib, ms.name, ms.schema, fs, n, at, e);
      assert MatchYields(lib, MemberList(ms)[0].0, MemberList(ms)[0].1, fs, n, at, e);
    }
    if e in MatchingErrors(lib, ms.name, ms.schema, fs, fs, at) {
      var n :| Has(fs, n) && MatchYields(lib, ms.name, ms.schema, fs, n, at, e);
      assert MatchYields(lib, MemberList(ms)[0].0, MemberList(ms)[0].1, fs, n, at, e);
    }
  }

  lemma {:induction false} MatchesYield(lib: Lib, pattern: string, sub: Schema, fs: Fields, rest: Fields, at: Path, e: RawError)
    requires forall n :: Has(rest, n) ==> Has(fs, n)
    ensures e in MatchingErrors(lib, pattern, sub, fs, rest, at) <==>
      exists n :: Has(rest, n) && MatchYields(lib, pattern, sub, fs, n, at, e)
  {
    if rest.Field? {
      assert forall n :: Has(rest, n) <==> n == rest.name || Has(rest.rest, n);
      MatchesYield(lib, pattern, sub, fs, rest.rest, at, e);
      assert Has(rest, rest.name);
      if n :| Has(rest, n) && MatchYields(lib, pattern, sub, fs, n, at, e) {
        assert n == rest.name || (Has(rest.rest, n) && MatchYields(lib, pattern, sub, fs, n, at, e));
      }
      if n :| Has(rest.rest, n) && MatchYields(lib, pattern, sub, fs, n, at, e) {
        assert Has(rest, n) && MatchYields(lib, pattern, sub, fs, n, at, e);
      }
      assert MatchYields(lib, pattern, sub, fs, rest.name, at, e) <==>
        lib.matches(pattern, rest.name) && e in Errors(lib, sub, Get(fs, rest.name), at + [Key(rest.name)]);
    }
  }

  ghost predicate ExtraYields(lib: Lib, all: Keywords, sub: Schema, fs: Fields, name: string, at: Path, e: RawError) {
    Has(fs, name) && NobodyNames(lib, all, name) && e in Errors(lib, sub, Get(fs, name), at + [Key(name)])
  }

  /** `additionalProperties` with a schema yields the errors of each member no sibling names, at its own path. */
  lemma AdditionalSchemaYields(lib: Lib, all: Keywords, sub: Schema, fs: Fields, at: Path, e: RawError)
    requires sub.Object?
    ensures e in ErrorsOf(lib, all, AdditionalProperties(sub), Obj(fs), at) <==> exists n :: ExtraYields(lib, all, sub, fs, n, at, e)
  {
    ExtrasYield(lib, all, sub, fs, fs, at, e);
  }

  lemma {:induction false} ExtrasYield(lib: Lib, all: Keywords, sub: Schema, fs: Fields, rest: Fields, at: Path, e: RawError)
    requires forall n :: Has(rest, n) ==> Has(fs, n)
    ensures e in ExtraErrors(lib, all, sub, fs, rest, at) <==>
      exists n :: Has(rest, n) && ExtraYields(lib, all, sub, fs, n, at, e)
  {
    if rest.Field? {
      assert forall n :: Has(rest, n) <==> n == rest.name || Has(rest.rest, n);
      UnknownIff(lib, all, rest.name);
      ExtrasYield(lib, all, sub, fs, rest.rest, at, e);
      assert Has(rest, rest.name);
      if n :| Has(rest, n) && ExtraYields(lib, all, sub, fs, n, at, e) {
        assert n == rest.name || (Has(rest.rest, n) && ExtraYields(lib, all, sub, fs, n, at, e));
      }
      if n :| Has(rest.rest, n) && ExtraYields(lib, all, sub, fs, n, at, e) {
        assert Has(rest, n) && ExtraYields(lib, all, sub, fs, n, at, e);
      }
      assert ExtraYields(lib, all, sub, fs, rest.name, at, e) <==>
        NobodyNames(lib, all, rest.name) && e in Errors(lib, sub, Get(fs, rest.name), at + [Key(rest.name)]);
    }
  }

  /** `additionalProperties: false` yields one error, exactly if some member is named by no sibling. */
  lemma AdditionalFalseYields(lib: Lib, all: Keywords, fs: Fields, at: Path, e: RawError)
    ensures e in ErrorsOf(lib, all, AdditionalProperties(Never), Obj(fs), at) <==>
      && e == RawError(AdditionalV, at, Obj(fs), all, [], lib.complaint("additionalProperties", Null, Obj(fs)))
      && exists n :: Has(fs, n) && NobodyNames(lib, all, n)
  {
    var extras := Extras(lib, all, fs);
    forall n
      ensures n in extras <==> Has(fs, n) && NobodyNames(lib, all, n)
    {
      ExtrasIff(lib, all, fs, n);
      UnknownIff(lib, all, n);
    }
    assert extras != [] ==> extras[0] in extras;
  }

  // ------------------------------------------------------------------------- arrays and combinations

  ghost predicate PrefixYields(lib: Lib, subs: Schemas, i: nat, js: Items, from: nat, at: Path, e: RawError) {
    && i < |SchemaList(subs)| && i < |ItemList(js)|
    && e in Errors(lib, SchemaList(subs)[i], ItemList(js)[i], at + [Index(from + i)])
  }

  /** `prefixItems` yields the errors of each item it has a subschema for, at the item's index. */
  lemma PrefixItemsYield(lib: Lib, all: Keywords, subs: Schemas, js: Items, at: Path, e: RawError)
    ensures e in ErrorsOf(lib, all, PrefixItems(subs), Arr(js), at) <==> exists i: nat :: PrefixYields(lib, subs, i, js, 0, at, e)
  {
    PrefixYield(lib, subs, js, 0, at, e);
  }

  lemma {:induction false} PrefixYield(lib: Lib, subs: Schemas, js: Items, from: nat, at: Path, e: RawError)
    ensures e in PrefixErrors(lib, subs, js, from, at) <==> exists i: nat :: PrefixYields(lib, subs, i, js, from, at, e)
  {
    if subs.OneOf? && js.Item? {
      var next := from + 1;
      PrefixYield(lib, subs.tail, js.tail, next, at, e);
      assert PrefixYields(lib, subs, 0, js, from, at, e) <==> e in Errors(lib, subs.head, js.head, at + [Index(from)]);
      if i: nat :| PrefixYields(lib, subs.tail, i, js.tail, next, at, e) {
        assert next + i == from + (i + 1);
        assert PrefixYields(lib, subs, i + 1, js, from, at, e);
      }
      if i: nat :| PrefixYields(lib, subs, i, js, from, at, e) {
        assert i > 0 ==> next + (i - 1) == from + i;
        assert i == 0 || PrefixYields(lib, subs.tail, i - 1, js.tail, next, at, e);
      }
    }
  }

  ghost predicate ItemYields(lib: Lib, sub: Schema, i: nat, js: Items, from: nat, at: Path, e: RawError) {
    i < |ItemList(js)| && e in Errors(lib, sub, ItemList(js)[i], at + [Index(from + i)])
  }

  /** `items` yields the errors of each item after the prefix, at the item's index. */
  lemma ItemsYield(lib: Lib, all: Keywords, sub: Schema, js: Items, rest: Items, n: nat, at: Path, e: RawError)
    requires !sub.Never? && n == PrefixLength(all) && rest == Dropped(js, n)
    ensures e in ErrorsOf(lib, all, ItemsOf(sub), Arr(js), at) <==> exists i: nat :: ItemYields(lib, sub, i, rest, n, at, e)
  {
    RestYields(lib, sub, rest, n, at, e);
  }

  lemma {:induction false} RestYields(lib: Lib, sub: Schema, js: Items, from: nat, at: Path, e: RawError)
    ensures e in ItemErrors(lib, sub, js, from, at) <==> exists i: nat :: ItemYields(lib, sub, i, js, from, at, e)
  {
    if js.Item? {
      var next := from + 1;
      RestYields(lib, sub, js.tail, next, at, e);
      assert ItemYields(lib, sub, 0, js, from, at, e) <==> e in Errors(lib, sub, js.head, at + [Index(from)]);
      if i: nat :| ItemYields(lib, sub, i, js.tail, next, at, e) {
        assert next + i == from + (i + 1);
        assert ItemYields(lib, sub, i + 1, js, from, at, e);
      }
      if i: nat :| ItemYields(lib, sub, i, js, from, at, e) {
        assert i > 0 ==> next + (i - 1) == from + i;
        assert i == 0 || ItemYields(lib, sub, i - 1, js.tail, next, at, e);
      }
    }
  }

  ghost predicate SchemaYields(lib: Lib, subs: Schemas, i: nat, j: Json, at: Path, e: RawError) {
    i < |SchemaList(subs)| && e in Errors(lib, SchemaList(subs)[i], j, at)
  }

  /** `allOf` yields the errors of every subschema. */
  lemma AllOfYields(lib: Lib, all: Keywords, subs: Schemas, j: Json, at: Path, e: RawError)
    ensures e in ErrorsOf(lib, all, AllOf(subs), j, at) <==> exists i: nat :: SchemaYields(lib, subs, i, j, at, e)
  {
    EachYields(lib, subs, j, at, e);
  }

  lemma {:induction false} EachYields(lib: Lib, subs: Schemas, j: Json, at: Path, e: RawError)
    ensures e in EachErrors(lib, subs, j, at) <==> exists i: nat :: SchemaYields(lib, subs, i, j, at, e)
  {
    if subs.OneOf? {
      EachYields(lib, subs.tail, j, at, e);
      assert SchemaYields(lib, subs, 0, j, at, e) ==> e in EachErrors(lib, subs, j, at);
      if i: nat :| SchemaYields(lib, subs.tail, i, j, at, e) {
        assert SchemaYields(lib, subs, i + 1, j, at, e);
      }
      if i: nat :| SchemaYields(lib, subs, i, j, at, e) {
        assert i == 0 || SchemaYields(lib, subs.tail, i - 1, j, at, e);
      }
    }
  }

  /** A condition yields the errors of the branch it chooses. */
  lemma ConditionYields(lib: Lib, all: Keywords, test: Schema, yes: Schema, no: Schema, root: Json, j: Json, at: Path)
    requires Resolve(root, at) == Some(j)
    ensures Satisfies(lib, test, j) ==> ErrorsOf(lib, all, Conditional(test, yes, no), j, at) == Errors(lib, yes, j, at)
    ensures !Satisfies(lib, test, j) ==> ErrorsOf(lib, all, Conditional(test, yes, no), j, at) == Errors(lib, no, j, at)
  {
    EvaluatorCorrect(lib, root, test, j, at);
  }

  /** Every other keyword yields at most one error, at its own instance. */
  lemma OthersYieldOnce(lib: Lib, all: Keywords, k: Keyword, j: Json, at: Path)
    requires k.Assertion? || k.AnyOf? || k.ExactlyOneOf? || k.Not? || (k.ItemsOf? && k.schema.Never?)
    ensures |ErrorsOf(lib, all, k, j, at)| <= 1
    ensures forall e :: e in ErrorsOf(lib, all, k, j, at) ==> e.validator.OtherV? && e.path == at && e.instance == j
  {
  }
}
