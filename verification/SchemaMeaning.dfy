/**
 What a schema of JSON Schema Draft 2020-12 demands, keyword by keyword, over positions of
 the schema and of the instance.
 */
module SchemaMeaning {
  import opened Wrappers
  import opened FieldSchema

  // ------------------------------------------------------------------------- a schema is all of its keywords

  /** Keyword `i`, if there is one, holds. */
  ghost predicate HoldsAt(lib: Lib, all: Keywords, ks: Keywords, i: nat, j: Json) {
    i < |KeywordList(ks)| ==> Holds(lib, all, KeywordList(ks)[i], j)
  }

  /** A schema object is satisfied if and only if each of its keywords holds. */
  lemma {:induction false} ObjectMeaning(lib: Lib, ks: Keywords, j: Json)
    ensures Satisfies(lib, Object(ks), j) <==> forall i: nat :: HoldsAt(lib, ks, ks, i, j)
  {
    AllHoldIff(lib, ks, ks, j);
  }

  lemma {:induction false} AllHoldIff(lib: Lib, all: Keywords, ks: Keywords, j: Json)
    ensures AllHold(lib, all, ks, j) <==> forall i: nat :: HoldsAt(lib, all, ks, i, j)
  {
    if ks.Cons? {
      AllHoldIff(lib, all, ks.tail, j);
      if AllHold(lib, all, ks, j) {
        forall i: nat
          ensures HoldsAt(lib, all, ks, i, j)
        {
          assert i > 0 ==> HoldsAt(lib, all, ks.tail, i - 1, j);
        }
      }
      if forall i: nat :: HoldsAt(lib, all, ks, i, j) {
        assert HoldsAt(lib, all, ks, 0, j);
        forall i: nat
          ensures HoldsAt(lib, all, ks.tail, i, j)
        {
          assert HoldsAt(lib, all, ks, i + 1, j);
        }
      }
    }
  }

  // ------------------------------------------------------------------------- objects

  /** Validation, section 6.5.3: every listed name stands at some position of the object. */
  lemma RequiredMeaning(lib: Lib, all: Keywords, names: seq<string>, fs: Fields)
    ensures Holds(lib, all, Required(names), Obj(fs)) <==>
      forall n :: 0 <= n < |names| ==> IsNamed(fs, names[n])
  {
    forall name
      ensures Has(fs, name) <==> IsNamed(fs, name)
    {
      HasIff(fs, name);
    }
    assert forall n :: 0 <= n < |names| ==> names[n] in names;
  }

  /** Some member of the object has this name. */
  ghost predicate IsNamed(fs: Fields, name: string) {
    exists i: nat :: NamedAt(fs, i, name)
  }

  /** Property `i`, if there is one and the object has such a member, is satisfied by it. */
  ghost predicate PropertyAt(lib: Lib, ms: Members, i: nat, fs: Fields) {
    i < |MemberList(ms)| && Has(fs, MemberList(ms)[i].0) ==>
      Satisfies(lib, MemberList(ms)[i].1, Get(fs, MemberList(ms)[i].0))
  }

  /** Core, section 10.3.2.1: each declared member that is present satisfies its own subschema. */
  lemma PropertiesMeaning(lib: Lib, all: Keywords, ms: Members, fs: Fields)
    ensures Holds(lib, all, Properties(ms), Obj(fs)) <==> forall i: nat :: PropertyAt(lib, ms, i, fs)
  {
    MembersIff(lib, ms, fs);
  }

  lemma {:induction false} MembersIff(lib: Lib, ms: Members, fs: Fields)
    ensures MembersHold(lib, ms, fs) <==> forall i: nat :: PropertyAt(lib, ms, i, fs)
  {
    if ms.Member? {
      MembersIff(lib, ms.rest, fs);
      if MembersHold(lib, ms, fs) {
        forall i: nat
          ensures PropertyAt(lib, ms, i, fs)
        {
          assert i > 0 ==> PropertyAt(lib, ms.rest, i - 1, fs);
        }
      }
      if forall i: nat :: PropertyAt(lib, ms, i, fs) {
        assert PropertyAt(lib, ms, 0, fs);
        forall i: nat
          ensures PropertyAt(lib, ms.rest, i, fs)
        {
          assert PropertyAt(lib, ms, i + 1, fs);
        }
      }
    }
  }

  /** Pattern `i`, if there is one, has its subschema satisfied by every member it matches. */
  ghost predicate PatternAt(lib: Lib, ms: Members, i: nat, fs: Fields) {
    i < |MemberList(ms)| ==>
      forall n :: Has(fs, n) && lib.matches(MemberList(ms)[i].0, n) ==> Satisfies(lib, MemberList(ms)[i].1, Get(fs, n))
  }

  /** Core, section 10.3.2.2: each member satisfies the subschema of every pattern that matches its name. */
  lemma PatternMeaning(lib: Lib, all: Keywords, ms: Members, fs: Fields)
    ensures Holds(lib, all, PatternProperties(ms), Obj(fs)) <==> forall i: nat :: PatternAt(lib, ms, i, fs)
  {
    PatternsIff(lib, ms, fs);
  }

  lemma {:induction false} PatternsIff(lib: Lib, ms: Members, fs: Fields)
    ensures PatternsHold(lib, ms, fs) <==> forall i: nat :: PatternAt(lib, ms, i, fs)
  {
    if ms.Member? {
      PatternsIff(lib, ms.rest, fs);
      if PatternsHold(lib, ms, fs) {
        forall i: nat
          ensures PatternAt(lib, ms, i, fs)
        {
          assert i > 0 ==> PatternAt(lib, ms.rest, i - 1, fs);
        }
      }
      if forall i: nat :: PatternAt(lib, ms, i, fs) {
        assert PatternAt(lib, ms, 0, fs);
        forall i: nat
          ensures PatternAt(lib, ms.rest, i, fs)
        {
          assert PatternAt(lib, ms, i + 1, fs);
        }
      }
    }
  }

  /** Core, section 10.3.2.3: each member that no sibling names satisfies the subschema. */
  lemma AdditionalMeaning(lib: Lib, all: Keywords, sub: Schema, fs: Fields)
    ensures Holds(lib, all, AdditionalProperties(sub), Obj(fs)) <==>
      forall n :: Has(fs, n) && NobodyNames(lib, all, n) ==> Satisfies(lib, sub, Get(fs, n))
  {
    forall name
      ensures Unknown(lib, all, name) <==> NobodyNames(lib, all, name)
    {
      UnknownIff(lib, all, name);
    }
  }

  // ------------------------------------------------------------------------- arrays

  /** Item `i`, if there is one and a subschema at its position, satisfies it. */
  ghost predicate PrefixAt(lib: Lib, subs: Schemas, i: nat, js: Items) {
    i < |SchemaList(subs)| && i < |ItemList(js)| ==> Satisfies(lib, SchemaList(subs)[i], ItemList(js)[i])
  }

  /** Core, section 10.3.1.1: the first items satisfy the subschemas at their positions. */
  lemma PrefixMeaning(lib: Lib, all: Keywords, subs: Schemas, js: Items)
    ensures Holds(lib, all, PrefixItems(subs), Arr(js)) <==> forall i: nat :: PrefixAt(lib, subs, i, js)
  {
    PrefixIff(lib, subs, js);
  }

  lemma {:induction false} PrefixIff(lib: Lib, subs: Schemas, js: Items)
    ensures PrefixHolds(lib, subs, js) <==> forall i: nat :: PrefixAt(lib, subs, i, js)
  {
    if subs.OneOf? && js.Item? {
      PrefixIff(lib, subs.tail, js.tail);
      if PrefixHolds(lib, subs, js) {
        forall i: nat
          ensures PrefixAt(lib, subs, i, js)
        {
          assert i > 0 ==> PrefixAt(lib, subs.tail, i - 1, js.tail);
        }
      }
      if forall i: nat :: PrefixAt(lib, subs, i, js) {
        assert PrefixAt(lib, subs, 0, js);
        forall i: nat
          ensures PrefixAt(lib, subs.tail, i, js.tail)
        {
          assert PrefixAt(lib, subs, i + 1, js);
        }
      }
    }
  }

  /** The first `prefixItems` among the keywords, if any, has this many subschemas. */
  ghost predicate PrefixTakes(ks: Keywords, n: nat) {
    || (n == 0 && forall i :: 0 <= i < |KeywordList(ks)| ==> !KeywordList(ks)[i].PrefixItems?)
    || exists i: nat :: FirstPrefix(ks, i) && n == |SchemaList(KeywordList(ks)[i].schemas)|
  }

  ghost predicate FirstPrefix(ks: Keywords, i: nat) {
    && i < |KeywordList(ks)| && KeywordList(ks)[i].PrefixItems?
    && forall h :: 0 <= h < i ==> !KeywordList(ks)[h].PrefixItems?
  }

  lemma {:induction false} PrefixLengthIs(ks: Keywords)
    ensures PrefixTakes(ks, PrefixLength(ks))
  {
    if ks.Cons? {
      var list, rest := KeywordList(ks), KeywordList(ks.tail);
      if ks.head.PrefixItems? {
        LengthIs(ks.head.schemas);
        assert FirstPrefix(ks, 0);
      } else {
        PrefixLengthIs(ks.tail);
        assert forall h :: 1 <= h < |list| ==> list[h] == rest[h - 1];
        if i: nat :| FirstPrefix(ks.tail, i) && PrefixLength(ks) == |SchemaList(rest[i].schemas)| {
          assert list[i + 1] == rest[i] && FirstPrefix(ks, i + 1);
        }
      }
    }
  }

  lemma {:induction false} LengthIs(subs: Schemas)
    ensures Length(subs) == |SchemaList(subs)|
  {
    if subs.OneOf? {
      LengthIs(subs.tail);
    }
  }

  ghost predicate ItemAt(lib: Lib, sub: Schema, js: Items, i: nat) {
    i < |ItemList(js)| ==> Satisfies(lib, sub, ItemList(js)[i])
  }

  /** Core, section 10.3.1.2: the items after the prefix satisfy the subschema. */
  lemma ItemsMeaning(lib: Lib, all: Keywords, sub: Schema, js: Items)
    ensures Holds(lib, all, ItemsOf(sub), Arr(js)) <==> forall i: nat :: i >= PrefixLength(all) ==> ItemAt(lib, sub, js, i)
  {
    var n, rest := PrefixLength(all), Rest(all, js);
    ItemsIff(lib, sub, rest);
    DroppedList(js, n);
    if ItemsHold(lib, sub, rest) {
      forall i: nat | i >= n
        ensures ItemAt(lib, sub, js, i)
      {
        assert ItemAt(lib, sub, rest, i - n);
      }
    }
    if forall i: nat :: i >= n ==> ItemAt(lib, sub, js, i) {
      forall i: nat
        ensures ItemAt(lib, sub, rest, i)
      {
        assert ItemAt(lib, sub, js, n + i);
      }
    }
  }

  lemma {:induction false} DroppedList(js: Items, n: nat)
    ensures ItemList(Dropped(js, n)) == if n <= |ItemList(js)| then ItemList(js)[n..] else []
  {
    if n > 0 && js.Item? {
      DroppedList(js.tail, n - 1);
    }
  }

  lemma {:induction false} ItemsIff(lib: Lib, sub: Schema, js: Items)
    ensures ItemsHold(lib, sub, js) <==> forall i: nat :: ItemAt(lib, sub, js, i)
  {
    if js.Item? {
      ItemsIff(lib, sub, js.tail);
      if ItemsHold(lib, sub, js) {
        forall i: nat
          ensures ItemAt(lib, sub, js, i)
        {
          assert i > 0 ==> ItemAt(lib, sub, js.tail, i - 1);
        }
      }
      if forall i: nat :: ItemAt(lib, sub, js, i) {
        assert ItemAt(lib, sub, js, 0);
        forall i: nat
          ensures ItemAt(lib, sub, js.tail, i)
        {
          assert ItemAt(lib, sub, js, i + 1);
        }
      }
    }
  }

  /** Object keywords ask nothing of other values, nor do array keywords. */
  lemma OtherValuesPass(lib: Lib, all: Keywords, k: Keyword, j: Json)
    requires k.Required? || k.Properties? || k.PatternProperties? || k.AdditionalProperties? || k.PrefixItems? || k.ItemsOf?
    requires if k.PrefixItems? || k.ItemsOf? then !j.Arr? else !j.Obj?
    ensures Holds(lib, all, k, j)
  {
  }

  // ------------------------------------------------------------------------- combinations

  ghost predicate SatisfiesAt(lib: Lib, subs: Schemas, i: nat, j: Json) {
    i < |SchemaList(subs)| && Satisfies(lib, SchemaList(subs)[i], j)
  }

  ghost predicate AllowedAt(lib: Lib, subs: Schemas, i: nat, j: Json) {
    i < |SchemaList(subs)| ==> Satisfies(lib, SchemaList(subs)[i], j)
  }

  /** Core, section 10.2.1.1: every subschema. */
  lemma AllOfMeaning(lib: Lib, all: Keywords, subs: Schemas, j: Json)
    ensures Holds(lib, all, AllOf(subs), j) <==> forall i: nat :: AllowedAt(lib, subs, i, j)
  {
    EachIff(lib, subs, j);
  }

  lemma {:induction false} EachIff(lib: Lib, subs: Schemas, j: Json)
    ensures EachHolds(lib, subs, j) <==> forall i: nat :: AllowedAt(lib, subs, i, j)
  {
    if subs.OneOf? {
      EachIff(lib, subs.tail, j);
      if EachHolds(lib, subs, j) {
        forall i: nat
          ensures AllowedAt(lib, subs, i, j)
        {
          assert i > 0 ==> AllowedAt(lib, subs.tail, i - 1, j);
        }
      }
      if forall i: nat :: AllowedAt(lib, subs, i, j) {
        assert AllowedAt(lib, subs, 0, j);
        forall i: nat
          ensures AllowedAt(lib, subs.tail, i, j)
        {
          assert AllowedAt(lib, subs, i + 1, j);
        }
      }
    }
  }

  /** Core, section 10.2.1.2: at least one subschema. */
  lemma AnyOfMeaning(lib: Lib, all: Keywords, subs: Schemas, j: Json)
    ensures Holds(lib, all, AnyOf(subs), j) <==> exists i: nat :: SatisfiesAt(lib, subs, i, j)
  {
    SomeIff(lib, subs, j);
  }

  lemma {:induction false} SomeIff(lib: Lib, subs: Schemas, j: Json)
    ensures SomeHolds(lib, subs, j) <==> exists i: nat :: SatisfiesAt(lib, subs, i, j)
  {
    if subs.OneOf? {
      SomeIff(lib, subs.tail, j);
      assert Satisfies(lib, subs.head, j) ==> SatisfiesAt(lib, subs, 0, j);
      if i: nat :| SatisfiesAt(lib, subs.tail, i, j) {
        assert SatisfiesAt(lib, subs, i + 1, j);
      }
      if i: nat :| SatisfiesAt(lib, subs, i, j) {
        assert i == 0 || SatisfiesAt(lib, subs.tail, i - 1, j);
      }
    }
  }

  /** Core, section 10.2.1.3: exactly one subschema. */
  lemma OneOfMeaning(lib: Lib, all: Keywords, subs: Schemas, j: Json)
    ensures Holds(lib, all, ExactlyOneOf(subs), j) <==>
      exists i: nat :: OnlyAt(lib, subs, i, j)
  {
    OneIff(lib, subs, j);
  }

  lemma {:induction false} NoneIff(lib: Lib, subs: Schemas, j: Json)
    ensures HoldCount(lib, subs, j) == 0 <==> forall i: nat :: !SatisfiesAt(lib, subs, i, j)
  {
    if subs.OneOf? {
      NoneIff(lib, subs.tail, j);
      if HoldCount(lib, subs, j) == 0 {
        forall i: nat
          ensures !SatisfiesAt(lib, subs, i, j)
        {
          assert i > 0 ==> !SatisfiesAt(lib, subs.tail, i - 1, j);
        }
      }
      if forall i: nat :: !SatisfiesAt(lib, subs, i, j) {
        assert !SatisfiesAt(lib, subs, 0, j);
        forall i: nat
          ensures !SatisfiesAt(lib, subs.tail, i, j)
        {
          assert !SatisfiesAt(lib, subs, i + 1, j);
        }
      }
    }
  }

  ghost predicate OnlyAt(lib: Lib, subs: Schemas, i: nat, j: Json) {
    SatisfiesAt(lib, subs, i, j) && forall h: nat :: SatisfiesAt(lib, subs, h, j) ==> h == i
  }

  lemma {:induction false} OneIff(lib: Lib, subs: Schemas, j: Json)
    ensures HoldCount(lib, subs, j) == 1 <==> exists i: nat :: OnlyAt(lib, subs, i, j)
  {
    if subs.OneOf? {
      OneIff(lib, subs.tail, j);
      NoneIff(lib, subs.tail, j);
      Shifted(lib, subs, j);
      if Satisfies(lib, subs.head, j) {
        assert SatisfiesAt(lib, subs, 0, j);
        if HoldCount(lib, subs.tail, j) == 0 {
          assert OnlyAt(lib, subs, 0, j);
        }
      } else {
        if i: nat :| OnlyAt(lib, subs.tail, i, j) {
          assert OnlyAt(lib, subs, i + 1, j);
        }
        if i: nat :| OnlyAt(lib, subs, i, j) {
          assert OnlyAt(lib, subs.tail, i - 1, j);
        }
      }
    }
  }

  lemma Shifted(lib: Lib, subs: Schemas, j: Json)
    requires subs.OneOf?
    ensures forall i: nat :: i > 0 ==> (SatisfiesAt(lib, subs, i, j) <==> SatisfiesAt(lib, subs.tail, i - 1, j))
    ensures forall i: nat :: SatisfiesAt(lib, subs.tail, i, j) ==> SatisfiesAt(lib, subs, i + 1, j)
    ensures SatisfiesAt(lib, subs, 0, j) <==> Satisfies(lib, subs.head, j)
  {
  }

  /** Core, sections 10.2.1.4 and 10.2.2: the negation, and the condition with its two branches. */
  lemma BranchMeaning(lib: Lib, all: Keywords, sub: Schema, test: Schema, yes: Schema, no: Schema, j: Json)
    ensures Holds(lib, all, Not(sub), j) <==> !Satisfies(lib, sub, j)
    ensures Satisfies(lib, test, j) ==> (Holds(lib, all, Conditional(test, yes, no), j) <==> Satisfies(lib, yes, j))
    ensures !Satisfies(lib, test, j) ==> (Holds(lib, all, Conditional(test, yes, no), j) <==> Satisfies(lib, no, j))
    ensures Satisfies(lib, Always, j) && !Satisfies(lib, Never, j)
  {
  }
}
