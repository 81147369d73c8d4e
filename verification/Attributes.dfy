/**
 `validate_attributes` and `_field_errors`: the evaluator's errors flattened, de-duplicated,
 put in a canonical order, and grouped by field.
 */
module Attributes {
  import opened Ordering
  import opened FieldSchema

  // ------------------------------------------------------------------------- the sort key

  predicate CharLeq(a: char, b: char) { a <= b }

  predicate StrLeq(a: string, b: string) { Lex(CharLeq, a, b) }

  predicate TupleLeq(a: seq<string>, b: seq<string>) { Lex(StrLeq, a, b) }

  function Decimal(n: nat): string {
    var digit := [('0' as int + n % 10) as char];
    if n < 10 then digit else Decimal(n / 10) + digit
  }

  /** `str` of a path component. */
  function Text(step: Step): string {
    match step
    case Key(name) => name
    case Index(i) => Decimal(i)
  }

  function Texts(p: Path): seq<string> {
    if p == [] then [] else [Text(p[0])] + Texts(p[1..])
  }

  /** The comparison behind the final `sorted`: the path's texts, then the message. */
  predicate KeyLeq(a: FieldError, b: FieldError) {
    if Texts(a.path) == Texts(b.path) then StrLeq(a.message, b.message)
    else TupleLeq(Texts(a.path), Texts(b.path))
  }

  lemma TextOrders()
    ensures Preorder(StrLeq) && Antisymmetric(StrLeq)
    ensures Preorder(TupleLeq) && Antisymmetric(TupleLeq)
  {
    LexLinear(CharLeq, StrLeq);
    LexLinear(StrLeq, TupleLeq);
  }

  lemma KeyPreorder()
    ensures Preorder(KeyLeq)
  {
    TextOrders();
    forall a, b, c | KeyLeq(a, b) && KeyLeq(b, c)
      ensures KeyLeq(a, c)
    {
      var p, q, r := Texts(a.path), Texts(b.path), Texts(c.path);
      if p != q && q != r {
        assert TupleLeq(p, q) && TupleLeq(q, r);
      }
    }
  }

  // ------------------------------------------------------------- what each error becomes

  function RequiredMessage(lib: Lib, name: string): string {
    "required property " + lib.repr(name) + " is missing"
  }

  function UnknownMessage(lib: Lib, name: string): string {
    "additional property " + lib.repr(name) + " is not allowed"
  }

  function NameUnknown(lib: Lib, at: Path, names: seq<string>): seq<FieldError> {
    if names == [] then []
    else
      var last := names[|names| - 1];
      NameUnknown(lib, at, names[..|names| - 1]) + [FieldError(at + [Key(last)], UnknownMessage(lib, last))]
  }

  function AdditionalErrors(lib: Lib, e: RawError): seq<FieldError> {
    if !e.instance.Obj? || Extras(lib, e.schema, e.instance.fields) == [] then [FieldError(e.path, e.message)]
    else NameUnknown(lib, e.path, Extras(lib, e.schema, e.instance.fields))
  }

  method AdditionalPropertyErrors(lib: Lib, e: RawError) returns (r: seq<FieldError>)
    ensures r == AdditionalErrors(lib, e)
  {
    if !e.instance.Obj? {
      return [FieldError(e.path, e.message)];
    }
    var unknown: seq<string> := [];
    var rest := e.instance.fields;
    while rest.Field?
      invariant unknown + Extras(lib, e.schema, rest) == Extras(lib, e.schema, e.instance.fields)
      decreases rest
    {
      if Unknown(lib, e.schema, rest.name) {
        unknown := unknown + [rest.name];
      }
      rest := rest.rest;
    }
    assert unknown + [] == unknown;
    if unknown == [] {
      return [FieldError(e.path, e.message)];
    }
    r := [];
    for i := 0 to |unknown|
      invariant r == NameUnknown(lib, e.path, unknown[..i])
    {
      assert unknown[..i + 1][..i] == unknown[..i];
      r := r + [FieldError(e.path + [Key(unknown[i])], UnknownMessage(lib, unknown[i]))];
    }
    assert unknown[..|unknown|] == unknown;
  }

  lemma {:induction false} NamedIff(lib: Lib, at: Path, names: seq<string>, f: FieldError)
    ensures f in NameUnknown(lib, at, names) <==> exists n :: n in names && f == FieldError(at + [Key(n)], UnknownMessage(lib, n))
  {
    if names != [] {
      var last := names[|names| - 1];
      NamedIff(lib, at, names[..|names| - 1], f);
      assert last in names;
      assert forall n :: n in names <==> n == last || n in names[..|names| - 1];
    }
  }

  lemma {:induction false} NamedAsOften(lib: Lib, at: Path, names: seq<string>, n: string)
    ensures multiset(NameUnknown(lib, at, names))[FieldError(at + [Key(n)], UnknownMessage(lib, n))] == multiset(names)[n]
  {
    if names != [] {
      var front, last := names[..|names| - 1], names[|names| - 1];
      NamedAsOften(lib, at, front, n);
      assert names == front + [last];
      assert (at + [Key(last)])[|at|] == Key(last) && (at + [Key(n)])[|at|] == Key(n);
    }
  }

  lemma UnknownNamedIff(lib: Lib, root: Json, e: RawError, f: FieldError)
    requires Sound(lib, root, e) && e.validator.AdditionalV?
    ensures f in AdditionalErrors(lib, e) <==>
      exists n :: Has(e.instance.fields, n) && Unknown(lib, e.schema, n) && f == FieldError(e.path + [Key(n)], UnknownMessage(lib, n))
    ensures DistinctNames(e.instance.fields) ==> multiset(AdditionalErrors(lib, e))[f] <= 1
  {
    var extras := Extras(lib, e.schema, e.instance.fields);
    NamedIff(lib, e.path, extras, f);
    if DistinctNames(e.instance.fields) && f in AdditionalErrors(lib, e) {
      var n :| n in extras && f == FieldError(e.path + [Key(n)], UnknownMessage(lib, n));
      NamedAsOften(lib, e.path, extras, n);
      ExtrasOnce(lib, e.schema, e.instance.fields, n);
    }
    forall n
      ensures n in extras <==> Has(e.instance.fields, n) && Unknown(lib, e.schema, n)
    {
      ExtrasIff(lib, e.schema, e.instance.fields, n);
    }
  }

  /** A member of the object the error is about, declared and matched by nothing. */
  ghost predicate UnknownMember(lib: Lib, e: RawError, name: string)
    requires e.instance.Obj?
  {
    (exists i: nat :: NamedAt(e.instance.fields, i, name)) && NobodyNames(lib, e.schema, name)
  }

  predicate IsUnknownError(lib: Lib, e: RawError, name: string, f: FieldError) {
    f == FieldError(e.path + [Key(name)], "additional property " + lib.repr(name) + " is not allowed")
  }

  /**
   An `additionalProperties` error of the evaluator is replaced by one error for every
   member no sibling keyword knows, and nothing else: its own text never survives. Each
   such error comes once, since an object's member names are distinct.
   */
  lemma EveryUnknownFieldNamed(lib: Lib, root: Json, e: RawError, f: FieldError)
    requires Sound(lib, root, e) && e.validator.AdditionalV?
    ensures f in AdditionalErrors(lib, e) <==> exists n :: UnknownMember(lib, e, n) && IsUnknownError(lib, e, n, f)
    ensures DistinctNames(e.instance.fields) ==> multiset(AdditionalErrors(lib, e))[f] <= 1
  {
    UnknownNamedIff(lib, root, e, f);
    forall n
      ensures UnknownMember(lib, e, n) <==> Has(e.instance.fields, n) && Unknown(lib, e.schema, n)
    {
      HasIff(e.instance.fields, n);
      UnknownIff(lib, e.schema, n);
    }
  }

  type Marker = (Path, string)

  predicate MissesFields(e: RawError) {
    e.validator.RequiredV? && e.instance.Obj?
  }

  /** The (path, field) pairs a `required` error stands for. */
  function MarkersOf(e: RawError): set<Marker> {
    if MissesFields(e) then set n | n in e.required && !Has(e.instance.fields, n) :: (e.path, n) else {}
  }

  /** Everything else an error becomes. */
  function Expand(lib: Lib, e: RawError): seq<FieldError> {
    if e.validator.AdditionalV? then AdditionalErrors(lib, e)
    else if MissesFields(e) then []
    else [FieldError(e.path, e.message)]
  }

  function Missing(lib: Lib, m: Marker): FieldError {
    FieldError(m.0 + [Key(m.1)], RequiredMessage(lib, m.1))
  }

  lemma MissingInjective(lib: Lib, a: Marker, b: Marker)
    requires Missing(lib, a) == Missing(lib, b)
    ensures a == b
  {
    SamePathSameMarker(a, b);
  }

  ghost function Markers(raws: seq<RawError>): set<Marker> {
    set e, m | e in raws && m in MarkersOf(e) :: m
  }

  ghost function Others(lib: Lib, raws: seq<RawError>): multiset<FieldError> {
    if raws == [] then multiset{}
    else Others(lib, raws[..|raws| - 1]) + multiset(Expand(lib, raws[|raws| - 1]))
  }

  ghost function MissingErrors(lib: Lib, ms: set<Marker>): set<FieldError> {
    set m | m in ms :: Missing(lib, m)
  }

  /**
   What a report must be: in canonical order, each missing field once however many
   `required` errors named it, and every other error as often as it was yielded.
   */
  ghost predicate Report(lib: Lib, raws: seq<RawError>, report: seq<FieldError>) {
    && Sorted(KeyLeq, report)
    && multiset(report) == Others(lib, raws) + multiset(MissingErrors(lib, Markers(raws)))
  }

  method ValidateAttributes(lib: Lib, schema: Schema, attributes: Fields) returns (report: seq<FieldError>)
    ensures Report(lib, Errors(lib, schema, Obj(attributes), []), report)
  {
    var raws := Errors(lib, schema, Obj(attributes), []);
    report := Flatten(lib, raws);
  }

  /** The loop over the evaluator's errors, then the sort. */
  method Flatten(lib: Lib, raws: seq<RawError>) returns (report: seq<FieldError>)
    ensures Report(lib, raws, report)
  {
    var errors: seq<FieldError> := [];
    var seen: set<Marker> := {};
    for i := 0 to |raws|
      invariant seen == Markers(raws[..i])
      invariant multiset(errors) == Others(lib, raws[..i]) + multiset(MissingErrors(lib, seen))
    {
      NextError(lib, raws, i);
      errors, seen := FlattenOne(lib, raws[i], errors, seen, Others(lib, raws[..i]));
    }
    assert raws[..|raws|] == raws;
    KeyPreorder();
    SortSorts(KeyLeq, errors);
    report := Sort(KeyLeq, errors);
  }

  method FlattenOne(lib: Lib, e: RawError, errors: seq<FieldError>, seen: set<Marker>, ghost others: multiset<FieldError>)
    returns (errors': seq<FieldError>, seen': set<Marker>)
    requires multiset(errors) == others + multiset(MissingErrors(lib, seen))
    ensures seen' == seen + MarkersOf(e)
    ensures multiset(errors') == others + multiset(Expand(lib, e)) + multiset(MissingErrors(lib, seen'))
  {
    errors', seen' := errors, seen;
    if e.validator.AdditionalV? {
      var more := AdditionalPropertyErrors(lib, e);
      errors' := errors + more;
      assert seen' == seen + MarkersOf(e);
    } else if MissesFields(e) {
      errors', seen' := ReportMissing(lib, e, errors, seen, others);
    } else {
      errors' := errors + [FieldError(e.path, e.message)];
    }
  }

  /** The inner loop: one error for every field of the list that is missing and not yet reported. */
  method ReportMissing(lib: Lib, e: RawError, errors: seq<FieldError>, seen: set<Marker>, ghost others: multiset<FieldError>)
    returns (errors': seq<FieldError>, seen': set<Marker>)
    requires MissesFields(e)
    requires multiset(errors) == others + multiset(MissingErrors(lib, seen))
    ensures seen' == seen + MarkersOf(e)
    ensures multiset(errors') == others + multiset(MissingErrors(lib, seen'))
  {
    errors', seen' := errors, seen;
    for k := 0 to |e.required|
      invariant seen' == seen + set n | n in e.required[..k] && !Has(e.instance.fields, n) :: (e.path, n)
      invariant multiset(errors') == others + multiset(MissingErrors(lib, seen'))
    {
      var field := e.required[k];
      assert e.required[..k + 1] == e.required[..k] + [field];
      if !Has(e.instance.fields, field) {
        var marker := (e.path, field);
        if marker !in seen' {
          OneMoreMissing(lib, seen', marker);
          seen' := seen' + {marker};
          errors' := errors' + [Missing(lib, marker)];
        }
      }
    }
    assert e.required[..|e.required|] == e.required;
  }

  lemma OneMoreMissing(lib: Lib, seen: set<Marker>, m: Marker)
    requires m !in seen
    ensures multiset(MissingErrors(lib, seen + {m})) == multiset(MissingErrors(lib, seen)) + multiset{Missing(lib, m)}
  {
    var before := MissingErrors(lib, seen);
    if Missing(lib, m) in before {
      var m' :| m' in seen && Missing(lib, m') == Missing(lib, m);
      MissingInjective(lib, m, m');
    }
    assert MissingErrors(lib, seen + {m}) == before + {Missing(lib, m)};
  }

  lemma NextError(lib: Lib, raws: seq<RawError>, i: nat)
    requires i < |raws|
    ensures Markers(raws[..i + 1]) == Markers(raws[..i]) + MarkersOf(raws[i])
    ensures Others(lib, raws[..i + 1]) == Others(lib, raws[..i]) + multiset(Expand(lib, raws[i]))
  {
    assert raws[..i + 1] == raws[..i] + [raws[i]];
    assert raws[..i + 1][..i] == raws[..i];
  }

  // ------------------------------------------------------------------------- completeness

  lemma {:induction false} NothingFromNothing(lib: Lib, root: Json, raws: seq<RawError>)
    requires AllSound(lib, root, raws)
    ensures Others(lib, raws) == multiset{} && Markers(raws) == {} <==> raws == []
  {
    if raws != [] {
      var e := raws[|raws| - 1];
      assert e in raws && Sound(lib, root, e);
      if e.validator.RequiredV? {
        var n :| n in e.required && !Has(e.instance.fields, n);
        assert (e.path, n) in MarkersOf(e);
        assert (e.path, n) in Markers(raws);
      } else {
        assert |Expand(lib, e)| > 0 && Expand(lib, e)[0] in multiset(Expand(lib, e));
      }
    }
  }

  /** The report is empty exactly when the attributes satisfy the schema. */
  lemma EmptyIffValid(lib: Lib, schema: Schema, attributes: Fields, report: seq<FieldError>)
    requires Report(lib, Errors(lib, schema, Obj(attributes), []), report)
    ensures report == [] <==> Satisfies(lib, schema, Obj(attributes))
  {
    var root := Obj(attributes);
    var raws := Errors(lib, schema, root, []);
    EvaluatorCorrect(lib, root, schema, root, []);
    NothingFromNothing(lib, root, raws);
    MarkersAreReported(lib, Markers(raws));
    assert report == [] <==> multiset(report) == multiset{} by {
      assert |multiset(report)| == |report|;
    }
  }

  lemma MarkersAreReported(lib: Lib, ms: set<Marker>)
    ensures multiset(MissingErrors(lib, ms)) == multiset{} <==> ms == {}
  {
    if ms != {} {
      var m :| m in ms;
      assert Missing(lib, m) in multiset(MissingErrors(lib, ms));
    }
  }

  /** Every error but those for missing fields is at a path that is there. */
  lemma {:induction false} OthersResolve(lib: Lib, root: Json, raws: seq<RawError>)
    requires AllSound(lib, root, raws)
    ensures forall f :: f in Others(lib, raws) ==> Resolve(root, f.path).Some?
  {
    if raws != [] {
      var e := raws[|raws| - 1];
      OthersResolve(lib, root, raws[..|raws| - 1]);
      assert e in raws && Sound(lib, root, e);
      forall f | f in Expand(lib, e)
        ensures Resolve(root, f.path).Some?
      {
        if e.validator.AdditionalV? {
          UnknownNamedIff(lib, root, e, f);
          var n :| Has(e.instance.fields, n) && f == FieldError(e.path + [Key(n)], UnknownMessage(lib, n));
          ResolveOneMore(root, e.path, Key(n));
        }
      }
    }
  }

  /**
   A field missing at a path is reported exactly once, however many overlapping subschemas
   require it, and nothing else in the report is about that path.
   */
  lemma MissingReportedOnce(lib: Lib, schema: Schema, attributes: Fields, raws: seq<RawError>, report: seq<FieldError>,
                            e: RawError, n: string)
    requires multiset(raws) == multiset(Errors(lib, schema, Obj(attributes), []))
    requires Report(lib, raws, report)
    requires e in raws && MissesFields(e) && n in e.required && !Has(e.instance.fields, n)
    ensures multiset(report)[Missing(lib, (e.path, n))] == 1
    ensures forall f :: f in report && f.path == e.path + [Key(n)] ==> f == Missing(lib, (e.path, n))
  {
    var root := Obj(attributes);
    EvaluatorCorrect(lib, root, schema, root, []);
    SoundnessPermutes(lib, root, Errors(lib, schema, root, []), raws);
    OthersResolve(lib, root, raws);
    ResolveOneMore(root, e.path, Key(n));
    assert (e.path, n) in MarkersOf(e);
    assert (e.path, n) in Markers(raws);
    forall f | f in report && f.path == e.path + [Key(n)]
      ensures f == Missing(lib, (e.path, n))
    {
      assert f in multiset(report);
      var m :| m in Markers(raws) && f == Missing(lib, m);
      SamePathSameMarker(m, (e.path, n));
    }
  }

  lemma SamePathSameMarker(a: Marker, b: Marker)
    requires a.0 + [Key(a.1)] == b.0 + [Key(b.1)]
    ensures a == b
  {
    var p, q := a.0 + [Key(a.1)], b.0 + [Key(b.1)];
    assert p[..|p| - 1] == a.0 && q[..|q| - 1] == b.0;
    assert p[|p| - 1] == Key(a.1) && q[|q| - 1] == Key(b.1);
  }

  lemma SoundnessPermutes(lib: Lib, root: Json, a: seq<RawError>, b: seq<RawError>)
    requires AllSound(lib, root, a) && multiset(a) == multiset(b)
    ensures AllSound(lib, root, b)
  {
    forall e | e in b
      ensures Sound(lib, root, e)
    {
      assert e in multiset(b) && e in multiset(a);
    }
  }

  lemma {:induction false} OthersConcat(lib: Lib, a: seq<RawError>, b: seq<RawError>)
    ensures Others(lib, a + b) == Others(lib, a) + Others(lib, b)
    decreases |b|
  {
    if b == [] {
      assert a + b == a;
    } else {
      var front, last := b[..|b| - 1], b[|b| - 1];
      OthersConcat(lib, a, front);
      Regroup(a, front, last, b);
      OthersOneMore(lib, a + front, last);
      OthersOneMore(lib, front, last);
      SumAssociates(Others(lib, a), Others(lib, front), multiset(Expand(lib, last)));
    }
  }

  lemma Regroup(a: seq<RawError>, front: seq<RawError>, last: RawError, b: seq<RawError>)
    requires b != [] && front == b[..|b| - 1] && last == b[|b| - 1]
    ensures b == front + [last] && a + b == (a + front) + [last]
  {
  }

  lemma SumAssociates(x: multiset<FieldError>, y: multiset<FieldError>, z: multiset<FieldError>)
    ensures (x + y) + z == x + (y + z)
  {
  }

  lemma OthersOneMore(lib: Lib, raws: seq<RawError>, e: RawError)
    ensures Others(lib, raws + [e]) == Others(lib, raws) + multiset(Expand(lib, e))
  {
    assert (raws + [e])[..|raws|] == raws;
  }

  lemma OthersWithout(lib: Lib, pre: seq<RawError>, e: RawError, post: seq<RawError>)
    ensures Others(lib, pre + [e] + post) == Others(lib, pre + post) + multiset(Expand(lib, e))
  {
    OthersConcat(lib, pre + [e], post);
    OthersConcat(lib, pre, [e]);
    OthersConcat(lib, pre, post);
    assert [e][..0] == [];
  }

  lemma SplitAt(s: seq<RawError>, e: RawError) returns (pre: seq<RawError>, post: seq<RawError>)
    requires e in s
    ensures s == pre + [e] + post
    ensures multiset(s) == multiset(pre + post) + multiset{e}
  {
    var i :| 0 <= i < |s| && s[i] == e;
    pre, post := s[..i], s[i + 1..];
    assert s == pre + [e] + post;
  }

  lemma {:induction false} OthersOfPermutation(lib: Lib, a: seq<RawError>, b: seq<RawError>)
    requires multiset(a) == multiset(b)
    ensures Others(lib, a) == Others(lib, b)
  {
    assert |multiset(a)| == |a| && |multiset(b)| == |b|;
    if a != [] {
      var front, last := a[..|a| - 1], a[|a| - 1];
      assert last in multiset(a) && last in multiset(b);
      var pre, post := SplitAt(b, last);
      assert a == front + [last];
      assert multiset(front) == multiset(a) - multiset{last} == multiset(pre + post);
      OthersOfPermutation(lib, front, pre + post);
      OthersWithout(lib, pre, last, post);
    }
  }

  lemma MarkersOfPermutation(a: seq<RawError>, b: seq<RawError>)
    requires multiset(a) == multiset(b)
    ensures Markers(a) == Markers(b)
  {
    forall e
      ensures e in a <==> e in b
    {
      assert e in multiset(a) <==> e in multiset(b);
    }
  }

  /** A path that can be walked from the root, up to a last step that may name a missing member. */
  predicate Addressable(j: Json, p: Path)
    decreases |p|
  {
    p == [] ||
    match p[0]
    case Key(name) => j.Obj? && (|p| == 1 || (Has(j.fields, name) && Addressable(Get(j.fields, name), p[1..])))
    case Index(i) => j.Arr? && Nth(j.items, i).Some? && Addressable(Nth(j.items, i).value, p[1..])
  }

  lemma {:induction false} ResolvedIsAddressable(j: Json, p: Path, name: string)
    requires Resolve(j, p).Some?
    ensures Addressable(j, p)
    ensures Resolve(j, p).value.Obj? ==> Addressable(j, p + [Key(name)])
    decreases |p|
  {
    if p == [] {
      assert p + [Key(name)] == [Key(name)];
    } else {
      assert (p + [Key(name)])[1..] == p[1..] + [Key(name)];
      match p[0]
      case Key(n) => ResolvedIsAddressable(Get(j.fields, n), p[1..], name);
      case Index(i) => ResolvedIsAddressable(Nth(j.items, i).value, p[1..], name);
    }
  }

  function Value(s: string): int {
    if s == [] then 0 else 10 * Value(s[..|s| - 1]) + (s[|s| - 1] as int - '0' as int)
  }

  lemma {:induction false} DecimalReadsBack(n: nat)
    ensures Value(Decimal(n)) == n
  {
    var digit := ('0' as int + n % 10) as char;
    assert Value([digit]) == n % 10 by {
      assert [digit][..0] == [];
    }
    if n >= 10 {
      DecimalReadsBack(n / 10);
      assert (Decimal(n / 10) + [digit])[..|Decimal(n / 10)|] == Decimal(n / 10);
    }
  }

  /** Within one instance, a path is determined by the texts of its components. */
  lemma {:induction false} TextsDeterminePath(j: Json, p: Path, q: Path)
    requires Addressable(j, p) && Addressable(j, q) && Texts(p) == Texts(q)
    ensures p == q
    decreases |p|
  {
    if p != [] && q != [] {
      assert Texts(p)[0] == Text(p[0]) && Texts(q)[0] == Text(q[0]);
      assert Texts(p)[1..] == Texts(p[1..]) && Texts(q)[1..] == Texts(q[1..]);
      assert p == [p[0]] + p[1..] && q == [q[0]] + q[1..];
      match p[0]
      case Key(name) =>
        if |p| > 1 && |q| > 1 {
          TextsDeterminePath(Get(j.fields, name), p[1..], q[1..]);
        } else {
          SameLength(p, q);
        }
      case Index(i) =>
        DecimalReadsBack(i);
        DecimalReadsBack(q[0].i);
        TextsDeterminePath(Nth(j.items, i).value, p[1..], q[1..]);
    } else {
      SameLength(p, q);
    }
  }

  lemma {:induction false} TextsLength(p: Path)
    ensures |Texts(p)| == |p|
  {
    if p != [] {
      TextsLength(p[1..]);
    }
  }

  lemma SameLength(p: Path, q: Path)
    requires Texts(p) == Texts(q)
    ensures |p| == |q|
  {
    TextsLength(p);
    TextsLength(q);
  }

  ghost predicate AllAddressable(root: Json, fs: multiset<FieldError>) {
    forall f :: f in fs ==> Addressable(root, f.path)
  }

  lemma OthersAddressable(lib: Lib, root: Json, raws: seq<RawError>)
    requires AllSound(lib, root, raws)
    ensures AllAddressable(root, Others(lib, raws))
  {
    OthersResolve(lib, root, raws);
    forall f | f in Others(lib, raws)
      ensures Addressable(root, f.path)
    {
      ResolvedIsAddressable(root, f.path, "");
    }
  }

  lemma MissingAddressable(lib: Lib, root: Json, raws: seq<RawError>)
    requires AllSound(lib, root, raws)
    ensures AllAddressable(root, multiset(MissingErrors(lib, Markers(raws))))
  {
    forall f | f in MissingErrors(lib, Markers(raws))
      ensures Addressable(root, f.path)
    {
      var m :| m in Markers(raws) && f == Missing(lib, m);
      var e :| e in raws && m in MarkersOf(e);
      ResolvedIsAddressable(root, e.path, m.1);
    }
  }

  /** The report does not depend on the order in which the evaluator yields its errors. */
  lemma ReportIsCanonical(lib: Lib, schema: Schema, attributes: Fields, a: seq<RawError>, b: seq<RawError>,
                          reportA: seq<FieldError>, reportB: seq<FieldError>)
    requires multiset(a) == multiset(b) == multiset(Errors(lib, schema, Obj(attributes), []))
    requires Report(lib, a, reportA) && Report(lib, b, reportB)
    ensures reportA == reportB
  {
    var root := Obj(attributes);
    var raws := Errors(lib, schema, root, []);
    EvaluatorCorrect(lib, root, schema, root, []);
    OthersOfPermutation(lib, a, raws);
    OthersOfPermutation(lib, b, raws);
    MarkersOfPermutation(a, raws);
    MarkersOfPermutation(b, raws);
    KeyPreorder();
    TextOrders();
    OthersAddressable(lib, root, raws);
    MissingAddressable(lib, root, raws);
    forall x, y | x in reportA && y in reportA && KeyLeq(x, y) && KeyLeq(y, x)
      ensures x == y
    {
      assert x in multiset(reportA) && y in multiset(reportA);
      SameKeySameError(root, x, y);
    }
    SortedUnique(KeyLeq, reportA, reportB);
  }

  lemma SameKeySameError(root: Json, x: FieldError, y: FieldError)
    requires Addressable(root, x.path) && Addressable(root, y.path)
    requires KeyLeq(x, y) && KeyLeq(y, x)
    ensures x == y
  {
    TextOrders();
    assert Texts(x.path) == Texts(y.path);
    TextsDeterminePath(root, x.path, y.path);
  }

  // ------------------------------------------------------------------------- grouping

  function Joined(texts: seq<string>): string {
    if texts == [] then ""
    else if |texts| == 1 then texts[0]
    else texts[0] + "." + Joined(texts[1..])
  }

  /** The key an error is grouped under. */
  function GroupOf(e: FieldError): string {
    if Joined(Texts(e.path)) == "" then "attributes" else Joined(Texts(e.path))
  }

  /** The messages of one group, in report order. */
  function MessagesOf(errors: seq<FieldError>, group: string): seq<string> {
    if errors == [] then []
    else
      Extended(errors[|errors| - 1], MessagesOf(errors[..|errors| - 1], group), group)
  }

  function Extended(e: FieldError, messages: seq<string>, group: string): seq<string> {
    if GroupOf(e) == group then messages + [e.message] else messages
  }

  ghost function Groups(errors: seq<FieldError>): set<string> {
    set e | e in errors :: GroupOf(e)
  }

  function Found(result: map<string, seq<string>>, group: string): seq<string> {
    if group in result then result[group] else []
  }

  /** Under every key, exactly the messages of that group, in order; no other key. */
  ghost predicate GroupedBy(result: map<string, seq<string>>, errors: seq<FieldError>) {
    && result.Keys == Groups(errors)
    && forall group :: Found(result, group) == MessagesOf(errors, group)
  }

  lemma NextGroup(result: map<string, seq<string>>, errors: seq<FieldError>, i: nat)
    requires i < |errors| && GroupedBy(result, errors[..i])
    ensures GroupedBy(result[GroupOf(errors[i]) := Found(result, GroupOf(errors[i])) + [errors[i].message]], errors[..i + 1])
  {
    var e := errors[i];
    var result' := result[GroupOf(e) := Found(result, GroupOf(e)) + [e.message]];
    assert errors[..i + 1] == errors[..i] + [e];
    assert errors[..i + 1][..i] == errors[..i];
    assert Groups(errors[..i + 1]) == Groups(errors[..i]) + {GroupOf(e)};
    forall group
      ensures Found(result', group) == MessagesOf(errors[..i + 1], group)
    {
      assert MessagesOf(errors[..i + 1], group) == Extended(e, MessagesOf(errors[..i], group), group);
    }
  }

  method GroupByField(errors: seq<FieldError>) returns (result: map<string, seq<string>>)
    ensures GroupedBy(result, errors)
  {
    result := map[];
    for i := 0 to |errors|
      invariant GroupedBy(result, errors[..i])
    {
      NextGroup(result, errors, i);
      var group := GroupOf(errors[i]);
      result := result[group := Found(result, group) + [errors[i].message]];
    }
    assert errors[..|errors|] == errors;
  }

  ghost function Grouped(errors: seq<FieldError>): multiset<(string, string)> {
    if errors == [] then multiset{}
    else
      var last := errors[|errors| - 1];
      Grouped(errors[..|errors| - 1]) + multiset{(GroupOf(last), last.message)}
  }

  /** Grouping keeps every message: each group's list holds a message as often as errors of that group carry it. */
  lemma {:induction false} GroupingKeepsMessages(errors: seq<FieldError>, group: string, message: string)
    ensures multiset(MessagesOf(errors, group))[message] == Grouped(errors)[(group, message)]
  {
    if errors != [] {
      GroupingKeepsMessages(errors[..|errors| - 1], group, message);
    }
  }
}
