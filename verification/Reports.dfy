/**
 What a validation report says and in which order, over the evaluator's errors, the
 instance's members and the characters of the texts.
 */
module Reports {
  import opened Wrappers
  import opened Ordering
  import opened FieldSchema
  import opened Attributes

  // ------------------------------------------------------------------------- contents

  /** Some listed name is no member of the object, and the error tells it. */
  ghost predicate TellsMissing(lib: Lib, e: RawError, f: FieldError)
    requires e.instance.Obj?
  {
    exists n :: n in e.required && (forall i: nat :: !NamedAt(e.instance.fields, i, n)) && IsMissingError(lib, e, n, f)
  }

  predicate IsMissingError(lib: Lib, e: RawError, name: string, f: FieldError) {
    f == FieldError(e.path + [Key(name)], "required property " + lib.repr(name) + " is missing")
  }

  ghost predicate TellsUnknown(lib: Lib, e: RawError, f: FieldError)
    requires e.instance.Obj?
  {
    exists n :: UnknownMember(lib, e, n) && IsUnknownError(lib, e, n, f)
  }

  /** What an error of the evaluator becomes: missing names, unknown members, or its own text at its own path. */
  ghost predicate Tells(lib: Lib, e: RawError, f: FieldError) {
    match e.validator
    case RequiredV => e.instance.Obj? && TellsMissing(lib, e, f)
    case AdditionalV => e.instance.Obj? && TellsUnknown(lib, e, f)
    case OtherV => f == FieldError(e.path, e.message)
  }

  lemma TellsIff(lib: Lib, root: Json, e: RawError, f: FieldError)
    requires Sound(lib, root, e)
    ensures Tells(lib, e, f) <==> f in Expand(lib, e) || exists m :: m in MarkersOf(e) && f == Missing(lib, m)
  {
    if e.validator.AdditionalV? {
      EveryUnknownFieldNamed(lib, root, e, f);
    } else if e.validator.RequiredV? {
      forall n
        ensures Has(e.instance.fields, n) <==> exists i: nat :: NamedAt(e.instance.fields, i, n)
      {
        HasIff(e.instance.fields, n);
      }
      if TellsMissing(lib, e, f) {
        var n :| n in e.required && (forall i: nat :: !NamedAt(e.instance.fields, i, n)) && IsMissingError(lib, e, n, f);
        assert (e.path, n) in MarkersOf(e) && f == Missing(lib, (e.path, n));
      }
      if m :| m in MarkersOf(e) && f == Missing(lib, m) {
        assert IsMissingError(lib, e, m.1, f);
      }
    }
  }

  lemma {:induction false} OthersAre(lib: Lib, raws: seq<RawError>, f: FieldError)
    ensures f in Others(lib, raws) <==> exists e :: e in raws && f in Expand(lib, e)
  {
    if raws != [] {
      var front, last := raws[..|raws| - 1], raws[|raws| - 1];
      OthersAre(lib, front, f);
      assert forall e :: e in raws <==> e in front || e == last;
    }
  }

  /** The report holds exactly what the evaluator's errors tell. */
  lemma ReportTells(lib: Lib, root: Json, raws: seq<RawError>, report: seq<FieldError>, f: FieldError)
    requires AllSound(lib, root, raws) && Report(lib, raws, report)
    ensures f in report <==> exists e :: e in raws && Tells(lib, e, f)
  {
    assert f in report <==> f in multiset(report);
    OthersAre(lib, raws, f);
    forall e | e in raws
      ensures Tells(lib, e, f) <==> f in Expand(lib, e) || exists m :: m in MarkersOf(e) && f == Missing(lib, m)
    {
      TellsIff(lib, root, e, f);
    }
    MissingAre(lib, raws, f);
  }

  lemma MissingAre(lib: Lib, raws: seq<RawError>, f: FieldError)
    ensures f in MissingErrors(lib, Markers(raws)) <==> exists e, m :: e in raws && m in MarkersOf(e) && f == Missing(lib, m)
  {
    if f in MissingErrors(lib, Markers(raws)) {
      var m :| m in Markers(raws) && f == Missing(lib, m);
      var e :| e in raws && m in MarkersOf(e);
    }
    if e, m :| e in raws && m in MarkersOf(e) && f == Missing(lib, m) {
      assert m in Markers(raws);
    }
  }

  /** The positions at which the evaluator yielded this very text at this path. */
  ghost function YieldedAt(raws: seq<RawError>, f: FieldError): set<nat> {
    set i: nat | i < |raws| && raws[i].validator.OtherV? && FieldError(raws[i].path, raws[i].message) == f
  }

  ghost predicate OnlyOtherwise(lib: Lib, root: Json, raws: seq<RawError>, f: FieldError) {
    forall e :: e in raws && !e.validator.OtherV? ==> !Tells(lib, e, f)
  }

  lemma {:induction false} OthersAsOften(lib: Lib, root: Json, raws: seq<RawError>, f: FieldError)
    requires AllSound(lib, root, raws) && OnlyOtherwise(lib, root, raws, f)
    ensures Others(lib, raws)[f] == |YieldedAt(raws, f)|
  {
    if raws != [] {
      var front, last := raws[..|raws| - 1], raws[|raws| - 1];
      assert last in raws && forall e :: e in front ==> e in raws;
      OthersAsOften(lib, root, front, f);
      ExpandedOnce(lib, root, last, f);
      YieldedNext(raws, f);
    }
  }

  lemma ExpandedOnce(lib: Lib, root: Json, e: RawError, f: FieldError)
    requires Sound(lib, root, e) && (!e.validator.OtherV? ==> !Tells(lib, e, f))
    ensures multiset(Expand(lib, e))[f] == if e.validator.OtherV? && FieldError(e.path, e.message) == f then 1 else 0
  {
    TellsIff(lib, root, e, f);
  }

  lemma YieldedNext(raws: seq<RawError>, f: FieldError)
    requires raws != []
    ensures var n := |raws| - 1;
      |YieldedAt(raws, f)| == |YieldedAt(raws[..n], f)|
        + (if raws[n].validator.OtherV? && FieldError(raws[n].path, raws[n].message) == f then 1 else 0)
  {
    var n := |raws| - 1;
    if n in YieldedAt(raws, f) {
      assert YieldedAt(raws, f) == YieldedAt(raws[..n], f) + {n};
    } else {
      assert YieldedAt(raws, f) == YieldedAt(raws[..n], f);
    }
  }

  /** An error that is neither of a missing nor of an unknown member is reported as often as it was yielded. */
  lemma OtherErrorsAsOften(lib: Lib, root: Json, raws: seq<RawError>, report: seq<FieldError>, f: FieldError)
    requires AllSound(lib, root, raws) && Report(lib, raws, report) && OnlyOtherwise(lib, root, raws, f)
    ensures multiset(report)[f] == |YieldedAt(raws, f)|
  {
    OthersAsOften(lib, root, raws, f);
    MissingAre(lib, raws, f);
    if e, m :| e in raws && m in MarkersOf(e) && f == Missing(lib, m) {
      TellsIff(lib, root, e, f);
    }
  }

  // ------------------------------------------------------------------------- order

  /** The texts agree before position `k`, where `a` ends or has the smaller character. */
  predicate SmallerAt(a: string, b: string, k: nat) {
    k <= |a| && k <= |b| && a[..k] == b[..k] && (k == |a| || (k < |b| && a[k] < b[k]))
  }

  ghost predicate StringAtMost(a: string, b: string) {
    exists k: nat :: SmallerAt(a, b, k)
  }

  /** The tuples agree before position `k`, where `a` ends or has the smaller text. */
  ghost predicate TupleSmallerAt(a: seq<string>, b: seq<string>, k: nat) {
    k <= |a| && k <= |b| && a[..k] == b[..k] && (k == |a| || (k < |b| && a[k] != b[k] && StringAtMost(a[k], b[k])))
  }

  lemma {:induction false} LexCut<T>(leq: (T, T) -> bool, a: seq<T>, b: seq<T>) returns (k: nat)
    requires Lex(leq, a, b)
    ensures k <= |a| && k <= |b| && a[..k] == b[..k]
    ensures k == |a| || (k < |b| && a[k] != b[k] && leq(a[k], b[k]))
  {
    if a == [] || b == [] || a[0] != b[0] {
      k := 0;
    } else {
      var rest := LexCut(leq, a[1..], b[1..]);
      k := rest + 1;
      assert a[..k] == [a[0]] + a[1..][..rest] && b[..k] == [b[0]] + b[1..][..rest];
    }
  }

  lemma StringOrder(a: string, b: string)
    requires StrLeq(a, b)
    ensures StringAtMost(a, b)
  {
    var k := LexCut(CharLeq, a, b);
    assert SmallerAt(a, b, k);
  }

  /** In a report, the earlier error has the smaller path texts, and on equal texts the smaller message. */
  lemma ReportIsOrdered(lib: Lib, raws: seq<RawError>, report: seq<FieldError>, i: nat, j: nat)
    requires Report(lib, raws, report) && i < j < |report|
    ensures Texts(report[i].path) == Texts(report[j].path) ==> StringAtMost(report[i].message, report[j].message)
    ensures exists k: nat :: TupleSmallerAt(Texts(report[i].path), Texts(report[j].path), k)
  {
    var a, b := report[i], report[j];
    assert KeyLeq(a, b);
    if Texts(a.path) == Texts(b.path) {
      StringOrder(a.message, b.message);
      assert TupleSmallerAt(Texts(a.path), Texts(b.path), |Texts(a.path)|);
    } else {
      var k := LexCut(StrLeq, Texts(a.path), Texts(b.path));
      if k < |Texts(a.path)| {
        StringOrder(Texts(a.path)[k], Texts(b.path)[k]);
      }
      assert TupleSmallerAt(Texts(a.path), Texts(b.path), k);
    }
  }

  /** The texts of a path are its components' names and, for indices, their decimal digits. */
  lemma {:induction false} TextsAre(p: Path, i: nat)
    requires i < |p|
    ensures |Texts(p)| == |p|
    ensures match p[i]
      case Key(name) => Texts(p)[i] == name
      case Index(n) => Value(Texts(p)[i]) == n && Digits(Texts(p)[i])
  {
    TextsLength(p);
    if i > 0 {
      TextsAre(p[1..], i - 1);
    } else if p[0].Index? {
      DecimalReadsBack(p[0].i);
      DecimalDigits(p[0].i);
    }
  }

  /** Decimal digits, the first of several not zero. */
  predicate Digits(s: string) {
    s != "" && (forall i :: 0 <= i < |s| ==> '0' <= s[i] <= '9') && (|s| > 1 ==> s[0] != '0')
  }

  lemma {:induction false} DecimalDigits(n: nat)
    ensures Digits(Decimal(n)) && (n > 0 ==> Decimal(n)[0] != '0')
  {
    if n >= 10 {
      DecimalDigits(n / 10);
    }
  }

  // ------------------------------------------------------------------------- groups

  /** The positions of the errors of one group. */
  ghost function InGroup(errors: seq<FieldError>, group: string): set<nat> {
    set i: nat | i < |errors| && GroupOf(errors[i]) == group
  }

  lemma InGroupNext(errors: seq<FieldError>, group: string)
    requires errors != []
    ensures var n := |errors| - 1;
      |InGroup(errors, group)| == |InGroup(errors[..n], group)| + (if GroupOf(errors[n]) == group then 1 else 0)
  {
    var n := |errors| - 1;
    assert InGroup(errors, group) == InGroup(errors[..n], group) + (if GroupOf(errors[n]) == group then {n} else {});
  }

  /** A group's messages are those of its errors, in report order. */
  lemma {:induction false} MessagesInOrder(errors: seq<FieldError>, group: string, i: nat)
    requires i < |errors| && GroupOf(errors[i]) == group
    ensures |MessagesOf(errors, group)| == |InGroup(errors, group)|
    ensures |InGroup(errors[..i], group)| < |InGroup(errors, group)|
    ensures MessagesOf(errors, group)[|InGroup(errors[..i], group)|] == errors[i].message
    decreases |errors|
  {
    var n := |errors| - 1;
    InGroupNext(errors, group);
    MessageCount(errors[..n], group);
    if i < n {
      MessagesInOrder(errors[..n], group, i);
      assert errors[..n][..i] == errors[..i];
    }
  }

  lemma {:induction false} MessageCount(errors: seq<FieldError>, group: string)
    ensures |MessagesOf(errors, group)| == |InGroup(errors, group)|
  {
    if errors != [] {
      InGroupNext(errors, group);
      MessageCount(errors[..|errors| - 1], group);
    }
  }
}
