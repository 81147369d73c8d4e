/**
 Which errors `_field_errors` puts under one key: paths are joined with dots, so names that
 contain dots can make different paths look alike.
 */
module FieldGroups {
  import opened FieldSchema
  import opened Attributes

  // ------------------------------------------------------------------------- splitting at dots

  function Split(s: string): (r: seq<string>)
    ensures r != []
  {
    if s == "" then [""]
    else if s[0] == '.' then [""] + Split(s[1..])
    else [[s[0]] + Split(s[1..])[0]] + Split(s[1..])[1..]
  }

  /** Joining the pieces gives the string back, so splitting loses nothing. */
  lemma {:induction false} SplitJoins(s: string)
    ensures Joined(Split(s)) == s
  {
    if s != "" {
      var rest := Split(s[1..]);
      SplitJoins(s[1..]);
      if s[0] == '.' {
        JoinedCons("", rest);
        assert s == "." + s[1..];
      } else {
        JoinedHead(s[0], rest);
        assert s == [s[0]] + s[1..];
      }
    }
  }

  lemma JoinedCons(a: string, rest: seq<string>)
    requires rest != []
    ensures Joined([a] + rest) == a + "." + Joined(rest)
  {
    assert ([a] + rest)[1..] == rest;
  }

  lemma JoinedHead(x: char, rest: seq<string>)
    requires rest != []
    ensures Joined([[x] + rest[0]] + rest[1..]) == [x] + Joined(rest)
  {
    if |rest| > 1 {
      assert ([[x] + rest[0]] + rest[1..])[1..] == rest[1..];
    }
  }

  lemma {:induction false} SplitAtDot(a: string, b: string)
    ensures Split(a + "." + b) == Split(a) + Split(b)
  {
    var s := a + "." + b;
    if a == "" {
      assert s[1..] == b;
    } else {
      assert s[1..] == a[1..] + "." + b;
      SplitAtDot(a[1..], b);
    }
  }

  predicate DotFree(s: string) {
    '.' !in s
  }

  lemma {:induction false} SplitDotFree(s: string)
    requires DotFree(s)
    ensures Split(s) == [s]
  {
    if s != "" {
      assert s == [s[0]] + s[1..];
      SplitDotFree(s[1..]);
    }
  }

  // ------------------------------------------------------------------------- when two paths share a key

  /** The dot-free pieces a list of path texts spells, one after the other. */
  function Pieces(texts: seq<string>): seq<string> {
    if texts == [] then [""]
    else if |texts| == 1 then Split(texts[0])
    else Split(texts[0]) + Pieces(texts[1..])
  }

  lemma {:induction false} JoinedPieces(texts: seq<string>)
    ensures Split(Joined(texts)) == Pieces(texts)
  {
    if |texts| > 1 {
      JoinedPieces(texts[1..]);
      SplitAtDot(texts[0], Joined(texts[1..]));
    }
  }

  /** The pieces of an error's path, the root and a member named "" counting as "attributes". */
  function GroupPieces(e: FieldError): seq<string> {
    if Pieces(Texts(e.path)) == [""] then ["attributes"] else Pieces(Texts(e.path))
  }

  lemma GroupSplits(e: FieldError)
    ensures Split(GroupOf(e)) == GroupPieces(e)
  {
    JoinedPieces(Texts(e.path));
    SplitJoins(Joined(Texts(e.path)));
    SplitDotFree("attributes");
  }

  /** Two errors are grouped together if and only if their paths spell the same dot-free pieces. */
  lemma SameGroupIff(a: FieldError, b: FieldError)
    ensures GroupOf(a) == GroupOf(b) <==> GroupPieces(a) == GroupPieces(b)
  {
    GroupSplits(a);
    GroupSplits(b);
    SplitJoins(GroupOf(a));
    SplitJoins(GroupOf(b));
  }

  // ------------------------------------------------------------------------- within one instance

  predicate AllDotFree(texts: seq<string>) {
    forall i :: 0 <= i < |texts| ==> DotFree(texts[i])
  }

  lemma {:induction false} PiecesDotFree(texts: seq<string>)
    requires AllDotFree(texts) && texts != []
    ensures Pieces(texts) == texts
  {
    SplitDotFree(texts[0]);
    if |texts| > 1 {
      PiecesDotFree(texts[1..]);
    }
  }

  /** The paths that end up under "attributes": the root, a member named "", a member named "attributes". */
  predicate UnderAttributes(p: Path) {
    p == [] || p == [Key("")] || p == [Key("attributes")]
  }

  lemma {:induction false} ShortTexts(j: Json, p: Path, name: string)
    requires j.Obj? && Addressable(j, p) && Texts(p) == [name]
    ensures p == [Key(name)]
  {
    assert Texts(p)[0] == Text(p[0]) && Texts(p)[1..] == Texts(p[1..]);
    TextsLength(p);
  }

  lemma AttributesPieces(root: Json, e: FieldError)
    requires root.Obj? && Addressable(root, e.path) && AllDotFree(Texts(e.path))
    ensures GroupPieces(e) == ["attributes"] <==> UnderAttributes(e.path)
    ensures GroupPieces(e) != ["attributes"] ==> GroupPieces(e) == Texts(e.path)
  {
    var texts := Texts(e.path);
    TextsLength(e.path);
    if texts != [] {
      PiecesDotFree(texts);
      if texts == [""] {
        ShortTexts(root, e.path, "");
      } else if texts == ["attributes"] {
        ShortTexts(root, e.path, "attributes");
      }
    }
  }

  /**
   For names without dots, two errors of one instance share a key if and only if they have
   the same path, or both are at the root or at a member named "" or "attributes".
   */
  lemma DotFreeGroups(root: Json, a: FieldError, b: FieldError)
    requires root.Obj? && Addressable(root, a.path) && Addressable(root, b.path)
    requires AllDotFree(Texts(a.path)) && AllDotFree(Texts(b.path))
    ensures GroupOf(a) == GroupOf(b) <==> a.path == b.path || (UnderAttributes(a.path) && UnderAttributes(b.path))
  {
    SameGroupIff(a, b);
    AttributesPieces(root, a);
    AttributesPieces(root, b);
    if Texts(a.path) == Texts(b.path) {
      TextsDeterminePath(root, a.path, b.path);
    }
  }

  /** With dots they may not: a member "a.b" is grouped with the member "b" of "a". */
  lemma DottedNamesCollide(message: string)
    ensures var a, b := FieldError([Key("a.b")], message), FieldError([Key("a"), Key("b")], message);
      GroupOf(a) == GroupOf(b) == "a.b"
  {
    assert Texts([Key("a"), Key("b")]) == ["a", "b"] by {
      assert [Key("a"), Key("b")][1..] == [Key("b")];
    }
    assert Texts([Key("a.b")]) == ["a.b"];
    assert ["a", "b"][1..] == ["b"];
  }
}
