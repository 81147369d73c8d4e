/** Product types and statuses, and the status relation every product follows. */
module Domain {
  import opened Wrappers

  datatype ProductType = Physical | Virtual | Creative

  datatype ProductStatus = OnShelf | OffShelf | Penalized

  datatype TransitionError = IllegalProductStatusTransition(source: ProductStatus, target: ProductStatus)

  const ALLOWED_TRANSITIONS: map<ProductStatus, set<ProductStatus>> :=
    map[OnShelf := {OffShelf, Penalized}, OffShelf := {OnShelf, Penalized}, Penalized := {}]

  predicate Allowed(source: ProductStatus, target: ProductStatus) {
    source in ALLOWED_TRANSITIONS && target in ALLOWED_TRANSITIONS[source]
  }

  lemma AllowedIff(source: ProductStatus, target: ProductStatus)
    ensures Allowed(source, target) <==> source != Penalized && source != target
  {
    match source {
      case OnShelf =>
      case OffShelf =>
      case Penalized =>
    }
  }

  function AssertTransition(source: ProductStatus, target: ProductStatus): (r: Result<(), TransitionError>)
    ensures r.Ok? <==> source != Penalized && source != target
    ensures r.Err? ==> r.error == IllegalProductStatusTransition(source, target)
  {
    AllowedIff(source, target);
    if Allowed(source, target) then Ok(()) else Err(IllegalProductStatusTransition(source, target))
  }

  /** Consecutive statuses are equal (an edit) or linked by an allowed transition. */
  ghost predicate StatusPath(ss: seq<ProductStatus>) {
    forall i :: 0 <= i < |ss| - 1 ==> ss[i] == ss[i + 1] || Allowed(ss[i], ss[i + 1])
  }

  /** `Penalized` is terminal along every path. */
  lemma {:induction false} PenalizedIsTerminal(ss: seq<ProductStatus>, i: nat, j: nat)
    requires StatusPath(ss) && i <= j < |ss| && ss[i] == Penalized
    ensures ss[j] == Penalized
    decreases j - i
  {
    if i < j {
      assert ss[i] == ss[i + 1] || Allowed(ss[i], ss[i + 1]);
      PenalizedIsTerminal(ss, i + 1, j);
    }
  }
}
