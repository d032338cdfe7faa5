/** Building one record per item of a list, in order, where building a
    record may raise: the first item that raises makes the whole list
    raise. Generic in the per-item step, so that its lemmas do not depend
    on what a step does. */
module Batch {
  import opened Wrappers

  /** The records of `xs`, in order, or `Raised` when some step raises. */
  function MapOutcome<T, U>(step: T -> Outcome<U>, xs: seq<T>): (r: Outcome<seq<U>>)
    ensures r.Ok? ==>
      |r.value| == |xs| && forall i :: 0 <= i < |xs| ==> step(xs[i]) == Ok(r.value[i])
    ensures r.Raised? <==> exists i :: 0 <= i < |xs| && step(xs[i]).Raised?
  {
    if xs == [] then Ok([])
    else
      var init := xs[..|xs| - 1];
      assert forall i :: 0 <= i < |init| ==> init[i] == xs[i];
      match MapOutcome(step, init)
      case Raised => Raised
      case Ok(records) =>
        match step(xs[|xs| - 1])
        case Raised => Raised
        case Ok(record) => Ok(records + [record])
  }

  /** One more successful step appends its record. */
  lemma {:induction false} MapOutcomeSnoc<T, U>(step: T -> Outcome<U>, xs: seq<T>, i: nat, records: seq<U>, record: U)
    requires i < |xs|
    requires MapOutcome(step, xs[..i]) == Ok(records) && step(xs[i]) == Ok(record)
    ensures MapOutcome(step, xs[..i + 1]) == Ok(records + [record])
  {
    assert xs[..i + 1][..i] == xs[..i];
  }

  /** A step that raises makes the whole list raise. */
  lemma {:induction false} MapOutcomeRaises<T, U>(step: T -> Outcome<U>, xs: seq<T>, i: nat)
    requires i < |xs| && step(xs[i]).Raised?
    ensures MapOutcome(step, xs).Raised?
  {
  }
}
