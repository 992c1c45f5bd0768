/** A part of a sequence, in the order of the sequence, told by its indices. */
module Selections {

  ghost predicate Increasing(indices: seq<nat>) {
    forall i, j :: 0 <= i < j < |indices| ==> indices[i] < indices[j]
  }

  /** `part` is what `whole` has at the indices. */
  ghost predicate Chosen<T>(indices: seq<nat>, whole: seq<T>, part: seq<T>) {
    && |indices| == |part| && Increasing(indices)
    && forall i :: 0 <= i < |indices| ==> indices[i] < |whole| && part[i] == whole[indices[i]]
  }

  /** One more element of the whole, taken or not. */
  lemma ChosenMore<T>(indices: seq<nat>, whole: seq<T>, part: seq<T>, x: T)
    requires Chosen(indices, whole, part)
    ensures Chosen(indices, whole + [x], part) && Chosen(indices + [|whole|], whole + [x], part + [x])
    ensures |whole| !in indices
  {
    var more, all := indices + [|whole|], whole + [x];
    forall i | 0 <= i < |indices|
      ensures all[indices[i]] == whole[indices[i]]
    {
    }
    assert forall i :: 0 <= i < |indices| ==> more[i] == indices[i];
  }
}
