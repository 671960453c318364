/** What several modules share. */
module Collections {

  datatype Option<T> = None | Some(value: T)

  predicate Distinct(ids: seq<nat>) {
    forall i, j :: 0 <= i < j < |ids| ==> ids[i] != ids[j]
  }

  function Total(weights: seq<nat>): nat {
    if |weights| == 0 then 0 else Total(weights[..|weights| - 1]) + weights[|weights| - 1]
  }

  lemma {:induction false} TotalUpdate(weights: seq<nat>, i: nat, x: nat)
    requires i < |weights|
    ensures Total(weights[i := x]) == Total(weights) - weights[i] + x
  {
    var last := |weights| - 1;
    if i < last {
      TotalUpdate(weights[..last], i, x);
      assert weights[i := x][..last] == weights[..last][i := x];
    } else {
      assert weights[i := x][..last] == weights[..last];
    }
  }
}
