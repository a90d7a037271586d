/** `Array.prototype.find`: the first element satisfying a test. */
module Find {
  import opened Wrappers

  /** The index of the first element of `xs` from `k` on that passes `test`. */
  function FirstFrom<T>(xs: seq<T>, test: T -> bool, k: nat): (r: Option<nat>)
    requires k <= |xs|
    ensures r.None? <==> forall i :: k <= i < |xs| ==> !test(xs[i])
    ensures r.Some? ==> k <= r.value < |xs| && test(xs[r.value])
    ensures r.Some? ==> forall j :: k <= j < r.value ==> !test(xs[j])
    decreases |xs| - k
  {
    if k == |xs| then None
    else if test(xs[k]) then Some(k)
    else FirstFrom(xs, test, k + 1)
  }

  /** The index of the first element of `xs` that passes `test`, if any. */
  function First<T>(xs: seq<T>, test: T -> bool): (r: Option<nat>)
    ensures r.None? <==> forall i :: 0 <= i < |xs| ==> !test(xs[i])
    ensures r.Some? ==> r.value < |xs| && test(xs[r.value])
    ensures r.Some? ==> forall j :: 0 <= j < r.value ==> !test(xs[j])
  {
    FirstFrom(xs, test, 0)
  }
}
