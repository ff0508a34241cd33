/** Order-preserving filters over indexed data: the indices of the entries a
    loop keeps, when it walks the entries in order and appends the ones a
    test accepts. */
module Filter {

  /** The indices i with keep[i], in increasing order. */
  function Selected(keep: seq<bool>): (r: seq<nat>)
    ensures |r| <= |keep|
  {
    if keep == [] then []
    else Selected(keep[..|keep| - 1]) + (if keep[|keep| - 1] then [|keep| - 1] else [])
  }

  /** Taking one more entry appends its index exactly when it is kept. */
  lemma SelectedNext(keep: seq<bool>, i: nat)
    requires i < |keep|
    ensures Selected(keep[..i + 1]) == Selected(keep[..i]) + (if keep[i] then [i] else [])
  {
    assert keep[..i + 1][..i] == keep[..i];
  }

  /** The selection is exactly the kept indices, each once, in increasing
      order: the filter keeps the entries it accepts and no other, and
      preserves their order. */
  lemma {:induction false} SelectedExactly(keep: seq<bool>)
    ensures forall q :: 0 <= q < |Selected(keep)| ==> Selected(keep)[q] < |keep| && keep[Selected(keep)[q]]
    ensures forall i :: 0 <= i < |keep| && keep[i] ==> i in Selected(keep)
    ensures forall p, q :: 0 <= p < q < |Selected(keep)| ==> Selected(keep)[p] < Selected(keep)[q]
  {
    if keep != [] {
      var init := keep[..|keep| - 1];
      SelectedExactly(init);
      var last := |keep| - 1;
      assert Selected(keep) == Selected(init) + (if keep[last] then [last] else []);
      forall i | 0 <= i < |keep| && keep[i]
        ensures i in Selected(keep)
      {
        if i < last {
          assert init[i] == keep[i];
          assert i in Selected(init);
        } else {
          assert Selected(keep)[|Selected(keep)| - 1] == i;
        }
      }
    }
  }

  /** A test that accepts every entry keeps them all, in order. */
  lemma {:induction false} SelectedAll(keep: seq<bool>)
    requires forall i :: 0 <= i < |keep| ==> keep[i]
    ensures Selected(keep) == seq(|keep|, i => i)
  {
    if keep != [] {
      var init := keep[..|keep| - 1];
      SelectedAll(init);
      assert seq(|keep|, i => i) == seq(|init|, i => i) + [|keep| - 1];
    }
  }
}
