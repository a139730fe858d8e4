/**
 * A loaded dataset, abstracted from the dataframe library to what the scripts
 * look at: the columns by name, each a sequence of integer cells.
 */
module Tables {

  type Column = seq<int>

  type Table = map<string, Column>

  /** The column total that the dataframe's `sum()` computes. */
  function Sum(xs: Column): (t: int)
    ensures (forall i :: 0 <= i < |xs| ==> xs[i] >= 0) ==> t >= 0
  {
    if |xs| == 0 then 0 else xs[0] + Sum(xs[1..])
  }

  /** Every column has one cell per row. */
  predicate Rectangular(t: Table) {
    forall a, b :: a in t && b in t ==> |t[a]| == |t[b]|
  }

  /** Summing rows in two batches gives the same total as summing them at once. */
  lemma {:induction false} SumAppend(xs: Column, ys: Column)
    ensures Sum(xs + ys) == Sum(xs) + Sum(ys)
  {
    if |xs| == 0 {
      assert xs + ys == ys;
    } else {
      assert (xs + ys)[1..] == xs[1..] + ys;
      SumAppend(xs[1..], ys);
    }
  }
}
