/**
 * Step 5 of `runSimulation`: the model with the smallest RMSE wins. The
 * scan starts from 'SARIMAX' with an infinite minimum and replaces the
 * leader only on a strictly smaller RMSE, so among equal RMSEs the model
 * met first keeps the title.
 */
module Winner {
  import opened Wrappers
  import opened Types

  /** The name the scan starts from, kept when there is nothing to scan. */
  const DefaultWinner: string := "SARIMAX"

  /** The RMSE of each result, in result order. */
  function Rmses(results: seq<PredictionResult>): (xs: seq<real>)
    ensures |xs| == |results|
    ensures forall i :: 0 <= i < |results| ==> xs[i] == results[i].metrics.rmse
  {
    if results == [] then [] else Rmses(results[..|results| - 1]) + [results[|results| - 1].metrics.rmse]
  }

  /** `i` holds the least of `xs[..k]`, and every earlier entry is strictly greater. */
  predicate IsFirstMin(xs: seq<real>, k: nat, i: nat)
    requires k <= |xs|
  {
    && i < k
    && (forall j :: 0 <= j < k ==> xs[i] <= xs[j])
    && (forall j :: 0 <= j < i ==> xs[i] < xs[j])
  }

  /** The position of the first least entry among the first `k`. */
  function FirstMinIndex(xs: seq<real>, k: nat): (i: nat)
    requires 1 <= k <= |xs|
    ensures IsFirstMin(xs, k, i)
  {
    if k == 1 then 0
    else
      var j := FirstMinIndex(xs, k - 1);
      if xs[k - 1] < xs[j] then k - 1 else j
  }

  /** At most one position is the first least entry. */
  lemma FirstMinUnique(xs: seq<real>, k: nat, i: nat, i': nat)
    requires k <= |xs|
    requires IsFirstMin(xs, k, i) && IsFirstMin(xs, k, i')
    ensures i == i'
  {
    assert xs[i] <= xs[i'] && xs[i'] <= xs[i];
  }

  /** The name the scan has settled on after the first `k` results. */
  function WinnerAfter(results: seq<PredictionResult>, k: nat): string
    requires k <= |results|
  {
    if k == 0 then DefaultWinner else results[FirstMinIndex(Rmses(results), k)].modelName
  }

  /**
   * The scan over `Object.values(modelResults)`; `minRmse` is None while it
   * still stands at `Infinity`.
   */
  method SelectWinner(results: seq<PredictionResult>) returns (bestModel: string)
    ensures bestModel == WinnerAfter(results, |results|)
    ensures results == [] ==> bestModel == DefaultWinner
    ensures results != [] ==> exists i: nat :: IsFirstMin(Rmses(results), |results|, i) && bestModel == results[i].modelName
  {
    bestModel := DefaultWinner;
    var minRmse: Option<real> := None;
    ghost var rmses := Rmses(results);
    var i := 0;
    while i < |results|
      invariant 0 <= i <= |results|
      invariant bestModel == WinnerAfter(results, i)
      invariant i == 0 <==> minRmse == None
      invariant i > 0 ==> minRmse == Some(rmses[FirstMinIndex(rmses, i)])
    {
      var rmse := results[i].metrics.rmse;
      if minRmse == None || rmse < minRmse.value {
        minRmse := Some(rmse);
        bestModel := results[i].modelName;
      }
      i := i + 1;
    }
    if results != [] {
      assert IsFirstMin(rmses, |results|, FirstMinIndex(rmses, |results|));
    }
  }

  /** The winner's RMSE is no larger than any other model's. */
  lemma WinnerHasLeastRmse(results: seq<PredictionResult>, j: nat)
    requires j < |results|
    ensures exists i :: 0 <= i < |results| && results[i].modelName == WinnerAfter(results, |results|)
                        && results[i].metrics.rmse <= results[j].metrics.rmse
  {
    var i := FirstMinIndex(Rmses(results), |results|);
    assert results[i].metrics.rmse <= results[j].metrics.rmse;
  }

  /** On a tie the earlier result wins: a later one must be strictly better to take over. */
  lemma EarlierWinsTies(results: seq<PredictionResult>, i: nat, j: nat)
    requires i < j < |results|
    requires results[i].metrics.rmse == results[j].metrics.rmse
    ensures FirstMinIndex(Rmses(results), |results|) != j
  {
  }
}
