/** Line-by-line parsing of a text field, as done by the Swiss Knife's
    multi-line inputs: each line yields nothing (it is skipped), one item,
    or a problem; the field yields the items in order, or the problem of
    the first rejected line. */
module LineParsing {
  import opened Wrappers

  /** The items gathered from the first `k` line outcomes, or the first
      problem among them. */
  function Collect<T, E>(results: seq<Result<Option<T>, E>>, k: nat): Result<seq<T>, E>
    requires k <= |results|
  {
    if k == 0 then Ok([])
    else match Collect(results, k - 1)
      case Err(e) => Err(e)
      case Ok(items) =>
        match results[k - 1]
        case Err(e) => Err(e)
        case Ok(None) => Ok(items)
        case Ok(Some(x)) => Ok(items + [x])
  }

  /** Once a line is rejected, later lines cannot change the outcome. */
  lemma {:induction false} ErrorPersists<T, E>(results: seq<Result<Option<T>, E>>, k: nat, m: nat)
    requires k <= m <= |results|
    requires Collect(results, k).Err?
    ensures Collect(results, m) == Collect(results, k)
    decreases m
  {
    if m > k {
      ErrorPersists(results, k, m - 1);
    }
  }

  /** One line more: its item is appended, a skipped line adds nothing,
      and a rejected line decides the whole field. */
  lemma CollectStep<T, E>(results: seq<Result<Option<T>, E>>, k: nat, items: seq<T>)
    requires k < |results| && Collect(results, k) == Ok(items)
    ensures results[k] == Ok(None) ==> Collect(results, k + 1) == Ok(items)
    ensures results[k].Ok? && results[k].value.Some? ==> Collect(results, k + 1) == Ok(items + [results[k].value.value])
    ensures results[k].Err? ==> Collect(results, |results|) == Err(results[k].error)
  {
    if results[k].Err? {
      ErrorPersists(results, k + 1, |results|);
    }
  }

  /** The field is accepted iff every line is. */
  lemma {:induction false} CollectOkIff<T, E>(results: seq<Result<Option<T>, E>>, k: nat)
    requires k <= |results|
    ensures Collect(results, k).Ok? <==> forall i :: 0 <= i < k ==> results[i].Ok?
    decreases k
  {
    if k > 0 {
      CollectOkIff(results, k - 1);
    }
  }

  /** The problem reported is that of the first rejected line. */
  lemma FirstProblemWins<T, E>(results: seq<Result<Option<T>, E>>, j: nat)
    requires j < |results| && results[j].Err?
    requires forall i :: 0 <= i < j ==> results[i].Ok?
    ensures Collect(results, |results|) == Err(results[j].error)
  {
    CollectOkIff(results, j);
    ErrorPersists(results, j + 1, |results|);
  }

  /** Lines that each carry one item give those items, in order. */
  lemma {:induction false} CollectAll<T, E>(results: seq<Result<Option<T>, E>>, xs: seq<T>, k: nat)
    requires |results| == |xs| && k <= |xs|
    requires forall i :: 0 <= i < |xs| ==> results[i] == Ok(Some(xs[i]))
    ensures Collect(results, k) == Ok(xs[..k])
    decreases k
  {
    if k > 0 {
      CollectAll(results, xs, k - 1);
      assert xs[..k] == xs[..k - 1] + [xs[k - 1]];
    }
  }

  /** Skipped lines contribute nothing. */
  lemma {:induction false} CollectSkipsNone<T, E>(results: seq<Result<Option<T>, E>>, k: nat)
    requires k <= |results|
    requires forall i :: 0 <= i < k ==> results[i] == Ok(None)
    ensures Collect(results, k) == Ok([])
    decreases k
  {
    if k > 0 {
      CollectSkipsNone(results, k - 1);
    }
  }
}
