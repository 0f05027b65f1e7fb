/** The shape shared by the loops of `get_linked_events_for_location`: each
    element is turned into a value appended to a list, and the first element
    whose conversion raises ends the whole loop with that exception. */
module Traverse {
  import opened Wrappers

  /** Converting `xs` in order onto the end of `acc`, stopping at the first
      error. */
  function MapResults<A, B, E>(f: A -> Result<B, E>, xs: seq<A>, acc: seq<B>): Result<seq<B>, E>
    decreases |xs|
  {
    if xs == [] then Ok(acc)
    else
      match f(xs[0])
      case Err(e) => Err(e)
      case Ok(y) => MapResults(f, xs[1..], acc + [y])
  }

  /** When every conversion succeeds, the result is `acc` followed by the
      converted elements, one for one and in order. */
  lemma {:induction false} MapResultsOk<A, B, E>(f: A -> Result<B, E>, xs: seq<A>, acc: seq<B>)
    requires forall i :: 0 <= i < |xs| ==> f(xs[i]).Ok?
    ensures MapResults(f, xs, acc).Ok?
    ensures |MapResults(f, xs, acc).value| == |acc| + |xs|
    ensures MapResults(f, xs, acc).value[..|acc|] == acc
    ensures forall i :: 0 <= i < |xs| ==> f(xs[i]) == Ok(MapResults(f, xs, acc).value[|acc| + i])
    decreases |xs|
  {
    if xs != [] {
      var y := f(xs[0]).value;
      assert forall i :: 0 <= i < |xs[1..]| ==> f(xs[1..][i]).Ok? by {
        forall i | 0 <= i < |xs[1..]| ensures f(xs[1..][i]).Ok? {
          assert xs[1..][i] == xs[i + 1];
        }
      }
      MapResultsOk(f, xs[1..], acc + [y]);
      var ys := MapResults(f, xs, acc).value;
      assert ys == MapResults(f, xs[1..], acc + [y]).value;
      assert ys[..|acc|] == (acc + [y])[..|acc + [y]|][..|acc|];
      forall i | 0 <= i < |xs| ensures f(xs[i]) == Ok(ys[|acc| + i]) {
        if i > 0 {
          assert xs[i] == xs[1..][i - 1];
        } else {
          assert ys[..|acc + [y]|] == acc + [y];
        }
      }
    } else {
      assert MapResults(f, xs, acc).value == acc;
    }
  }

  /** When some conversion fails, the result is the error of the first
      element that fails. */
  lemma {:induction false} MapResultsErr<A, B, E>(f: A -> Result<B, E>, xs: seq<A>, acc: seq<B>, i: nat)
    requires i < |xs| && f(xs[i]).Err?
    requires forall j :: 0 <= j < i ==> f(xs[j]).Ok?
    ensures MapResults(f, xs, acc) == Err(f(xs[i]).error)
    decreases |xs|
  {
    if i > 0 {
      forall j | 0 <= j < i - 1 ensures f(xs[1..][j]).Ok? {
        assert xs[1..][j] == xs[j + 1];
      }
      assert xs[1..][i - 1] == xs[i];
      MapResultsErr(f, xs[1..], acc + [f(xs[0]).value], i - 1);
    }
  }

  /** The loop succeeds exactly when every conversion succeeds. */
  lemma MapResultsOkIff<A, B, E>(f: A -> Result<B, E>, xs: seq<A>, acc: seq<B>)
    ensures MapResults(f, xs, acc).Ok? <==> forall i :: 0 <= i < |xs| ==> f(xs[i]).Ok?
  {
    if forall i :: 0 <= i < |xs| ==> f(xs[i]).Ok? {
      MapResultsOk(f, xs, acc);
    } else {
      var i := FirstFailure(f, xs);
      MapResultsErr(f, xs, acc, i);
    }
  }

  /** A loop that succeeds from an empty list holds, at each position, the
      conversion of the element at that position. */
  lemma MapResultsPointwise<A, B, E>(f: A -> Result<B, E>, xs: seq<A>)
    requires MapResults(f, xs, []).Ok?
    ensures |MapResults(f, xs, []).value| == |xs|
    ensures forall i :: 0 <= i < |xs| ==> f(xs[i]) == Ok(MapResults(f, xs, []).value[i])
  {
    MapResultsOkIff(f, xs, []);
    MapResultsOk(f, xs, []);
  }

  /** The position of the first element whose conversion fails. */
  function FirstFailure<A, B, E>(f: A -> Result<B, E>, xs: seq<A>): (i: nat)
    requires exists i :: 0 <= i < |xs| && f(xs[i]).Err?
    ensures i < |xs| && f(xs[i]).Err?
    ensures forall j :: 0 <= j < i ==> f(xs[j]).Ok?
    decreases |xs|
  {
    if f(xs[0]).Err? then 0
    else
      var k :| 0 <= k < |xs| && f(xs[k]).Err?;
      assert xs[1..][k - 1] == xs[k];
      var i := FirstFailure(f, xs[1..]);
      assert forall j :: 1 <= j < i + 1 ==> xs[j] == xs[1..][j - 1];
      i + 1
  }
}
