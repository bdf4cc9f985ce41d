/** Finding the first element of a sequence that passes a test. */
module Search {
  import opened Wrappers

  /** The first element of `xs` that satisfies `p`. */
  function First<T>(xs: seq<T>, p: T -> bool): (r: Option<T>)
    ensures r.None? <==> forall i | 0 <= i < |xs| :: !p(xs[i])
    ensures r.Some? ==> r.value in xs && p(r.value)
  {
    if xs == [] then None
    else if p(xs[0]) then Some(xs[0])
    else
      var r := First(xs[1..], p);
      assert forall i | 1 <= i < |xs| :: xs[i] == xs[1..][i - 1];
      r
  }

  /** What `First` finds is preceded only by elements that fail `p`. */
  lemma {:induction false} FirstIsEarliest<T>(xs: seq<T>, p: T -> bool)
    requires First(xs, p).Some?
    ensures exists i | 0 <= i < |xs| :: xs[i] == First(xs, p).value && forall j | 0 <= j < i :: !p(xs[j])
  {
    if !p(xs[0]) {
      FirstIsEarliest(xs[1..], p);
      var i :| 0 <= i < |xs[1..]| && xs[1..][i] == First(xs[1..], p).value && forall j | 0 <= j < i :: !p(xs[1..][j]);
      assert xs[i + 1] == First(xs, p).value;
      forall j | 0 <= j < i + 1
        ensures !p(xs[j])
      {
        if j > 0 {
          assert xs[j] == xs[1..][j - 1];
        }
      }
    } else {
      assert xs[0] == First(xs, p).value;
    }
  }

  /**
    A loop over `xs` that stops at the first element satisfying `p`, as the
    walks of the settings search break at the first match.
   */
  method FirstMatch<T>(xs: seq<T>, p: T -> bool) returns (r: Option<T>)
    ensures r == First(xs, p)
  {
    r := None;
    for i := 0 to |xs|
      invariant r.None? && First(xs, p) == First(xs[i..], p)
    {
      if p(xs[i]) {
        r := Some(xs[i]);
        break;
      }
      assert xs[i..][1..] == xs[i + 1..];
    }
  }
}
