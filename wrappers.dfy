/** Failure-carrying values used where the source returns None or raises. */
module Wrappers {

  datatype Option<+T> = None | Some(value: T)

  /** `Err` stands for a Python exception, with the exception's message. */
  datatype Result<+T> = Ok(value: T) | Err(message: string)

  /** The values of the `Some` entries, in order. */
  function Somes<T>(xs: seq<Option<T>>): (r: seq<T>)
    ensures |r| <= |xs|
  {
    if xs == [] then []
    else
      var last := xs[|xs| - 1];
      Somes(xs[..|xs| - 1]) + (if last.Some? then [last.value] else [])
  }

  /** Every value kept comes from some entry. */
  lemma {:induction false} SomesSound<T>(xs: seq<Option<T>>, k: nat)
    requires k < |Somes(xs)|
    ensures exists i :: 0 <= i < |xs| && xs[i] == Some(Somes(xs)[k])
  {
    var n := |xs| - 1;
    var prefix := xs[..n];
    if k < |Somes(prefix)| {
      SomesSound(prefix, k);
      var i :| 0 <= i < |prefix| && prefix[i] == Some(Somes(prefix)[k]);
      assert xs[i] == prefix[i];
    }
  }

  /** Every `Some` entry is kept. */
  lemma {:induction false} SomesComplete<T>(xs: seq<Option<T>>, i: nat)
    requires i < |xs| && xs[i].Some?
    ensures xs[i].value in Somes(xs)
  {
    var n := |xs| - 1;
    var prefix := xs[..n];
    if i < n {
      assert prefix[i] == xs[i];
      SomesComplete(prefix, i);
      assert Somes(prefix) <= Somes(xs);
    }
  }
}
