/**
 * Shared vocabulary of the profile engine: the outcome of an operation that
 * may raise, and the shape of the pseudo-random draws the generators consume.
 */
module Common {

  /** The Python exceptions the engine can raise, plus the one error it returns as a value. */
  datatype Error =
    | KeyError(key: string)        // a dictionary lookup on a missing key
    | IntKeyError(rank: int)       // a dictionary lookup on a missing integer key
    | NameError(name: string)      // a variable read before it is bound
    | IndexError                   // a list index past the end
    | ValueError                   // random.sample asked for more items than exist
    | OutOfInterval                // the range sampler's "Valeur hors de l'intervalle [0, 1]" message

  /** The message the range sampler returns (rather than raises) for a draw outside [0, 1]. */
  const OUT_OF_INTERVAL_MESSAGE: string := "Valeur hors de l'intervalle [0, 1]"

  datatype Result<+T> = Ok(value: T) | Err(error: Error) {
    predicate IsFailure() { Err? }
    function PropagateFailure<U>(): Result<U> requires Err? { Err(error) }
    function Extract(): T requires Ok? { value }
  }

  datatype Option<+T> = None | Some(value: T)

  /**
   * Builds one item per element, in order, from the element and its
   * position; the first element that fails decides the error.
   */
  function Collect<A, B>(xs: seq<A>, f: (nat, A) -> Result<B>): (r: Result<seq<B>>)
    ensures r.Ok? <==> forall k :: 0 <= k < |xs| ==> f(k, xs[k]).Ok?
    ensures r.Ok? ==> |r.value| == |xs| && forall k :: 0 <= k < |xs| ==> f(k, xs[k]) == Ok(r.value[k])
    ensures r.Err? ==> exists k :: 0 <= k < |xs| && f(k, xs[k]) == Err(r.error) &&
                                   forall j :: 0 <= j < k ==> f(j, xs[j]).Ok?
  {
    if xs == [] then Ok([])
    else
      var n := |xs| - 1;
      var front := Collect(xs[..n], f);
      assert forall k :: 0 <= k < n ==> xs[..n][k] == xs[k];
      if front.Err? then front
      else
        var last := f(n, xs[n]);
        if last.Err? then Err(last.error)
        else Ok(front.value + [last.value])
  }

  /** Applies f to every element, in order. */
  function Map<A, B>(xs: seq<A>, f: A -> B): (r: seq<B>)
    ensures |r| == |xs| && forall k :: 0 <= k < |xs| ==> r[k] == f(xs[k])
  {
    seq(|xs|, k requires 0 <= k < |xs| => f(xs[k]))
  }

  /** A value of random.random(): a real in [0, 1). */
  type Unit = r: real | 0.0 <= r < 1.0

  /**
   * random.randint(lo, hi), driven by the uniform draw u: the draw is
   * scaled onto the hi - lo + 1 integers of the range.
   */
  function RandInt(u: Unit, lo: int, hi: int): (r: int)
    requires lo <= hi
    ensures lo <= r <= hi
  {
    var n := hi - lo + 1;
    var x := u * n as real;
    MulBelow(u, n);
    lo + x.Floor
  }

  /** A draw in [0, 1) scaled onto n integers lands on one of 0 .. n - 1. */
  lemma MulBelow(u: real, n: int)
    requires 0.0 <= u < 1.0 && n > 0
    ensures 0.0 <= u * n as real < n as real
    ensures 0 <= (u * n as real).Floor < n
  {
  }

  /** The ownership share of the profile owner: 1 for a single person, 0.5 in a couple. */
  function OwnerShare(isCelib: bool): (s: real)
    ensures 0.0 < s <= 1.0
  {
    if isCelib then 1.0 else 0.5
  }

  /** The partner's ownership share: 0 for a single person, 0.5 in a couple. */
  function PartnerShare(isCelib: bool): (s: real)
    ensures s + OwnerShare(isCelib) == 1.0
    ensures isCelib <==> s == 0.0
  {
    if isCelib then 0.0 else 0.5
  }

  /** A numpy fixed-width unicode field ('U50', 'U3') keeps at most `width` characters. */
  function Truncate(s: string, width: nat): (r: string)
    ensures |r| <= width && r <= s
    ensures |s| <= width ==> r == s
  {
    if |s| <= width then s else s[..width]
  }
}
