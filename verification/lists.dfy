/** List operations the scripts use: the bounded window `xs[-n:]`, occurrence counting, and
    the "last one that matches" selection their result-picking loops perform. */
module Lists {
  import opened Wrappers

  /** Python's `xs[-n:]` for a positive `n`: the last `n` elements, or all of them when fewer. */
  function Tail<T>(xs: seq<T>, n: nat): (r: seq<T>)
    requires n > 0
    ensures |r| == if |xs| < n then |xs| else n
    ensures r == xs[|xs| - |r|..]
  {
    if |xs| < n then xs else xs[|xs| - n..]
  }

  /** Sliding the window: one more element drops the oldest once the window is full. */
  lemma TailSnoc<T>(xs: seq<T>, x: T, n: nat)
    requires n > 0
    ensures Tail(xs + [x], n) == if |xs| < n then xs + [x] else Tail(xs, n)[1..] + [x]
  {
    if |xs| >= n {
      assert (xs + [x])[|xs| + 1 - n..] == xs[|xs| - n..][1..] + [x];
    }
  }

  /** How often `x` occurs in `xs`. */
  function Count<T(==)>(xs: seq<T>, x: T): nat {
    multiset(xs)[x]
  }

  /** Python's `m.get(k, default)`. */
  function MapGet<K, V>(m: map<K, V>, k: K, default: V): (v: V)
    ensures k in m ==> v == m[k]
    ensures k !in m ==> v == default
  {
    if k in m then m[k] else default
  }

  /** The index of the last element satisfying `p`, if any. */
  function LastIndex<T>(xs: seq<T>, p: T -> bool): (r: Option<nat>)
    ensures r.None? <==> forall i | 0 <= i < |xs| :: !p(xs[i])
    ensures r.Some? ==>
      && r.value < |xs| && p(xs[r.value])
      && forall j | r.value < j < |xs| :: !p(xs[j])
    decreases |xs|
  {
    if |xs| == 0 then None
    else if p(xs[|xs| - 1]) then Some(|xs| - 1)
    else
      assert forall i | 0 <= i < |xs| - 1 :: xs[..|xs| - 1][i] == xs[i];
      LastIndex(xs[..|xs| - 1], p)
  }

  /** One more element becomes the last match exactly when it matches. */
  lemma LastIndexSnoc<T>(xs: seq<T>, x: T, p: T -> bool)
    ensures LastIndex(xs + [x], p) == if p(x) then Some(|xs|) else LastIndex(xs, p)
  {
    var ys := xs + [x];
    assert ys[|xs|] == x;
    assert forall i | 0 <= i < |xs| :: ys[i] == xs[i];
  }
}
