/** Small shared vocabulary: optional values, HTTP-style replies and the
    order-preserving filter that the dashboard's views are built from. */
module Common {

  datatype Option<+T> = None | Some(value: T) {
    function GetOr(default: T): T {
      match this
      case Some(v) => v
      case None => default
    }
  }

  /** A handler's reply: a bare status (the CORS pre-flight), an error
      envelope, or a success payload. */
  datatype Reply<+T> =
    | NoContent(status: int)
    | ErrorReply(status: int, error: string)
    | Success(status: int, payload: T)
  {
    function Status(): int {
      match this
      case NoContent(s) => s
      case ErrorReply(s, _) => s
      case Success(s, _) => s
    }
  }

  /** `xs.filter(p)` */
  function Filter<T>(xs: seq<T>, p: T -> bool): (r: seq<T>)
    ensures |r| <= |xs|
  {
    if |xs| == 0 then [] else (if p(xs[0]) then [xs[0]] else []) + Filter(xs[1..], p)
  }

  /** Number of positions of `xs` whose element satisfies `p`. */
  function Count<T>(xs: seq<T>, p: T -> bool): nat {
    if |xs| == 0 then 0 else (if p(xs[0]) then 1 else 0) + Count(xs[1..], p)
  }

  /** `sub` can be obtained from `xs` by deleting elements, order kept. */
  predicate IsSubsequence<T(==)>(sub: seq<T>, xs: seq<T>)
    decreases |xs|
  {
    if |sub| == 0 then true
    else if |xs| == 0 then false
    else if sub[0] == xs[0] then IsSubsequence(sub[1..], xs[1..])
    else IsSubsequence(sub, xs[1..])
  }

  lemma {:induction false} SubsequenceOfTail<T>(sub: seq<T>, xs: seq<T>)
    requires |xs| > 0 && IsSubsequence(sub, xs[1..])
    ensures IsSubsequence(sub, xs)
    decreases |xs|, 0
  {
    if |sub| > 0 && sub[0] == xs[0] {
      SubsequenceDropFirst(sub, xs[1..]);
    }
  }

  lemma {:induction false} SubsequenceDropFirst<T>(sub: seq<T>, xs: seq<T>)
    requires |sub| > 0 && IsSubsequence(sub, xs)
    ensures IsSubsequence(sub[1..], xs)
    decreases |xs|, 1
  {
    if |xs| > 0 {
      if sub[0] == xs[0] {
        SubsequenceOfTail(sub[1..], xs);
      } else {
        SubsequenceDropFirst(sub, xs[1..]);
        SubsequenceOfTail(sub[1..], xs);
      }
    }
  }

  /** The filter keeps exactly the elements satisfying `p`, each once per
      occurrence, in their original order: it is a subsequence, every kept
      element satisfies `p`, and as many are kept as there are positions
      satisfying `p` (which pins down the kept positions). */
  lemma {:induction false} FilterSpec<T>(xs: seq<T>, p: T -> bool)
    ensures IsSubsequence(Filter(xs, p), xs)
    ensures forall i :: 0 <= i < |Filter(xs, p)| ==> p(Filter(xs, p)[i])
    ensures |Filter(xs, p)| == Count(xs, p)
  {
    if |xs| > 0 {
      FilterSpec(xs[1..], p);
      var r := Filter(xs, p);
      var rest := Filter(xs[1..], p);
      if p(xs[0]) {
        assert r == [xs[0]] + rest;
        assert r[1..] == rest;
      } else {
        assert r == rest;
        SubsequenceOfTail(rest, xs);
      }
    }
  }

  /** An element is in the filtered sequence iff it is in the input and
      satisfies the predicate. */
  lemma {:induction false} FilterMembership<T>(xs: seq<T>, p: T -> bool, x: T)
    ensures x in Filter(xs, p) <==> x in xs && p(x)
  {
    if |xs| > 0 {
      FilterMembership(xs[1..], p, x);
      assert xs == [xs[0]] + xs[1..];
    }
  }

  /** Filtering with a predicate that holds everywhere on `xs` is the identity. */
  lemma {:induction false} FilterAll<T>(xs: seq<T>, p: T -> bool)
    requires forall i :: 0 <= i < |xs| ==> p(xs[i])
    ensures Filter(xs, p) == xs
  {
    if |xs| > 0 {
      FilterAll(xs[1..], p);
      assert xs == [xs[0]] + xs[1..];
    }
  }

  /** Subsequence is transitive: a filter of a filter is a subsequence of the original. */
  lemma {:induction false} SubsequenceTrans<T>(a: seq<T>, b: seq<T>, c: seq<T>)
    requires IsSubsequence(a, b) && IsSubsequence(b, c)
    ensures IsSubsequence(a, c)
    decreases |c|
  {
    if |a| > 0 && |c| > 0 {
      assert |b| > 0;
      if b[0] == c[0] {
        if a[0] == b[0] {
          SubsequenceTrans(a[1..], b[1..], c[1..]);
        } else {
          SubsequenceTrans(a, b[1..], c[1..]);
          SubsequenceOfTail(a, c);
        }
      } else {
        SubsequenceTrans(a, b, c[1..]);
        SubsequenceOfTail(a, c);
      }
    }
  }
}
