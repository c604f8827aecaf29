/** The vector arithmetic the contrast helpers do with numpy: dot products,
    element-wise differences, the quadratic form c' V c, and `list.index`. */
module LinAlg {

  function Dot(a: seq<real>, b: seq<real>): real
    requires |a| == |b|
  {
    if |a| == 0 then 0.0 else a[0] * b[0] + Dot(a[1..], b[1..])
  }

  /** Element-wise `a - b`. */
  function VecSub(a: seq<real>, b: seq<real>): (r: seq<real>)
    requires |a| == |b|
    ensures |r| == |a| && forall i :: 0 <= i < |a| ==> r[i] == a[i] - b[i]
  {
    seq(|a|, i requires 0 <= i < |a| => a[i] - b[i])
  }

  predicate IsSquare(m: seq<seq<real>>, n: nat) {
    |m| == n && forall r :: 0 <= r < n ==> |m[r]| == n
  }

  function MatVec(m: seq<seq<real>>, c: seq<real>): (r: seq<real>)
    requires IsSquare(m, |c|)
    ensures |r| == |c|
  {
    seq(|c|, i requires 0 <= i < |c| => Dot(m[i], c))
  }

  /** `c @ V @ c`. */
  function QuadForm(c: seq<real>, m: seq<seq<real>>): real
    requires IsSquare(m, |c|)
  {
    Dot(c, MatVec(m, c))
  }

  /** `list.index`: the first position holding `x`. */
  function IndexOf<T(==)>(s: seq<T>, x: T): (i: nat)
    requires x in s
    ensures i < |s| && s[i] == x && forall j :: 0 <= j < i ==> s[j] != x
  {
    if s[0] == x then 0 else 1 + IndexOf(s[1..], x)
  }

  /** The dot product is linear in its first argument. */
  lemma {:induction false} DotSub(a: seq<real>, b: seq<real>, w: seq<real>)
    requires |a| == |b| == |w|
    ensures Dot(VecSub(a, b), w) == Dot(a, w) - Dot(b, w)
  {
    if |a| > 0 {
      assert VecSub(a, b)[1..] == VecSub(a[1..], b[1..]);
      DotSub(a[1..], b[1..], w[1..]);
    }
  }

  /** The contribution of position `t` to a dot product, zero outside the vector. */
  function Term(c: seq<real>, w: seq<real>, t: int): real
    requires |c| == |w|
  {
    if 0 <= t < |c| then c[t] * w[t] else 0.0
  }

  /** A vector that is zero everywhere except at two distinct positions i and j
      (either of which may lie outside the vector) picks out those two terms. */
  lemma {:induction false} DotSparse(c: seq<real>, w: seq<real>, i: int, j: int)
    requires |c| == |w| && i != j
    requires forall t :: 0 <= t < |c| && t != i && t != j ==> c[t] == 0.0
    ensures Dot(c, w) == Term(c, w, i) + Term(c, w, j)
  {
    if |c| > 0 {
      DotSparse(c[1..], w[1..], i - 1, j - 1);
      assert Dot(c, w) == Term(c, w, 0) + Dot(c[1..], w[1..]);
      if i != 0 { TermShift(c, w, i); }
      if j != 0 { TermShift(c, w, j); }
      if i != 0 && j != 0 {
        assert c[0] == 0.0;
      }
    }
  }

  lemma TermShift(c: seq<real>, w: seq<real>, t: int)
    requires |c| == |w| && |c| > 0 && t != 0
    ensures Term(c, w, t) == Term(c[1..], w[1..], t - 1)
  {
  }
}
