/**
 * The strided batch loop shared by vec2, vec3 and vec4 `forEach`: starting at `offset`, every
 * `stride` entries, a window of `dim` entries of a flat array is handed to a callback and
 * written back, until the end index is reached.
 */
module Strided {

  /** Math.min */
  function Min(p: int, q: int): (r: int)
    ensures r <= p && r <= q && (r == p || r == q)
  {
    if p < q then p else q
  }

  /** The stride forEach uses: 0 (falsy) stands for tightly packed windows of `dim`. */
  function Stride(stride: nat, dim: nat): (r: nat)
    requires 0 < dim
    ensures 0 < r
    ensures stride == 0 ==> r == dim
    ensures stride != 0 ==> r == stride
  {
    if stride == 0 then dim else stride
  }

  /** Where the loop stops: after `count` windows clipped to the array length, or at the
      array length when `count` is 0. */
  function End(length: nat, stride: nat, offset: nat, count: nat): (r: nat)
    ensures r <= length
    ensures count == 0 ==> r == length
    ensures count != 0 ==> r == Min(count * stride + offset, length)
    ensures count != 0 && count * stride + offset <= length ==> r == count * stride + offset
    ensures count != 0 && length < count * stride + offset ==> r == length
  {
    if count != 0 then Min(count * stride + offset, length) else length
  }

  /** The callback writes back a vector of the dimension it was given. */
  ghost predicate KeepsDim(fn: seq<real> -> seq<real>, dim: nat) {
    forall v: seq<real> :: |v| == dim ==> |fn(v)| == dim
  }

  /** Every window the loop visits from `i` on lies inside the array. */
  predicate InBounds(length: nat, dim: nat, stride: nat, i: nat, end: nat)
    requires 0 < stride
    decreases if i < end then end - i else 0
  {
    i < end ==> i + dim <= length && InBounds(length, dim, stride, i + stride, end)
  }

  /** `s` with the entries from `i` on replaced by `w`. */
  function Splice(s: seq<real>, i: nat, w: seq<real>): (r: seq<real>)
    requires i + |w| <= |s|
    ensures |r| == |s|
  {
    seq(|s|, j requires 0 <= j < |s| => if i <= j < i + |w| then w[j - i] else s[j])
  }

  /** Entry j of a splice comes from `w` inside the window and from `s` outside it. */
  lemma SpliceEntries(s: seq<real>, i: nat, w: seq<real>)
    requires i + |w| <= |s|
    ensures forall j :: 0 <= j < |s| ==>
              Splice(s, i, w)[j] == (if i <= j < i + |w| then w[j - i] else s[j])
  {
  }

  /** The array forEach leaves: `fn` applied in turn to the windows starting at
      i, i + stride, ... below `end`, each on the array as the previous steps left it. */
  function Apply(s: seq<real>, dim: nat, stride: nat, i: nat, end: nat,
                 fn: seq<real> -> seq<real>): (r: seq<real>)
    requires 0 < stride && KeepsDim(fn, dim) && InBounds(|s|, dim, stride, i, end)
    ensures |r| == |s|
    decreases if i < end then end - i else 0
  {
    if i < end then
      var w := fn(s[i..i + dim]);
      Apply(Splice(s, i, w), dim, stride, i + stride, end, fn)
    else
      s
  }

  /** Entry j lies in one of the windows visited from `i` on. */
  predicate Covered(j: int, dim: nat, stride: nat, i: nat, end: nat)
    requires 0 < stride
    decreases if i < end then end - i else 0
  {
    i < end && (i <= j < i + dim || Covered(j, dim, stride, i + stride, end))
  }

  /** The visited windows lie between the first start and the last start plus `dim`. */
  lemma {:induction false} CoveredRange(j: int, dim: nat, stride: nat, i: nat, end: nat)
    requires 0 < stride
    ensures Covered(j, dim, stride, i, end) ==> i <= j < end - 1 + dim
    decreases if i < end then end - i else 0
  {
    if i < end {
      CoveredRange(j, dim, stride, i + stride, end);
    }
  }

  /** forEach changes no entry outside the visited windows. */
  lemma {:induction false} ApplyFrame(s: seq<real>, dim: nat, stride: nat, i: nat, end: nat,
                                      fn: seq<real> -> seq<real>, j: int)
    requires 0 < stride && KeepsDim(fn, dim) && InBounds(|s|, dim, stride, i, end)
    requires 0 <= j < |s| && !Covered(j, dim, stride, i, end)
    ensures Apply(s, dim, stride, i, end, fn)[j] == s[j]
    decreases if i < end then end - i else 0
  {
    if i < end {
      var w := fn(s[i..i + dim]);
      SpliceEntries(s, i, w);
      ApplyFrame(Splice(s, i, w), dim, stride, i + stride, end, fn, j);
    }
  }

  /** A callback that returns its argument leaves the array unchanged. */
  lemma {:induction false} ApplyIdentity(s: seq<real>, dim: nat, stride: nat, i: nat, end: nat,
                                         fn: seq<real> -> seq<real>)
    requires 0 < stride && KeepsDim(fn, dim) && InBounds(|s|, dim, stride, i, end)
    requires forall v: seq<real> :: |v| == dim ==> fn(v) == v
    ensures Apply(s, dim, stride, i, end, fn) == s
    decreases if i < end then end - i else 0
  {
    if i < end {
      var w := fn(s[i..i + dim]);
      SpliceEntries(s, i, w);
      assert Splice(s, i, w) == s;
      ApplyIdentity(s, dim, stride, i + stride, end, fn);
    }
  }

  /** The loop of forEach, from `offset` to `end` by `stride`, on the array itself. */
  method ForEachWindow(a: array<real>, dim: nat, stride: nat, offset: nat, end: nat,
                       fn: seq<real> -> seq<real>)
    requires 0 < stride && KeepsDim(fn, dim) && InBounds(a.Length, dim, stride, offset, end)
    modifies a
    ensures a[..] == Apply(old(a[..]), dim, stride, offset, end, fn)
  {
    ghost var goal := Apply(a[..], dim, stride, offset, end, fn);
    var i := offset;
    while i < end
      invariant InBounds(a.Length, dim, stride, i, end)
      invariant Apply(a[..], dim, stride, i, end, fn) == goal
      decreases if i < end then end - i else 0
    {
      ghost var before := a[..];
      var w := fn(a[i..i + dim]);
      assert before[i..i + dim] == a[i..i + dim];
      WriteWindow(a, i, w);
      assert Apply(before, dim, stride, i, end, fn) == Apply(a[..], dim, stride, i + stride, end, fn);
      i := i + stride;
    }
  }

  /** One step of forEach: the callback's vector is copied back over the window at `i`. */
  method WriteWindow(a: array<real>, i: nat, w: seq<real>)
    requires i + |w| <= a.Length
    modifies a
    ensures a[..] == Splice(old(a[..]), i, w)
  {
    forall k | 0 <= k < |w| {
      a[i + k] := w[k];
    }
    SpliceEntries(old(a[..]), i, w);
  }
}
