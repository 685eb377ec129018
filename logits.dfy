/** The logit filtering step of SupervoiceGPT.generate: the padding class
    is forced to minus infinity in each stream, then, when top_k is given,
    every entry strictly below the k-th largest value (k clamped to the
    vocabulary size) is forced to minus infinity too. Logits are integer
    scores extended with minus infinity; both steps write into the logit
    arrays in place. Deterministic mode picks the arg-max of the result. */
module Logits {
  import opened Wrappers

  datatype Score = NegInf | Fin(v: int)

  /** The strict order on scores; NegInf is below every finite score. */
  predicate Below(a: Score, b: Score)
  {
    (a.NegInf? && b.Fin?) || (a.Fin? && b.Fin? && a.v < b.v)
  }

  function Min(a: int, b: int): int
  {
    if a < b then a else b
  }

  /** Number of entries strictly above t. */
  function CountAbove(s: seq<Score>, t: Score): nat
  {
    if s == [] then 0 else (if Below(t, s[0]) then 1 else 0) + CountAbove(s[1..], t)
  }

  /** Number of entries not below t. */
  function CountAtLeast(s: seq<Score>, t: Score): nat
  {
    if s == [] then 0 else (if Below(s[0], t) then 0 else 1) + CountAtLeast(s[1..], t)
  }

  /** Number of entries equal to t. */
  function CountEqual(s: seq<Score>, t: Score): nat
  {
    if s == [] then 0 else (if s[0] == t then 1 else 0) + CountEqual(s[1..], t)
  }

  /** The largest entry. */
  function Max(s: seq<Score>): (m: Score)
    requires |s| > 0
    ensures m in s
    ensures forall i :: 0 <= i < |s| ==> !Below(m, s[i])
  {
    if |s| == 1 then s[0]
    else
      var rest := Max(s[1..]);
      assert forall i :: 1 <= i < |s| ==> s[i] == s[1..][i - 1];
      if Below(rest, s[0]) then s[0] else rest
  }

  /** s without the entries equal to m. */
  function RemoveAll(s: seq<Score>, m: Score): (r: seq<Score>)
    ensures |r| == |s| - CountEqual(s, m)
    ensures forall x :: x in r ==> x in s && x != m
  {
    if s == [] then []
    else (if s[0] == m then [] else [s[0]]) + RemoveAll(s[1..], m)
  }

  /** The k-th largest entry counted with multiplicity, the last value that
      torch.topk returns for k: take the maximum; if it occurs at least k
      times it is the answer, otherwise look for the (k - c)-th largest
      among the remaining entries. */
  function KthLargest(s: seq<Score>, k: int): (t: Score)
    requires 1 <= k <= |s|
    ensures t in s
    decreases |s|
  {
    var m := Max(s);
    var c := CountEqual(s, m);
    CountEqualPositive(s, m);
    if k <= c then m else KthLargest(RemoveAll(s, m), k - c)
  }

  /** What it means to be the k-th largest: fewer than k entries are
      strictly above it and at least k entries are not below it. */
  ghost predicate IsKthLargest(s: seq<Score>, k: int, t: Score)
  {
    t in s && CountAbove(s, t) < k <= CountAtLeast(s, t)
  }

  lemma {:induction false} CountEqualPositive(s: seq<Score>, t: Score)
    requires t in s
    ensures CountEqual(s, t) >= 1
  {
    if s[0] != t {
      assert t in s[1..];
      CountEqualPositive(s[1..], t);
    }
  }

  lemma {:induction false} CountAtLeastSplit(s: seq<Score>, t: Score)
    ensures CountAtLeast(s, t) == CountAbove(s, t) + CountEqual(s, t)
  {
    if s != [] {
      CountAtLeastSplit(s[1..], t);
    }
  }

  lemma {:induction false} NothingAboveMax(s: seq<Score>, m: Score)
    requires forall i :: 0 <= i < |s| ==> !Below(m, s[i])
    ensures CountAbove(s, m) == 0
  {
    if s != [] {
      assert forall i :: 0 <= i < |s| - 1 ==> s[1..][i] == s[i + 1];
      NothingAboveMax(s[1..], m);
    }
  }

  /** Removing every copy of a value m above t removes exactly its copies
      from both counts at t. */
  lemma {:induction false} CountsWithout(s: seq<Score>, m: Score, t: Score)
    requires Below(t, m)
    ensures CountAbove(s, t) == CountAbove(RemoveAll(s, m), t) + CountEqual(s, m)
    ensures CountAtLeast(s, t) == CountAtLeast(RemoveAll(s, m), t) + CountEqual(s, m)
  {
    if s != [] {
      CountsWithout(s[1..], m, t);
      var rest := RemoveAll(s[1..], m);
      if s[0] != m {
        assert RemoveAll(s, m) == [s[0]] + rest;
        assert ([s[0]] + rest)[1..] == rest;
      } else {
        assert RemoveAll(s, m) == rest;
      }
    }
  }

  /** KthLargest returns the k-th largest value. */
  lemma {:induction false} KthLargestIsKth(s: seq<Score>, k: int)
    requires 1 <= k <= |s|
    ensures IsKthLargest(s, k, KthLargest(s, k))
    decreases |s|
  {
    var m := Max(s);
    var c := CountEqual(s, m);
    CountEqualPositive(s, m);
    CountAtLeastSplit(s, m);
    NothingAboveMax(s, m);
    if k > c {
      var rest := RemoveAll(s, m);
      var t := KthLargest(rest, k - c);
      KthLargestIsKth(rest, k - c);
      assert t in s && t != m;
      var i :| 0 <= i < |s| && s[i] == t;
      assert Below(t, m);
      CountsWithout(s, m, t);
    }
  }

  /** A larger threshold never has more entries above it. */
  lemma {:induction false} CountAboveAntitone(s: seq<Score>, x: Score, t: Score)
    requires !Below(x, t)
    ensures CountAbove(s, x) <= CountAbove(s, t)
  {
    if s != [] {
      CountAboveAntitone(s[1..], x, t);
    }
  }

  /** Every entry not below t2 is strictly above any t1 below t2. */
  lemma {:induction false} CountAboveCoversAtLeast(s: seq<Score>, t1: Score, t2: Score)
    requires Below(t1, t2)
    ensures CountAtLeast(s, t2) <= CountAbove(s, t1)
  {
    if s != [] {
      CountAboveCoversAtLeast(s[1..], t1, t2);
    }
  }

  /** There is only one k-th largest value. */
  lemma KthLargestUnique(s: seq<Score>, k: int, t1: Score, t2: Score)
    requires IsKthLargest(s, k, t1) && IsKthLargest(s, k, t2)
    ensures t1 == t2
  {
    if Below(t1, t2) {
      CountAboveCoversAtLeast(s, t1, t2);
    } else if Below(t2, t1) {
      CountAboveCoversAtLeast(s, t2, t1);
    }
  }

  /** The entry-wise effect of `logits[logits < t] = -inf`. */
  function MaskBelow(s: seq<Score>, t: Score): (r: seq<Score>)
    ensures |r| == |s|
    ensures forall i :: 0 <= i < |s| ==> (r[i] == NegInf <==> s[i] == NegInf || Below(s[i], t))
    ensures forall i :: 0 <= i < |s| ==> r[i] == s[i] || r[i] == NegInf
  {
    seq(|s|, i requires 0 <= i < |s| => if Below(s[i], t) then NegInf else s[i])
  }

  /** Top-k in terms of ranks: an entry survives exactly when fewer than k
      entries are strictly greater than it, so ties at the threshold are
      all kept. */
  lemma TopKKeepsExactlyTheHighRanked(s: seq<Score>, k: int, i: int)
    requires 1 <= k <= |s| && 0 <= i < |s|
    ensures MaskBelow(s, KthLargest(s, k))[i] == s[i] <==> s[i] == NegInf || CountAbove(s, s[i]) < k
    ensures MaskBelow(s, KthLargest(s, k))[i] != s[i] ==> MaskBelow(s, KthLargest(s, k))[i] == NegInf
  {
    var t := KthLargest(s, k);
    KthLargestIsKth(s, k);
    if Below(s[i], t) {
      CountAboveCoversAtLeast(s, s[i], t);
    } else {
      CountAboveAntitone(s, s[i], t);
    }
  }

  /** Two sequences that order the same way against x have the same counts at x. */
  lemma {:induction false} CountsAgree(s: seq<Score>, r: seq<Score>, x: Score)
    requires |s| == |r|
    requires forall i :: 0 <= i < |s| ==> (Below(x, s[i]) <==> Below(x, r[i])) && (Below(s[i], x) <==> Below(r[i], x))
    ensures CountAbove(s, x) == CountAbove(r, x) && CountAtLeast(s, x) == CountAtLeast(r, x)
  {
    if s != [] {
      assert forall i :: 0 <= i < |s| - 1 ==> s[1..][i] == s[i + 1] && r[1..][i] == r[i + 1];
      CountsAgree(s[1..], r[1..], x);
    }
  }

  /** Applying top-k to its own result changes nothing. */
  lemma TopKIdempotent(s: seq<Score>, k: int)
    requires 1 <= k <= |s|
    ensures var r := MaskBelow(s, KthLargest(s, k)); MaskBelow(r, KthLargest(r, k)) == r
  {
    var t := KthLargest(s, k);
    var r := MaskBelow(s, t);
    KthLargestIsKth(s, k);
    CountsAgree(s, r, t);
    var i :| 0 <= i < |s| && s[i] == t;
    assert r[i] == t;
    assert IsKthLargest(r, k, t);
    KthLargestIsKth(r, k);
    KthLargestUnique(r, k, t, KthLargest(r, k));
  }

  /** A top_k argument the source accepts: absent, or at least 1. */
  predicate ValidTopK(topK: Option<int>)
  {
    topK.None? || topK.value >= 1
  }

  /** Padding suppression followed by optional top-k, on one stream. */
  function Filtered(s: seq<Score>, topK: Option<int>): (r: seq<Score>)
    requires |s| > 0 && ValidTopK(topK)
    ensures |r| == |s| && r[0] == NegInf
    ensures forall i :: 0 <= i < |s| ==> r[i] == s[i] || r[i] == NegInf
  {
    var p := s[0 := NegInf];
    if topK.None? then p else MaskBelow(p, KthLargest(p, Min(topK.value, |p|)))
  }

  /** The classes a sampler can still pick after filtering: an entry stays
      finite exactly when it is not the padding class, was finite, and (with
      top_k) fewer than min(k, size) entries of the padding-suppressed
      logits lie strictly above it; a surviving entry keeps its score. */
  lemma FilteredSupport(s: seq<Score>, topK: Option<int>, i: int)
    requires |s| > 0 && ValidTopK(topK) && 0 <= i < |s|
    ensures |Filtered(s, topK)| == |s|
    ensures Filtered(s, topK)[i] != NegInf <==>
      i != 0 && s[i] != NegInf &&
      (topK.Some? ==> CountAbove(s[0 := NegInf], s[i]) < Min(topK.value, |s|))
    ensures Filtered(s, topK)[i] != NegInf ==> Filtered(s, topK)[i] == s[i]
  {
    if topK.Some? {
      TopKKeepsExactlyTheHighRanked(s[0 := NegInf], Min(topK.value, |s|), i);
    }
  }

  /** Filtering never removes every candidate: if some non-padding class
      has a finite score, so does some entry of the filtered logits. */
  lemma FilteredKeepsMaximum(s: seq<Score>, topK: Option<int>, j: int)
    requires |s| > 0 && ValidTopK(topK)
    requires 1 <= j < |s| && s[j] != NegInf
    ensures exists i :: 0 <= i < |s| && Filtered(s, topK)[i] != NegInf
  {
    var p := s[0 := NegInf];
    var m := Max(p);
    var i :| 0 <= i < |p| && p[i] == m;
    assert !Below(m, p[j]);
    NothingAboveMax(p, m);
    FilteredSupport(s, topK, i);
  }

  /** Filtering again changes nothing: padding is already minus infinity
      and top-k is idempotent. */
  lemma FilteredIdempotent(s: seq<Score>, topK: Option<int>)
    requires |s| > 0 && ValidTopK(topK)
    ensures |Filtered(s, topK)| == |s|
    ensures Filtered(Filtered(s, topK), topK) == Filtered(s, topK)
  {
    var p := s[0 := NegInf];
    if topK.Some? {
      var k := Min(topK.value, |s|);
      var r := MaskBelow(p, KthLargest(p, k));
      assert r[0 := NegInf] == r;
      TopKIdempotent(p, k);
    } else {
      assert p[0 := NegInf] == p;
    }
  }

  /** `logits[:, 0] = -inf` on one stream. */
  method SuppressPadding(a: array<Score>)
    requires a.Length > 0
    modifies a
    ensures a[..] == old(a[..])[0 := NegInf]
  {
    a[0] := NegInf;
  }

  /** `logits[logits < v[:, [-1]]] = -inf` on one stream, where v holds the
      min(k, size) largest values. */
  method TopKInPlace(a: array<Score>, k: int)
    requires a.Length > 0 && k >= 1
    modifies a
    ensures a[..] == MaskBelow(old(a[..]), KthLargest(old(a[..]), Min(k, a.Length)))
  {
    var t := KthLargest(a[..], Min(k, a.Length));
    ghost var before := a[..];
    var i := 0;
    while i < a.Length
      invariant 0 <= i <= a.Length
      invariant forall j :: 0 <= j < i ==> a[j] == MaskBelow(before, t)[j]
      invariant forall j :: i <= j < a.Length ==> a[j] == before[j]
    {
      if Below(a[i], t) {
        a[i] := NegInf;
      }
      i := i + 1;
    }
  }

  /** The filtering step of one decode iteration on the three streams. With
      an out-of-range top_k torch raises at the token stream's top-k, after
      padding has already been suppressed in all three arrays. */
  method FilterLogits(token: array<Score>, duration: array<Score>, pitch: array<Score>, topK: Option<int>)
    returns (ok: bool)
    requires token.Length > 0 && duration.Length > 0 && pitch.Length > 0
    requires token != duration && token != pitch && duration != pitch
    modifies token, duration, pitch
    ensures ok <==> ValidTopK(topK)
    ensures ok ==> token[..] == Filtered(old(token[..]), topK)
    ensures ok ==> duration[..] == Filtered(old(duration[..]), topK)
    ensures ok ==> pitch[..] == Filtered(old(pitch[..]), topK)
    ensures !ok ==> token[..] == old(token[..])[0 := NegInf]
    ensures !ok ==> duration[..] == old(duration[..])[0 := NegInf]
    ensures !ok ==> pitch[..] == old(pitch[..])[0 := NegInf]
  {
    SuppressPadding(token);
    SuppressPadding(duration);
    SuppressPadding(pitch);
    ok := ValidTopK(topK);
    if ok && topK.Some? {
      TopKInPlace(token, topK.value);
      TopKInPlace(duration, topK.value);
      TopKInPlace(pitch, topK.value);
    }
  }

  /** torch.argmax: the first index holding the largest score. Softmax is
      strictly increasing, so the arg-max of the probabilities is the
      arg-max of the filtered logits. */
  method ArgMax(s: seq<Score>) returns (best: nat)
    requires |s| > 0
    ensures best < |s|
    ensures forall j :: 0 <= j < |s| ==> !Below(s[best], s[j])
    ensures forall j :: 0 <= j < best ==> Below(s[j], s[best])
  {
    best := 0;
    var j := 1;
    while j < |s|
      invariant 1 <= j <= |s| && best < j
      invariant forall i :: 0 <= i < j ==> !Below(s[best], s[i])
      invariant forall i :: 0 <= i < best ==> Below(s[i], s[best])
    {
      if Below(s[best], s[j]) {
        best := j;
      }
      j := j + 1;
    }
  }

  /** The deterministic choice on filtered logits is never the padding
      class and is among the top-k: it is a class the sampler could pick. */
  lemma DeterministicChoiceIsCandidate(s: seq<Score>, topK: Option<int>, best: int, j: int)
    requires |s| > 0 && ValidTopK(topK)
    requires 1 <= j < |s| && s[j] != NegInf
    requires 0 <= best < |s|
    requires forall i :: 0 <= i < |s| ==> !Below(Filtered(s, topK)[best], Filtered(s, topK)[i])
    ensures best != 0 && s[best] != NegInf && Filtered(s, topK)[best] == s[best]
    ensures topK.Some? ==> CountAbove(s[0 := NegInf], s[best]) < Min(topK.value, |s|)
  {
    FilteredKeepsMaximum(s, topK, j);
    var i :| 0 <= i < |s| && Filtered(s, topK)[i] != NegInf;
    assert !Below(Filtered(s, topK)[best], Filtered(s, topK)[i]);
    FilteredSupport(s, topK, best);
  }
}
