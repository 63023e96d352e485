/** The check of the part list that completes a multipart upload. */
module PartList {
  import opened Basics
  import opened Text

  datatype Part = Part(number: int, etag: string)

  const MAX_ETAG_BYTES: int := 256

  predicate GoodEtag(etag: string) {
    TrimSpace(etag) != "" && ByteLength(etag) <= MAX_ETAG_BYTES
  }

  predicate HasNumber(parts: seq<Part>, k: int) {
    exists i :: 0 <= i < |parts| && parts[i].number == k
  }

  /** Every number from 1 to `n` is the number of one of the `n` parts, and every part has a usable ETag. */
  predicate Complete(parts: seq<Part>, n: int) {
    && |parts| == n
    && (forall k :: 1 <= k <= n ==> HasNumber(parts, k))
    && (forall i :: 0 <= i < |parts| ==> GoodEtag(parts[i].etag))
  }

  /** A part with number `k` has this ETag, but for the space around it. */
  ghost predicate HasEtag(parts: seq<Part>, k: int, etag: string) {
    exists e :: Part(k, e) in parts && etag == TrimSpace(e)
  }

  /** `result` lists the numbers from 1 on, each with the trimmed ETag of the part that has this number. */
  ghost predicate Paired(parts: seq<Part>, result: seq<Part>) {
    && |result| == |parts|
    && forall i :: 0 <= i < |result| ==> result[i].number == i + 1 && HasEtag(parts, i + 1, result[i].etag)
  }

  // ---- The numbers of a complete list are a permutation of 1..n ----

  function Numbers(parts: seq<Part>): set<int> {
    set i | 0 <= i < |parts| :: parts[i].number
  }

  predicate Distinct(parts: seq<Part>) {
    forall i, j :: 0 <= i < j < |parts| ==> parts[i].number != parts[j].number
  }

  function UpTo(n: nat): (s: set<int>)
    ensures forall k :: k in s <==> 1 <= k <= n
    ensures |s| == n
  {
    if n == 0 then {} else UpTo(n - 1) + {n}
  }

  lemma NumbersOfFront(parts: seq<Part>)
    requires parts != []
    ensures Numbers(parts) == Numbers(parts[..|parts| - 1]) + {parts[|parts| - 1].number}
  {
    var front, last := parts[..|parts| - 1], parts[|parts| - 1].number;
    forall k
      ensures k in Numbers(parts) <==> k in Numbers(front) + {last}
    {
      if k in Numbers(front) {
        var i :| 0 <= i < |front| && front[i].number == k;
        assert parts[i].number == k;
      }
      if k == last {
        assert parts[|parts| - 1].number == k;
      }
    }
  }

  lemma DistinctFront(parts: seq<Part>)
    requires parts != []
    ensures
      var front := parts[..|parts| - 1];
      Distinct(parts) <==> Distinct(front) && parts[|parts| - 1].number !in Numbers(front)
  {
    var front, last := parts[..|parts| - 1], parts[|parts| - 1].number;
    if last in Numbers(front) {
      var i :| 0 <= i < |front| && front[i].number == last;
      assert parts[i].number == parts[|parts| - 1].number;
    } else {
      forall i | 0 <= i < |front|
        ensures parts[i].number != last
      {
        assert front[i].number in Numbers(front);
      }
    }
  }

  /** Parts have as many numbers as there are parts exactly when no number is repeated. */
  lemma {:induction false} NumbersAreDistinct(parts: seq<Part>)
    ensures |Numbers(parts)| <= |parts|
    ensures |Numbers(parts)| == |parts| <==> Distinct(parts)
    decreases |parts|
  {
    if parts != [] {
      hide Distinct, Numbers;
      var front, last := parts[..|parts| - 1], parts[|parts| - 1].number;
      NumbersAreDistinct(front);
      NumbersOfFront(parts);
      DistinctFront(parts);
      if last in Numbers(front) {
        assert Numbers(front) + {last} == Numbers(front);
      }
    }
  }

  /** The numbers are those from 1 to `n` in some order. */
  predicate PermutesUpTo(parts: seq<Part>, n: int) {
    |parts| == n && Distinct(parts) && forall i :: 0 <= i < |parts| ==> 1 <= parts[i].number <= n
  }

  lemma CoveringPermutes(parts: seq<Part>, n: int)
    requires |parts| == n && forall k :: 1 <= k <= n ==> HasNumber(parts, k)
    ensures PermutesUpTo(parts, n)
  {
    forall k | 1 <= k <= n
      ensures k in Numbers(parts)
    {
      assert HasNumber(parts, k);
      var i :| 0 <= i < |parts| && parts[i].number == k;
    }
    assert UpTo(n) <= Numbers(parts);
    NumbersAreDistinct(parts);
    SubsetSize(UpTo(n), Numbers(parts));
    forall i | 0 <= i < n
      ensures 1 <= parts[i].number <= n
    {
      assert parts[i].number in Numbers(parts);
    }
  }

  lemma PermutationCovers(parts: seq<Part>, n: int)
    requires PermutesUpTo(parts, n)
    ensures forall k :: 1 <= k <= n ==> HasNumber(parts, k)
  {
    NumbersAreDistinct(parts);
    SubsetSize(Numbers(parts), UpTo(n));
    forall k | 1 <= k <= n
      ensures HasNumber(parts, k)
    {
      assert k in Numbers(parts);
    }
  }

  /** A list is complete exactly when its numbers are a permutation of 1..n and every ETag is usable. */
  lemma CompleteIsPermutation(parts: seq<Part>, n: int)
    ensures Complete(parts, n) <==> PermutesUpTo(parts, n) && forall i :: 0 <= i < |parts| ==> GoodEtag(parts[i].etag)
  {
    hide GoodEtag;
    if Complete(parts, n) {
      CoveringPermutes(parts, n);
    }
    if PermutesUpTo(parts, n) {
      PermutationCovers(parts, n);
    }
  }

  lemma SubsetSize(a: set<int>, b: set<int>)
    requires a <= b && |b| <= |a|
    ensures a == b
  {
    assert |b| == |a| + |b - a|;
  }

  // ---- Independence of the order ----

  lemma SameParts(a: seq<Part>, b: seq<Part>)
    requires multiset(a) == multiset(b)
    ensures |a| == |b| && forall p :: p in a <==> p in b
  {
    assert |multiset(a)| == |multiset(b)|;
    forall p
      ensures p in a <==> p in b
    {
      assert p in a <==> p in multiset(a);
      assert p in b <==> p in multiset(b);
    }
  }

  lemma CompleteIgnoresOrder(a: seq<Part>, b: seq<Part>, n: int)
    requires multiset(a) == multiset(b) && Complete(a, n)
    ensures Complete(b, n)
  {
    SameParts(a, b);
    forall k | 1 <= k <= n
      ensures HasNumber(b, k)
    {
      assert HasNumber(a, k);
      var i :| 0 <= i < |a| && a[i].number == k;
      assert a[i] in b;
    }
    forall i | 0 <= i < |b|
      ensures GoodEtag(b[i].etag)
    {
      assert b[i] in a;
    }
  }

  /** The answer depends on which parts were sent, not on their order. */
  lemma AnswerIgnoresOrder(a: seq<Part>, b: seq<Part>, n: int, ra: seq<Part>, rb: seq<Part>)
    requires multiset(a) == multiset(b)
    ensures Complete(a, n) <==> Complete(b, n)
    ensures Complete(a, n) && Paired(a, ra) && Paired(b, rb) ==> ra == rb
  {
    if Complete(a, n) {
      CompleteIgnoresOrder(a, b, n);
    }
    if Complete(b, n) {
      CompleteIgnoresOrder(b, a, n);
    }
    if Complete(a, n) && Paired(a, ra) && Paired(b, rb) {
      SameParts(a, b);
      CompleteIsPermutation(a, n);
      forall i | 0 <= i < |ra|
        ensures ra[i] == rb[i]
      {
        SamePairing(a, b, i + 1, ra[i].etag, rb[i].etag);
      }
    }
  }

  lemma SamePairing(a: seq<Part>, b: seq<Part>, k: int, etag: string, etag': string)
    requires Distinct(a) && forall p :: p in a <==> p in b
    requires HasEtag(a, k, etag) && HasEtag(b, k, etag')
    ensures etag == etag'
  {
    hide TrimSpace;
    var e :| Part(k, e) in a && etag == TrimSpace(e);
    var e' :| Part(k, e') in b && etag' == TrimSpace(e');
    assert Part(k, e') in a;
  }

  // ---- The check in place ----

  predicate Sorted(parts: seq<Part>) {
    forall i, j :: 0 <= i < j < |parts| ==> parts[i].number <= parts[j].number
  }

  /** Sorted, a complete list counts up from 1. */
  lemma SortedCounts(parts: seq<Part>, n: int)
    requires Sorted(parts) && Complete(parts, n)
    ensures forall i :: 0 <= i < n ==> parts[i].number == i + 1
  {
    CompleteIsPermutation(parts, n);
    forall i | 0 <= i < n
      ensures parts[i].number == i + 1
    {
      AtLeast(parts, i);
      AtMost(parts, n, i);
    }
  }

  lemma {:induction false} AtLeast(parts: seq<Part>, i: nat)
    requires i < |parts| && Sorted(parts) && Distinct(parts)
    requires forall j :: 0 <= j < |parts| ==> 1 <= parts[j].number
    ensures parts[i].number >= i + 1
  {
    if i > 0 {
      AtLeast(parts, i - 1);
    }
  }

  lemma {:induction false} AtMost(parts: seq<Part>, n: int, i: nat)
    requires |parts| == n && i < n && Sorted(parts) && Distinct(parts)
    requires forall j :: 0 <= j < |parts| ==> parts[j].number <= n
    ensures parts[i].number <= i + 1
    decreases n - i
  {
    if i + 1 < n {
      AtMost(parts, n, i + 1);
    }
  }

  lemma CountingIsComplete(parts: seq<Part>)
    requires forall i :: 0 <= i < |parts| ==> parts[i].number == i + 1 && GoodEtag(parts[i].etag)
    ensures Complete(parts, |parts|)
  {
    forall k | 1 <= k <= |parts|
      ensures HasNumber(parts, k)
    {
      assert parts[k - 1].number == k;
    }
  }

  lemma RejectedIsIncomplete(sent: seq<Part>, sorted: seq<Part>, i: nat)
    requires multiset(sorted) == multiset(sent) && Sorted(sorted) && i < |sorted|
    requires sorted[i].number != i + 1 || !GoodEtag(sorted[i].etag)
    ensures !Complete(sent, |sorted|)
  {
    if Complete(sent, |sorted|) {
      CompleteIgnoresOrder(sent, sorted, |sorted|);
      SortedCounts(sorted, |sorted|);
    }
  }

  /** Two neighbours exchanged. */
  function Swapped(s: seq<Part>, j: nat): seq<Part>
    requires 0 < j < |s|
  {
    s[j - 1 := s[j]][j := s[j - 1]]
  }

  predicate SortedBelow(s: seq<Part>, i: nat) {
    forall x, y :: 0 <= x < y < i && y < |s| ==> s[x].number <= s[y].number
  }

  /** Sorted up to `i`, but for the element that is on its way down at `j`. */
  predicate SortedBut(s: seq<Part>, i: nat, j: nat) {
    forall x, y :: 0 <= x < y <= i && y != j && y < |s| ==> s[x].number <= s[y].number
  }

  lemma SwapKeepsParts(s: seq<Part>, j: nat)
    requires 0 < j < |s|
    ensures multiset(Swapped(s, j)) == multiset(s)
  {
  }

  lemma SwapSorts(s: seq<Part>, i: nat, j: nat)
    requires 0 < j <= i < |s| && SortedBut(s, i, j) && s[j - 1].number > s[j].number
    ensures SortedBut(Swapped(s, j), i, j - 1)
  {
  }

  /** The order sort.Slice leaves the parts in. */
  method SortParts(a: array<Part>)
    modifies a
    ensures Sorted(a[..]) && multiset(a[..]) == multiset(old(a[..]))
  {
    for i := 0 to a.Length
      invariant SortedBelow(a[..], i) && multiset(a[..]) == multiset(old(a[..]))
    {
      var j := i;
      while j > 0 && a[j - 1].number > a[j].number
        invariant 0 <= j <= i && SortedBut(a[..], i, j) && multiset(a[..]) == multiset(old(a[..]))
      {
        ghost var before := a[..];
        SwapSorts(before, i, j);
        SwapKeepsParts(before, j);
        a[j - 1], a[j] := a[j], a[j - 1];
        assert a[..] == Swapped(before, j);
        j := j - 1;
      }
    }
  }

  /** validateCompletedParts sorts the parts in place. It accepts exactly the complete lists, whatever their order,
      and pairs each number with its own trimmed ETag. */
  method ValidateCompletedParts(parts: array<Part>, expected: Option<int>) returns (result: Option<seq<Part>>)
    modifies parts
    ensures multiset(parts[..]) == multiset(old(parts[..]))
    ensures result.Some? <==> expected.Some? && Complete(old(parts[..]), expected.value)
    ensures result.Some? ==> Paired(old(parts[..]), result.value)
  {
    if expected.None? || parts.Length != expected.value {
      return None;
    }
    ghost var sent := parts[..];
    SortParts(parts);
    ghost var sorted := parts[..];
    SameParts(sent, sorted);
    var pairs: seq<Part> := [];
    for index := 0 to parts.Length
      invariant parts[..] == sorted && |pairs| == index
      invariant forall i :: 0 <= i < index ==> sorted[i].number == i + 1 && GoodEtag(sorted[i].etag)
      invariant forall i :: 0 <= i < index ==> pairs[i] == Part(i + 1, TrimSpace(sorted[i].etag))
    {
      var part := parts[index];
      if part.number != index + 1 || TrimSpace(part.etag) == "" || ByteLength(part.etag) > MAX_ETAG_BYTES {
        RejectedIsIncomplete(sent, sorted, index);
        return None;
      }
      pairs := pairs + [Part(part.number, TrimSpace(part.etag))];
    }
    CountingIsComplete(sorted);
    CompleteIgnoresOrder(sorted, sent, parts.Length);
    forall i | 0 <= i < |pairs|
      ensures exists e :: Part(i + 1, e) in sent && pairs[i].etag == TrimSpace(e)
    {
      assert sorted[i] in sent && sorted[i] == Part(i + 1, sorted[i].etag);
    }
    return Some(pairs);
  }
}
