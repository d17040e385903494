/** The ranking half of internal/embedding/embedding_selector.go: scored
    candidates, the descending sort (`sort.Slice`), the prefix copy and the
    `min` helper, and what a top-n answer means. */
module Ranking {

  /** One entry of the `similarities` slice. */
  datatype Scored = Scored(candidate: string, similarity: real)

  /** The source's `min`. */
  function Min(a: int, b: int): (r: int)
    ensures r <= a && r <= b
    ensures r == a || r == b
  {
    if a < b then a else b
  }

  /** Scores in non-increasing order: what `sort.Slice` with the `>` comparison leaves. */
  ghost predicate SortedDesc(s: seq<Scored>)
  {
    forall i, j :: 0 <= i < j < |s| ==> s[i].similarity >= s[j].similarity
  }

  /** The candidate texts of a run of scored entries, in the same order. */
  function Texts(s: seq<Scored>): seq<string>
  {
    seq(|s|, i requires 0 <= i < |s| => s[i].candidate)
  }

  /** Every entry carries the score that `scores` gives its candidate. */
  ghost predicate ScoredBy(s: seq<Scored>, scores: map<string, real>)
  {
    forall x :: x in s ==> x.candidate in scores && x.similarity == scores[x.candidate]
  }

  /** `r` is what a top-`n` query over `candidates` may answer: `min(n, |candidates|)`
      candidates, drawn from the pool with multiplicity, in non-increasing score, and
      none of them outscored by a candidate left out.  Up to the order of equal
      scores, this is "a prefix of the candidates sorted by descending score". */
  ghost predicate IsTopRanking(r: seq<string>, candidates: seq<string>, n: nat, scores: map<string, real>)
  {
    && |r| == Min(n, |candidates|)
    && multiset(r) <= multiset(candidates)
    && (forall c :: c in candidates ==> c in scores)
    && (forall i :: 0 <= i < |r| ==> r[i] in candidates)
    && (forall i, j :: 0 <= i < j < |r| ==> scores[r[i]] >= scores[r[j]])
    && (forall x, y :: x in r && y in multiset(candidates) - multiset(r) ==> scores[x] >= scores[y])
  }

  /** The texts of two runs put together are their texts put together. */
  lemma TextsAppend(a: seq<Scored>, b: seq<Scored>)
    ensures Texts(a + b) == Texts(a) + Texts(b)
  {
    forall i | 0 <= i < |a| + |b| ensures Texts(a + b)[i] == (Texts(a) + Texts(b))[i] {
      if i >= |a| {
        assert (a + b)[i] == b[i - |a|];
      }
    }
  }

  /** Taking out the entry at `j` takes out one copy of it. */
  lemma RemoveAt<T>(s: seq<T>, j: nat)
    requires j < |s|
    ensures multiset(s) == multiset(s[..j] + s[j + 1..]) + multiset{s[j]}
  {
    assert s == s[..j] + [s[j]] + s[j + 1..];
  }

  lemma Cancel<T>(a: multiset<T>, b: multiset<T>, x: T)
    requires a + multiset{x} == b + multiset{x}
    ensures a == b
  {
    assert forall y :: a[y] == (a + multiset{x})[y] - multiset{x}[y];
    assert forall y :: b[y] == (b + multiset{x})[y] - multiset{x}[y];
  }

  /** Taking out entry `j` takes its text out of the texts. */
  lemma TextsWithout(s: seq<Scored>, j: nat)
    requires j < |s|
    ensures multiset(Texts(s)) == multiset(Texts(s[..j] + s[j + 1..])) + multiset{s[j].candidate}
  {
    var t, u := Texts(s), s[..j] + s[j + 1..];
    assert Texts(u) == t[..j] + t[j + 1..] by {
      forall i | 0 <= i < |u| ensures Texts(u)[i] == (t[..j] + t[j + 1..])[i] {
        if i < j {
          assert u[i] == s[i];
        } else {
          assert u[i] == s[i + 1];
        }
      }
    }
    RemoveAt(t, j);
  }

  /** Two permutations of each other stay so when the first loses its head and
      the second loses a copy of that head. */
  lemma PermutationWithout<T>(a: seq<T>, b: seq<T>, j: nat)
    requires multiset(a) == multiset(b) && a != [] && j < |b| && b[j] == a[0]
    ensures multiset(a[1..]) == multiset(b[..j] + b[j + 1..])
  {
    RemoveAt(a, 0);
    assert a[..0] + a[1..] == a[1..];
    RemoveAt(b, j);
    Cancel(multiset(a[1..]), multiset(b[..j] + b[j + 1..]), a[0]);
  }

  /** A value in the multiset of a sequence sits at some index of it. */
  lemma IndexOf<T>(s: seq<T>, x: T) returns (j: nat)
    requires x in multiset(s)
    ensures j < |s| && s[j] == x
  {
    j :| 0 <= j < |s| && s[j] == x;
  }

  /** Reordering scored entries reorders their texts the same way. */
  lemma {:induction false} TextsPermutation(a: seq<Scored>, b: seq<Scored>)
    requires multiset(a) == multiset(b)
    ensures multiset(Texts(a)) == multiset(Texts(b))
    decreases |a|
  {
    if a == [] {
      assert |multiset(b)| == 0;
    } else {
      var j := IndexOf(b, a[0]);
      var rest := b[..j] + b[j + 1..];
      PermutationWithout(a, b, j);
      TextsPermutation(a[1..], rest);
      TextsMatchedHeads(a, b, j);
    }
  }

  /** Matching the head of `a` with entry `j` of `b`: if the texts of what is left
      agree as multisets, so do the texts of the whole. */
  lemma TextsMatchedHeads(a: seq<Scored>, b: seq<Scored>, j: nat)
    requires a != [] && j < |b| && b[j] == a[0]
    requires multiset(Texts(a[1..])) == multiset(Texts(b[..j] + b[j + 1..]))
    ensures multiset(Texts(a)) == multiset(Texts(b))
  {
    TextsHead(a);
    TextsWithout(b, j);
    assert a[0].candidate == b[j].candidate;
  }

  lemma TextsHead(a: seq<Scored>)
    requires a != []
    ensures multiset(Texts(a)) == multiset(Texts(a[1..])) + multiset{a[0].candidate}
  {
    assert Texts(a) == [a[0].candidate] + Texts(a[1..]);
  }

  /** The texts of a split run are the texts of its two halves. */
  lemma TextsSplit(s: seq<Scored>, k: nat)
    requires k <= |s|
    ensures multiset(Texts(s)) == multiset(Texts(s[..k])) + multiset(Texts(s[k..]))
  {
    assert s == s[..k] + s[k..];
    TextsAppend(s[..k], s[k..]);
  }

  /** In a sorted, consistently scored run, every text before position `k`
      scores at least as high as every text from `k` on. */
  lemma PrefixOutscoresSuffix(s: seq<Scored>, k: nat, scores: map<string, real>, x: string, y: string)
    requires SortedDesc(s) && ScoredBy(s, scores) && k <= |s|
    requires x in Texts(s[..k]) && y in Texts(s[k..])
    ensures x in scores && y in scores && scores[x] >= scores[y]
  {
    var i :| 0 <= i < k && Texts(s[..k])[i] == x;
    var j :| 0 <= j < |s| - k && Texts(s[k..])[j] == y;
    assert s[i] in s && s[k + j] in s;
  }

  /** Taking the first `min(n, |s|)` texts of a sorted, consistently scored
      permutation of the pool answers a top-`n` query over the pool. */
  lemma RankingOfSorted(s: seq<Scored>, candidates: seq<string>, n: nat, scores: map<string, real>)
    requires SortedDesc(s)
    requires ScoredBy(s, scores)
    requires multiset(Texts(s)) == multiset(candidates)
    ensures IsTopRanking(Texts(s[..Min(n, |s|)]), candidates, n, scores)
  {
    assert |multiset(Texts(s))| == |multiset(candidates)|;
    var k := Min(n, |s|);
    var r, rest := Texts(s[..k]), Texts(s[k..]);
    TextsSplit(s, k);
    forall c | c in candidates ensures c in scores {
      assert c in multiset(Texts(s));
      var i :| 0 <= i < |s| && Texts(s)[i] == c;
      assert s[i] in s;
    }
    forall i | 0 <= i < |r| ensures r[i] in candidates
    {
      assert r[i] in multiset(r);
      assert multiset(candidates)[r[i]] >= multiset(r)[r[i]] > 0;
    }
    forall i, j | 0 <= i < j < |r| ensures scores[r[i]] >= scores[r[j]] {
      assert s[i] in s && s[j] in s;
    }
    forall x, y | x in r && y in multiset(candidates) - multiset(r) ensures scores[x] >= scores[y] {
      assert y in multiset(rest);
      PrefixOutscoresSuffix(s, k, scores, x, y);
    }
  }

  /** The first entry of a top-1 answer scores at least as high as every candidate. */
  lemma TopOneIsMaximal(r: seq<string>, candidates: seq<string>, scores: map<string, real>)
    requires IsTopRanking(r, candidates, 1, scores)
    requires |candidates| > 0
    ensures |r| == 1 && r[0] in candidates
    ensures forall c :: c in candidates ==> scores[c] <= scores[r[0]]
  {
    assert r == [r[0]];
    forall c | c in candidates ensures scores[c] <= scores[r[0]] {
      if c != r[0] {
        assert multiset(r)[c] == 0;
        assert c in multiset(candidates) - multiset(r);
        assert r[0] in r;
      }
    }
  }

  /** Positions `lo` to `hi` (exclusive) of `a` hold non-increasing scores. */
  ghost predicate SortedBetween(a: array<Scored>, lo: int, hi: int)
    reads a
  {
    forall p, q :: lo <= p < q < hi && 0 <= p && q < a.Length ==> a[p].similarity >= a[q].similarity
  }

  method Swap(a: array<Scored>, i: int, j: int)
    requires 0 <= i < a.Length && 0 <= j < a.Length
    modifies a
    ensures a[i] == old(a[j]) && a[j] == old(a[i])
    ensures forall m :: 0 <= m < a.Length && m != i && m != j ==> a[m] == old(a[m])
    ensures multiset(a[..]) == old(multiset(a[..]))
  {
    a[i], a[j] := a[j], a[i];
  }

  /** `a[..hi+1]` is in non-increasing order once the entry at `j` is ignored. */
  ghost predicate SortedAround(a: array<Scored>, j: int, hi: int)
    reads a
  {
    forall p, q :: 0 <= p < q <= hi && q < a.Length && p != j && q != j ==> a[p].similarity >= a[q].similarity
  }

  /** `sort.Slice` with a `>` comparison on the similarity: an in-place sort into
      non-increasing score.  The order of equal scores is
      whatever this insertion sort leaves; the library promises none. */
  method SortBySimilarity(a: array<Scored>)
    modifies a
    ensures SortedDesc(a[..])
    ensures multiset(a[..]) == old(multiset(a[..]))
  {
    var i := 0;
    while i < a.Length
      invariant 0 <= i <= a.Length
      invariant SortedBetween(a, 0, i)
      invariant multiset(a[..]) == old(multiset(a[..]))
    {
      var j := i;
      while j > 0 && a[j - 1].similarity < a[j].similarity
        invariant 0 <= j <= i
        invariant SortedAround(a, j, i)
        invariant forall q :: j < q <= i ==> a[j].similarity > a[q].similarity
        invariant multiset(a[..]) == old(multiset(a[..]))
      {
        Swap(a, j - 1, j);
        j := j - 1;
      }
      i := i + 1;
    }
  }

  /** The tail of `FindBestMatches`: sort the scored entries in place and copy the
      first `min(n, len)` candidate texts into a fresh slice. */
  method TopCandidates(similarities: array<Scored>, n: nat) returns (bestMatches: seq<string>)
    modifies similarities
    ensures SortedDesc(similarities[..])
    ensures multiset(similarities[..]) == old(multiset(similarities[..]))
    ensures bestMatches == Texts(similarities[..Min(n, similarities.Length)])
  {
    SortBySimilarity(similarities);
    ghost var sorted := similarities[..];
    var k := Min(n, similarities.Length);
    var best := new string[k];
    for i := 0 to k
      modifies best
      invariant similarities[..] == sorted
      invariant forall j :: 0 <= j < i ==> best[j] == similarities[j].candidate
    {
      best[i] := similarities[i].candidate;
    }
    bestMatches := best[..];
  }
}
