/** The ranking step of semantic search (`performSemanticSearch` in
    TransactionsSearch/FilterViewModel.swift): pair each candidate that has an embedding with
    its similarity to the query, keep the pairs at or above the threshold, sort them by
    similarity, highest first, and keep the transactions. */
module Ranking {
  import opened Sequences
  import opened TransactionsModel
  import Similarity

  /** The candidate has an embedding and it scores at least `threshold` against `query`. */
  predicate Qualifies(sqrt: real -> real, query: seq<real>, threshold: real, t: Transaction) {
    t.embeddingVector.Some? && Similarity.Cosine(sqrt, query, t.embeddingVector.value) >= threshold
  }

  function QualifiesFor(sqrt: real -> real, query: seq<real>, threshold: real): Transaction -> bool {
    t => Qualifies(sqrt, query, threshold, t)
  }

  /** The similarity of a candidate that has an embedding. */
  function Score(sqrt: real -> real, query: seq<real>, t: Transaction): real
    requires t.embeddingVector.Some?
  {
    Similarity.Cosine(sqrt, query, t.embeddingVector.value)
  }

  /** The `compactMap`: drop candidates without an embedding, pair the rest with their score. */
  function WithSimilarity(sqrt: real -> real, query: seq<real>, candidates: seq<Transaction>): (r: seq<(Transaction, real)>)
    ensures forall p :: p in r ==> p.0.embeddingVector.Some? && p.1 == Score(sqrt, query, p.0)
  {
    if candidates == [] then []
    else
      var t := candidates[0];
      (match t.embeddingVector
       case None => []
       case Some(e) => [(t, Similarity.Cosine(sqrt, query, e))])
      + WithSimilarity(sqrt, query, candidates[1..])
  }

  function AtLeast(threshold: real): ((Transaction, real)) -> bool {
    (p: (Transaction, real)) => p.1 >= threshold
  }

  /** `.map { $0.0 }` */
  function Transactions(pairs: seq<(Transaction, real)>): (r: seq<Transaction>)
    ensures |r| == |pairs| && forall i :: 0 <= i < |r| ==> r[i] == pairs[i].0
  {
    if pairs == [] then [] else [pairs[0].0] + Transactions(pairs[1..])
  }

  lemma TransactionsCons(p: (Transaction, real), s: seq<(Transaction, real)>)
    ensures Transactions([p] + s) == [p.0] + Transactions(s)
  {
    assert ([p] + s)[1..] == s;
  }

  ghost predicate SortedByScore(s: seq<(Transaction, real)>) {
    forall i, j :: 0 <= i < j < |s| ==> s[i].1 >= s[j].1
  }

  /** Put `p` in front of the first pair that scores strictly less. */
  function InsertByScore(p: (Transaction, real), s: seq<(Transaction, real)>): (r: seq<(Transaction, real)>)
    requires SortedByScore(s)
    ensures SortedByScore(r)
    ensures multiset(r) == multiset(s) + multiset{p}
  {
    if s == [] then [p]
    else if p.1 >= s[0].1 then [p] + s
    else
      var rest := InsertByScore(p, s[1..]);
      assert s == [s[0]] + s[1..];
      HeadBoundsRest(s[0], p, s[1..], rest);
      [s[0]] + rest
  }

  lemma HeadBoundsRest(h: (Transaction, real), p: (Transaction, real), tail: seq<(Transaction, real)>, rest: seq<(Transaction, real)>)
    requires SortedByScore([h] + tail) && SortedByScore(rest)
    requires p.1 < h.1 && multiset(rest) == multiset(tail) + multiset{p}
    ensures SortedByScore([h] + rest)
  {
    forall j | 0 <= j < |rest|
      ensures rest[j].1 <= h.1
    {
      assert rest[j] in multiset(rest);
      if rest[j] != p {
        assert rest[j] in tail;
        var k :| 0 <= k < |tail| && tail[k] == rest[j];
        assert ([h] + tail)[0] == h && ([h] + tail)[k + 1] == tail[k];
        assert ([h] + tail)[0].1 >= ([h] + tail)[k + 1].1;
      }
    }
  }

  lemma {:induction false} InsertTransactions(p: (Transaction, real), s: seq<(Transaction, real)>)
    requires SortedByScore(s)
    ensures multiset(Transactions(InsertByScore(p, s))) == multiset(Transactions(s)) + multiset{p.0}
  {
    if s == [] {
    } else if p.1 >= s[0].1 {
      TransactionsCons(p, s);
    } else {
      assert s == [s[0]] + s[1..];
      InsertTransactions(p, s[1..]);
      TransactionsCons(s[0], InsertByScore(p, s[1..]));
      TransactionsCons(s[0], s[1..]);
    }
  }

  /** `.sorted { $0.1 > $1.1 }`, as an insertion sort. */
  function SortByScore(s: seq<(Transaction, real)>): (r: seq<(Transaction, real)>)
    ensures SortedByScore(r)
    ensures multiset(r) == multiset(s)
  {
    if s == [] then []
    else
      assert s == [s[0]] + s[1..];
      InsertByScore(s[0], SortByScore(s[1..]))
  }

  lemma {:induction false} SortTransactions(s: seq<(Transaction, real)>)
    ensures multiset(Transactions(SortByScore(s))) == multiset(Transactions(s))
  {
    if s != [] {
      assert s == [s[0]] + s[1..];
      SortTransactions(s[1..]);
      InsertTransactions(s[0], SortByScore(s[1..]));
      TransactionsCons(s[0], s[1..]);
    }
  }

  /** The transactions semantic search ranks, best first. */
  function Rank(sqrt: real -> real, query: seq<real>, candidates: seq<Transaction>, threshold: real): seq<Transaction> {
    Transactions(SortByScore(Filter(AtLeast(threshold), WithSimilarity(sqrt, query, candidates))))
  }

  lemma {:induction false} AboveThresholdIsQualifying(sqrt: real -> real, query: seq<real>, candidates: seq<Transaction>, threshold: real)
    ensures Transactions(Filter(AtLeast(threshold), WithSimilarity(sqrt, query, candidates)))
         == Filter(QualifiesFor(sqrt, query, threshold), candidates)
  {
    if candidates != [] {
      var t := candidates[0];
      var rest := WithSimilarity(sqrt, query, candidates[1..]);
      AboveThresholdIsQualifying(sqrt, query, candidates[1..], threshold);
      match t.embeddingVector
      case None =>
        assert WithSimilarity(sqrt, query, candidates) == rest;
      case Some(e) =>
        var p := (t, Similarity.Cosine(sqrt, query, e));
        assert WithSimilarity(sqrt, query, candidates) == [p] + rest;
        FilterAppend(AtLeast(threshold), [p], rest);
        if p.1 >= threshold {
          TransactionsCons(p, Filter(AtLeast(threshold), rest));
        }
    }
  }

  /** The ranking holds exactly the candidates that have an embedding scoring at least the
      threshold (as a multiset: a permutation of that selection), ordered by score, highest
      first. */
  lemma RankSpec(sqrt: real -> real, query: seq<real>, candidates: seq<Transaction>, threshold: real)
    ensures var r := Rank(sqrt, query, candidates, threshold);
      && (forall i :: 0 <= i < |r| ==> Qualifies(sqrt, query, threshold, r[i]))
      && (forall i, j :: 0 <= i < j < |r| ==>
            r[i].embeddingVector.Some? && r[j].embeddingVector.Some?
            && Score(sqrt, query, r[i]) >= Score(sqrt, query, r[j]))
      && multiset(r) == multiset(Filter(QualifiesFor(sqrt, query, threshold), candidates))
  {
    var pairs := WithSimilarity(sqrt, query, candidates);
    var above := Filter(AtLeast(threshold), pairs);
    var sorted := SortByScore(above);
    var r := Transactions(sorted);
    forall i | 0 <= i < |sorted|
      ensures sorted[i].0.embeddingVector.Some? && sorted[i].1 == Score(sqrt, query, sorted[i].0)
      ensures sorted[i].1 >= threshold
    {
      assert sorted[i] in multiset(above);
      assert sorted[i] in above;
      assert AtLeast(threshold)(sorted[i]);
    }
    SortTransactions(above);
    AboveThresholdIsQualifying(sqrt, query, candidates, threshold);
  }

  /** Nothing is ranked exactly when no candidate qualifies. */
  lemma RankEmptyIff(sqrt: real -> real, query: seq<real>, candidates: seq<Transaction>, threshold: real)
    ensures Rank(sqrt, query, candidates, threshold) == []
        <==> forall t :: t in candidates ==> !Qualifies(sqrt, query, threshold, t)
  {
    RankSpec(sqrt, query, candidates, threshold);
    var r := Rank(sqrt, query, candidates, threshold);
    var f := Filter(QualifiesFor(sqrt, query, threshold), candidates);
    assert r == [] <==> f == [] by {
      if r == [] { assert multiset(f) == multiset{}; }
      if f == [] { assert multiset(r) == multiset{}; }
    }
    if f != [] { assert f[0] in f; }
  }
}
