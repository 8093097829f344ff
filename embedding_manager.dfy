/** The sentence-embedding manager (TransactionPage/TransactionEmbeddingManager.swift): one
    vector per cleaned text, straight from the model, and a threshold search over strings. */
module EmbeddingManager {
  import opened Optional
  import opened Sequences
  import opened Platform
  import opened Text
  import Similarity

  /** The threshold `findSimilarTransactions` uses when the caller gives none. */
  const DefaultThreshold: real := 0.7

  class TransactionEmbeddingManager {
    /** The sentence model, absent when it failed to load. */
    const sentenceEmbedding: Option<NLEmbedding>
    const foundation: Foundation

    /** `init()`: the model is whatever `NLEmbedding.sentenceEmbedding(for: .english)` gave. */
    constructor (sentenceEmbedding: Option<NLEmbedding>, foundation: Foundation)
      ensures this.sentenceEmbedding == sentenceEmbedding && this.foundation == foundation
    {
      this.sentenceEmbedding := sentenceEmbedding;
      this.foundation := foundation;
    }

    /** `generateEmbedding(for:)`: nothing without a model or a vector for the cleaned text;
        otherwise that vector, converted component by component to `Float`. */
    function GenerateEmbedding(text: string): (r: Option<seq<real>>)
      ensures sentenceEmbedding.None? ==> r.None?
      ensures sentenceEmbedding.Some? ==>
        match sentenceEmbedding.value.vector(Clean(text))
        case None => r.None?
        case Some(v) => (r.Some? && |r.value| == |v|
          && forall i :: 0 <= i < |v| ==> r.value[i] == foundation.toFloat(v[i]))
    {
      match sentenceEmbedding
      case None => None
      case Some(model) =>
        match model.vector(Clean(text))
        case None => None
        case Some(vector) => Some(seq(|vector|, i requires 0 <= i < |vector| => foundation.toFloat(vector[i])))
    }

    /** `cosineSimilarity(between:and:)` */
    method CosineSimilarity(vector1: seq<real>, vector2: seq<real>) returns (s: real)
      ensures s == Similarity.Cosine(foundation.sqrt, vector1, vector2)
      ensures |vector1| != |vector2| || |vector1| == 0 ==> s == 0.0
    {
      s := Similarity.CosineSimilarity(foundation.sqrt, vector1, vector2);
    }

    /** A string is kept by the search when it can be embedded and scores at least `threshold`
        against the query's vector. */
    predicate IsSimilar(queryEmbedding: seq<real>, text: string, threshold: real) {
      var e := GenerateEmbedding(text);
      e.Some? && Similarity.Cosine(foundation.sqrt, queryEmbedding, e.value) >= threshold
    }

    /** What `findSimilarTransactions(query:transactions:threshold:)` returns. */
    function SimilarTo(query: string, transactions: seq<string>, threshold: real): seq<string> {
      match GenerateEmbedding(query)
      case None => []
      case Some(q) => Filter(t => IsSimilar(q, t, threshold), transactions)
    }

    /** `findSimilarTransactions(query:transactions:threshold:)`: the loop that appends each
        string whose embedding clears the threshold. */
    method FindSimilarTransactions(query: string, transactions: seq<string>, threshold: real := DefaultThreshold)
      returns (similar: seq<string>)
      ensures similar == SimilarTo(query, transactions, threshold)
      ensures GenerateEmbedding(query).None? ==> similar == []
      ensures GenerateEmbedding(query).Some? ==>
        forall t :: t in similar <==> t in transactions && IsSimilar(GenerateEmbedding(query).value, t, threshold)
    {
      var queryEmbedding := GenerateEmbedding(query);
      if queryEmbedding.None? {
        return [];
      }
      var q := queryEmbedding.value;
      ghost var keep := t => IsSimilar(q, t, threshold);
      similar := [];
      for i := 0 to |transactions|
        invariant similar == Filter(keep, transactions[..i])
      {
        FilterSnoc(keep, transactions, i);
        var transaction := transactions[i];
        var transactionEmbedding := GenerateEmbedding(transaction);
        if transactionEmbedding.Some? {
          var similarity := CosineSimilarity(q, transactionEmbedding.value);
          if similarity >= threshold {
            similar := similar + [transaction];
          }
        }
      }
      assert transactions[..|transactions|] == transactions;
    }

    /** The result keeps the input's order: it is a subsequence of `transactions`. */
    lemma SimilarToIsSubsequence(query: string, transactions: seq<string>, threshold: real)
      ensures IsSubsequence(SimilarTo(query, transactions, threshold), transactions)
    {
      if GenerateEmbedding(query).Some? {
        FilterIsSubsequence(t => IsSimilar(GenerateEmbedding(query).value, t, threshold), transactions);
      } else {
        EmptyIsSubsequence(transactions);
      }
    }

    /** Raising the threshold only drops strings: the stricter result is the looser result
        filtered again, so it is no longer and keeps the same relative order. */
    lemma RaisingThresholdNarrows(query: string, transactions: seq<string>, low: real, high: real)
      requires low <= high
      ensures GenerateEmbedding(query).Some? ==>
        SimilarTo(query, transactions, high)
          == Filter(t => IsSimilar(GenerateEmbedding(query).value, t, high), SimilarTo(query, transactions, low))
      ensures |SimilarTo(query, transactions, high)| <= |SimilarTo(query, transactions, low)|
    {
      if GenerateEmbedding(query).Some? {
        var q := GenerateEmbedding(query).value;
        var loose := t => IsSimilar(q, t, low);
        var strict := t => IsSimilar(q, t, high);
        assert forall t :: strict(t) ==> loose(t);
        FilterStronger(loose, strict, transactions);
        assert SimilarTo(query, transactions, high) == Filter(strict, Filter(loose, transactions));
      }
    }

    /** Only the cleaned text matters: case and surrounding white space do not change the
        embedding. */
    lemma EmbeddingIgnoresCleaning(text: string)
      ensures GenerateEmbedding(Clean(text)) == GenerateEmbedding(text)
    {
      CleanIdempotent(text);
    }
  }
}
