/** The transaction record and the word-embedding manager of the search app
    (TransactionsSearch/TransactionsModel.swift): a text's embedding is the average of the
    vectors of its words, in a buffer of 300 slots. */
module TransactionsModel {
  import opened Optional
  import opened Sequences
  import opened Platform
  import opened Text
  import Similarity

  /** The kinds of transaction; `All` is the filter's wildcard. */
  datatype TransactionType = All | Deposit | Withdrawal | Transfer

  /** A transaction. The amount is signed (negative for money going out); the embedding is
      the cached vector of the title, absent until computed or when none was found. */
  datatype Transaction = Transaction(
    date: Date,
    title: string,
    transactionType: TransactionType,
    amount: real,
    isCheque: bool,
    embeddingVector: Option<seq<real>>,
    category: seq<string>)

  /** `formattedDate()`: the date as "MMM d, yyyy". */
  function FormattedDate(foundation: Foundation, t: Transaction): string {
    foundation.formatDate(t.date)
  }

  /** The formatted date reads nothing but the date: transactions on the same date, whatever
      their other fields (their embedding among them), format alike. */
  lemma FormattedDateReadsDateOnly(foundation: Foundation, t: Transaction, u: Transaction)
    requires t.date == u.date
    ensures FormattedDate(foundation, t) == FormattedDate(foundation, u)
  {
  }

  /** The size of the averaging buffer ("typical size for word embeddings"). */
  const Dimension: nat := 300

  /** The vectors of the tokens that have one, in token order. */
  function WordVectors(model: NLEmbedding, tokens: seq<string>): seq<seq<real>> {
    if tokens == [] then []
    else
      var last := tokens[|tokens| - 1];
      WordVectors(model, tokens[..|tokens| - 1])
        + match model.vector(last) { case Some(v) => [v] case None => [] }
  }

  /** What one word vector adds to slot `i`: its `i`-th component, converted to `Float`, when
      it has one. */
  function Contribution(toFloat: real -> real, v: seq<real>, i: nat): real {
    if i < |v| then toFloat(v[i]) else 0.0
  }

  /** The total that slot `i` of the buffer accumulates over `vectors`. */
  function SlotSum(toFloat: real -> real, vectors: seq<seq<real>>, i: nat): real {
    if vectors == [] then 0.0
    else SlotSum(toFloat, vectors[..|vectors| - 1], i) + Contribution(toFloat, vectors[|vectors| - 1], i)
  }

  /** The averaged buffer: nothing when no word had a vector. */
  function Average(toFloat: real -> real, vectors: seq<seq<real>>): Option<seq<real>> {
    if |vectors| == 0 then None
    else Some(seq(Dimension, i requires 0 <= i < Dimension => SlotSum(toFloat, vectors, i) / |vectors| as real))
  }

  lemma AverageOfBuffer(toFloat: real -> real, vectors: seq<seq<real>>, buffer: seq<real>)
    requires |vectors| > 0 && |buffer| == Dimension
    requires forall j :: 0 <= j < Dimension ==> buffer[j] == SlotSum(toFloat, vectors, j) / |vectors| as real
    ensures Average(toFloat, vectors) == Some(buffer)
  {
    var average := seq(Dimension, i requires 0 <= i < Dimension => SlotSum(toFloat, vectors, i) / |vectors| as real);
    assert forall j :: 0 <= j < Dimension ==> average[j] == buffer[j];
    assert average == buffer;
  }

  lemma {:induction false} WordVectorsEmptyIff(model: NLEmbedding, tokens: seq<string>)
    ensures WordVectors(model, tokens) == [] <==> forall t :: t in tokens ==> model.vector(t).None?
  {
    if tokens != [] {
      var init := tokens[..|tokens| - 1];
      WordVectorsEmptyIff(model, init);
      assert tokens == init + [tokens[|tokens| - 1]];
    }
  }

  /** One vector per token that has one: the count the averaging divides by. */
  lemma {:induction false} WordVectorsCount(model: NLEmbedding, tokens: seq<string>)
    ensures |WordVectors(model, tokens)| == |Filter(t => model.vector(t).Some?, tokens)|
  {
    if tokens != [] {
      var n := |tokens| - 1;
      WordVectorsCount(model, tokens[..n]);
      FilterSnoc(t => model.vector(t).Some?, tokens, n);
      assert tokens[..n + 1] == tokens;
    }
  }

  /** A slot that no word vector reaches stays 0. */
  lemma {:induction false} SlotBeyondVectors(toFloat: real -> real, vectors: seq<seq<real>>, i: nat)
    requires forall v :: v in vectors ==> |v| <= i
    ensures SlotSum(toFloat, vectors, i) == 0.0
  {
    if vectors != [] {
      SlotBeyondVectors(toFloat, vectors[..|vectors| - 1], i);
    }
  }

  /** The word-embedding manager defined beside the transaction model. */
  class TransactionEmbeddingManager {
    /** The word model, absent when it failed to load. */
    const wordEmbedding: Option<NLEmbedding>
    /** `NLTokenizer(unit: .word)`: the words of a (cleaned) text. */
    const tokenize: string -> seq<string>
    const foundation: Foundation

    constructor (wordEmbedding: Option<NLEmbedding>, tokenize: string -> seq<string>, foundation: Foundation)
      ensures this.wordEmbedding == wordEmbedding && this.tokenize == tokenize && this.foundation == foundation
    {
      this.wordEmbedding := wordEmbedding;
      this.tokenize := tokenize;
      this.foundation := foundation;
    }

    /** The words of `text` after cleaning. */
    function Tokens(text: string): seq<string> {
      tokenize(Clean(text))
    }

    /** The embedding `generateEmbedding(for:)` computes. */
    function Embedding(text: string): Option<seq<real>> {
      match wordEmbedding
      case None => None
      case Some(model) => Average(foundation.toFloat, WordVectors(model, Tokens(text)))
    }

    /** `generateEmbedding(for:)`: add each word vector into a 300-slot buffer (only as far as
        the vector reaches), count the words that had one, then divide every slot by the count. */
    method GenerateEmbedding(text: string) returns (r: Option<seq<real>>)
      ensures r == Embedding(text)
      ensures r.Some? ==> |r.value| == Dimension
    {
      if wordEmbedding.None? {
        return None;
      }
      var model := wordEmbedding.value;
      var cleanedText := Clean(text);
      var tokens := tokenize(cleanedText);
      var toFloat := foundation.toFloat;
      var sumVector := new real[Dimension](_ => 0.0);
      var count := 0;
      ghost var seen: seq<seq<real>> := [];
      for t := 0 to |tokens|
        invariant seen == WordVectors(model, tokens[..t])
        invariant count == |seen|
        invariant forall j :: 0 <= j < Dimension ==> sumVector[j] == SlotSum(toFloat, seen, j)
      {
        assert tokens[..t + 1][..t] == tokens[..t];
        match model.vector(tokens[t])
        case Some(vector) =>
          AddInto(sumVector, vector, toFloat);
          assert (seen + [vector])[..|seen|] == seen;
          seen := seen + [vector];
          count := count + 1;
        case None =>
      }
      assert tokens[..|tokens|] == tokens;
      if count > 0 {
        DivideAll(sumVector, count);
        AverageOfBuffer(toFloat, seen, sumVector[..]);
        r := Some(sumVector[..]);
      } else {
        r := None;
      }
    }

    /** `cosineSimilarity(between:and:)`, the second copy of the same loop. */
    method CosineSimilarity(vector1: seq<real>, vector2: seq<real>) returns (s: real)
      ensures s == Similarity.Cosine(foundation.sqrt, vector1, vector2)
      ensures |vector1| != |vector2| || |vector1| == 0 ==> s == 0.0
    {
      s := Similarity.CosineSimilarity(foundation.sqrt, vector1, vector2);
    }

    /** The embedding is absent exactly when there is no model or no word of the cleaned text
        has a vector; otherwise it has 300 slots, and slot `i` is the slot's total divided by
        the number of words that had a vector. */
    lemma EmbeddingShape(text: string)
      ensures wordEmbedding.None? ==> Embedding(text).None?
      ensures wordEmbedding.Some? ==>
        (Embedding(text).None? <==> forall t :: t in Tokens(text) ==> wordEmbedding.value.vector(t).None?)
      ensures Embedding(text).Some? ==>
        var vectors := WordVectors(wordEmbedding.value, Tokens(text));
        && |Embedding(text).value| == Dimension
        && |vectors| == |Filter(t => wordEmbedding.value.vector(t).Some?, Tokens(text))|
        && forall i :: 0 <= i < Dimension ==>
             Embedding(text).value[i] == SlotSum(foundation.toFloat, vectors, i) / |vectors| as real
    {
      if wordEmbedding.Some? {
        WordVectorsEmptyIff(wordEmbedding.value, Tokens(text));
        WordVectorsCount(wordEmbedding.value, Tokens(text));
      }
    }

    /** A text with a single known word of at least 300 components embeds as that word's
        first 300 components. */
    lemma SingleWord(text: string, v: seq<real>)
      requires wordEmbedding.Some?
      requires WordVectors(wordEmbedding.value, Tokens(text)) == [v]
      requires |v| >= Dimension
      ensures Embedding(text) == Some(seq(Dimension, i requires 0 <= i < Dimension => foundation.toFloat(v[i])))
    {
      var vectors := [v];
      var expected := seq(Dimension, i requires 0 <= i < Dimension => foundation.toFloat(v[i]));
      assert vectors[..0] == [];
      forall j | 0 <= j < Dimension
        ensures expected[j] == SlotSum(foundation.toFloat, vectors, j) / |vectors| as real
      {
        assert SlotSum(foundation.toFloat, vectors, j) == foundation.toFloat(v[j]);
      }
      AverageOfBuffer(foundation.toFloat, vectors, expected);
    }

    /** Slots past the end of every word vector come out 0. */
    lemma ShortVectorsLeaveSlotsZero(text: string, i: nat)
      requires wordEmbedding.Some? && Embedding(text).Some? && i < Dimension
      requires forall v :: v in WordVectors(wordEmbedding.value, Tokens(text)) ==> |v| <= i
      ensures Embedding(text).value[i] == 0.0
    {
      SlotBeyondVectors(foundation.toFloat, WordVectors(wordEmbedding.value, Tokens(text)), i);
    }
  }

  /** The inner loop of `generateEmbedding(for:)`: add `vector` into `sumVector` slot by slot,
      for the slots both have. */
  method AddInto(sumVector: array<real>, vector: seq<real>, toFloat: real -> real)
    modifies sumVector
    ensures forall j :: 0 <= j < sumVector.Length ==> sumVector[j] == old(sumVector[j]) + Contribution(toFloat, vector, j)
  {
    var n := if |vector| < sumVector.Length then |vector| else sumVector.Length;
    for i := 0 to n
      invariant forall j :: 0 <= j < i ==> sumVector[j] == old(sumVector[j]) + toFloat(vector[j])
      invariant forall j :: i <= j < sumVector.Length ==> sumVector[j] == old(sumVector[j])
    {
      sumVector[i] := sumVector[i] + toFloat(vector[i]);
    }
  }

  /** The averaging loop of `generateEmbedding(for:)`: divide every slot by `count`. */
  method DivideAll(sumVector: array<real>, count: nat)
    requires count > 0
    modifies sumVector
    ensures forall j :: 0 <= j < sumVector.Length ==> sumVector[j] == old(sumVector[j]) / count as real
  {
    for i := 0 to sumVector.Length
      invariant forall j :: 0 <= j < i ==> sumVector[j] == old(sumVector[j]) / count as real
      invariant forall j :: i <= j < sumVector.Length ==> sumVector[j] == old(sumVector[j])
    {
      sumVector[i] := sumVector[i] / count as real;
    }
  }

  /** `computeEmbedding()`: the copy of `t` whose embedding is that of its title; every other
      field is unchanged. */
  method ComputeEmbedding(manager: TransactionEmbeddingManager, t: Transaction) returns (u: Transaction)
    ensures u == t.(embeddingVector := manager.Embedding(t.title))
  {
    var e := manager.GenerateEmbedding(t.title);
    u := t.(embeddingVector := e);
  }
}
