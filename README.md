# Transaction search: a Dafny model

This project models the search-and-filter logic of a banking app's transaction list. The app
is written in Swift with SwiftUI. The model covers:

- **The filter engine** (`FilterViewModel`). It keeps all stored transactions and shows the
  ones that pass a structured filter: date range, amount range, transaction type, cheque flag
  and category. A search text then narrows that list. In text mode it matches the title
  (ignoring case) or the two-decimal amount. In semantic mode the list is ranked by the cosine
  similarity between the query's embedding and each transaction's stored embedding. The
  engine falls back to the unranked list when the ranking is empty. It also has a reset
  operation and an operation that appends ten test transactions.
- **Two embedding managers.**
  - TransactionPage/TransactionEmbeddingManager.swift keeps a sentence model and has a
    threshold search over strings.
  - The manager in TransactionsSearch/TransactionsModel.swift averages word vectors into a
    300-slot buffer. This is the one the filter engine uses.
  - Both compute cosine similarity with the same accumulating loop.
- **The transaction list screen's logic.** It covers the category chips, which toggle a
  category in the selection and re-apply the filters. It also covers grouping the shown
  transactions into sections keyed by formatted date, with the keys sorted in descending
  string order.

Modules, one per file:

- `Optional`, `Sequences`, `Text`, `Platform`: shared definitions.
  - `Sequences` has the order-preserving `Filter` and subsequences.
  - `Text` has lowercasing, trimming, substring search and string order.
  - `Platform` holds the operating-system services as total functions.
- `Similarity`: cosine similarity.
- `EmbeddingManager`: the sentence manager.
- `TransactionsModel`: transactions and the word manager.
- `Ranking`: the semantic ranking.
- `Search`: the filter engine.
- `TransactionsList`: the list screen.

How state is modelled:

- Swift state that is changed in place becomes a Dafny class. The filter engine's
  `@Published` fields are fields of `Search.FilterViewModel`. The averaging buffer is an
  `array<real>`.
- Each state-changing method has a contract that ties its new state to a function of its old
  state (`AfterApplyFilters`, `AfterSemanticSearch`, `AfterResetFilters`,
  `AfterAddTestTransactions`). The lemmas state the filter engine's properties about those
  functions.

The foreign services are parameters:

- Everything the Swift code takes from Foundation is a field of `Platform.Foundation`: the
  calendar, `Double(String)`, the number and date formatters, `sqrt` and the `Float`
  conversion.
- The embedding models are `Platform.NLEmbedding` values.
- The word tokenizer is a function.
- The current instant is a `now` parameter.

The properties hold whatever values these functions return, except where a lemma requires
`sqrt` to be a square root (`Similarity.IsSqrt`). `Double(String)` is modelled as returning
a real number or nothing, so it cannot return NaN or infinity (see "## Left out").

## Model

| member | source | states |
|---|---|---|
| Similarity.CosineSimilarity | TransactionPage/TransactionEmbeddingManager.swift:37-56 | The loop keeps the dot product and both squared magnitudes equal to the sums over the first i components. The result is the dot product over the product of the magnitudes. It is 0 when the lengths differ or are zero. |
| Similarity.CosineSymmetric | TransactionPage/TransactionEmbeddingManager.swift:44-55 | Similarity is symmetric in its two vectors. |
| Similarity.DotSymmetric | TransactionPage/TransactionEmbeddingManager.swift:45 | The accumulated dot product does not depend on argument order. |
| Similarity.DotWithZero | TransactionPage/TransactionEmbeddingManager.swift:45-47 | A vector of zeros has dot product 0 with any vector of its length. |
| Similarity.CosineOfZeroVector | TransactionPage/TransactionEmbeddingManager.swift:50-53 | An all-zero vector has magnitude 0, so its similarity with anything, on either side, is 0. |
| Similarity.CosineWithItself | TransactionPage/TransactionEmbeddingManager.swift:50-55 | A vector with non-zero magnitude has similarity exactly 1 with itself. |
| EmbeddingManager.TransactionEmbeddingManager.GenerateEmbedding | TransactionPage/TransactionEmbeddingManager.swift:20-34 | It returns nothing without a sentence model, or when the model has no vector for the lowercased, trimmed text. Otherwise it returns a vector of the model vector's length whose every component is the `Float` conversion of the model's component. |
| EmbeddingManager.TransactionEmbeddingManager.EmbeddingIgnoresCleaning | TransactionPage/TransactionEmbeddingManager.swift:24-25 | Embedding a text that is already cleaned gives what embedding the raw text gives. |
| EmbeddingManager.TransactionEmbeddingManager.CosineSimilarity | TransactionPage/TransactionEmbeddingManager.swift:37-56 | The manager's similarity is `Similarity.Cosine` with the device `sqrt`, including the zero guards. |
| EmbeddingManager.TransactionEmbeddingManager.FindSimilarTransactions | TransactionPage/TransactionEmbeddingManager.swift:59-74 | With the 0.7 default threshold, the loop returns `[]` when the query cannot be embedded. Otherwise it returns exactly the input strings that can be embedded and score at least the threshold. The loop invariant shows it appends them in input order. |
| EmbeddingManager.TransactionEmbeddingManager.SimilarToIsSubsequence | TransactionPage/TransactionEmbeddingManager.swift:62-73 | The search result is a subsequence of the input strings. |
| EmbeddingManager.TransactionEmbeddingManager.RaisingThresholdNarrows | TransactionPage/TransactionEmbeddingManager.swift:67 | A higher threshold keeps, in order, a subset of what a lower one keeps. |
| TransactionsModel.FormattedDateReadsDateOnly | TransactionsSearch/TransactionsModel.swift:31-35 | `formattedDate()` reads only the date. Two transactions on the same date format alike, whatever their other fields. |
| TransactionsModel.TransactionEmbeddingManager.constructor | TransactionsSearch/TransactionsModel.swift:84-89 | The word manager holds the word model (absent when it failed to load), the tokenizer and the platform services it is given. |
| EmbeddingManager.TransactionEmbeddingManager.constructor | TransactionPage/TransactionEmbeddingManager.swift:13-18 | The sentence manager holds the sentence model (absent when it failed to load) and the platform services it is given. |
| TransactionsModel.WordVectorsEmptyIff | TransactionsSearch/TransactionsModel.swift:116-123 | No word vector is collected exactly when no token has one. |
| TransactionsModel.WordVectorsCount | TransactionsSearch/TransactionsModel.swift:116-122 | `count` equals the number of tokens that have a word vector. |
| TransactionsModel.SlotBeyondVectors | TransactionsSearch/TransactionsModel.swift:118-120 | A slot at or past the length of every collected vector gets no contribution. |
| TransactionsModel.AverageOfBuffer | TransactionsSearch/TransactionsModel.swift:126-131 | A 300-slot buffer holding each slot's sum divided by the count is the averaged embedding. |
| TransactionsModel.AddInto | TransactionsSearch/TransactionsModel.swift:118-120 | Each slot below min(vector length, 300) gains the `Float` value of that component. All other slots are unchanged. |
| TransactionsModel.DivideAll | TransactionsSearch/TransactionsModel.swift:127-129 | Every slot is divided by the count. |
| TransactionsModel.TransactionEmbeddingManager.GenerateEmbedding | TransactionsSearch/TransactionsModel.swift:92-135 | Tokenizing the cleaned text, accumulating word vectors and dividing gives the averaged embedding. Any result has exactly 300 slots. |
| TransactionsModel.TransactionEmbeddingManager.EmbeddingShape | TransactionsSearch/TransactionsModel.swift:92-135 | It returns nothing without a word model. Otherwise it returns nothing exactly when no token has a vector. Any result has 300 slots: slot i is the sum of the tokens' components at i (for those long enough) divided by the number of tokens with a vector. |
| TransactionsModel.TransactionEmbeddingManager.SingleWord | TransactionsSearch/TransactionsModel.swift:116-131 | When one token has a vector and it has at least 300 components, the embedding is its first 300 components. |
| TransactionsModel.TransactionEmbeddingManager.ShortVectorsLeaveSlotsZero | TransactionsSearch/TransactionsModel.swift:113-121 | A slot that no collected vector reaches stays 0. |
| TransactionsModel.TransactionEmbeddingManager.CosineSimilarity | TransactionsSearch/TransactionsModel.swift:138-157 | The duplicate similarity has the same value and guards as the sentence manager's. |
| TransactionsModel.ComputeEmbedding | TransactionsSearch/TransactionsModel.swift:37-39 | Only `embeddingVector` changes, and it becomes the embedding of the title. |
| Ranking.InsertByScore | TransactionsSearch/FilterViewModel.swift:98 | Inserting into a list sorted by descending score keeps it sorted, and adds exactly that pair. |
| Ranking.SortByScore | TransactionsSearch/FilterViewModel.swift:98 | It returns a permutation of the pairs, sorted by descending score. |
| Ranking.AboveThresholdIsQualifying | TransactionsSearch/FilterViewModel.swift:87-97 | Dropping transactions without an embedding, then keeping pairs at or above the threshold, selects in order the transactions whose embedding scores at least the threshold. |
| Ranking.RankSpec | TransactionsSearch/FilterViewModel.swift:85-100 | The ranked list has only candidates with an embedding scoring at least the threshold, in order of descending score. It is a permutation of all such candidates. |
| Ranking.RankEmptyIff | TransactionsSearch/FilterViewModel.swift:87-100 | The ranking is empty exactly when no candidate qualifies. |
| Search.StructuredFilterSpec | TransactionsSearch/FilterViewModel.swift:46-61 | The structured filter keeps, in stored order, exactly the stored transactions that pass all five clauses, and every stored copy of each. The day is between the start of the start date and 23:59:59 on the end date. The amount is within the bounds. The type is "all" or equal. Cheques-only is off or the transaction is a cheque. No category is selected, or one of the transaction's categories is selected. |
| Search.UnreadableMinAmountIsNoBound | TransactionsSearch/FilterViewModel.swift:42 | A minimum amount field that does not parse filters exactly like an empty one, whatever the other fields hold, so "abc" behaves like "". |
| Search.UnreadableMaxAmountIsNoBound | TransactionsSearch/FilterViewModel.swift:43 | A maximum amount field that does not parse filters exactly like an empty one, whatever the other fields hold. |
| Search.TextSearchSpec | TransactionsSearch/FilterViewModel.swift:64-72 | With text search, the list holds, in stored order, exactly the structured matches meeting one of two conditions: the lowercased title contains the lowercased text, or the `%.2f` amount contains the text as typed. Nothing else in the state changes. |
| Search.TextSearchKeepsCopies | TransactionsSearch/FilterViewModel.swift:50-72 | With text search, each transaction appears as many times as it is stored when it passes the structured filter and the text match, and not at all otherwise. |
| Search.SemanticSearchSpec | TransactionsSearch/FilterViewModel.swift:78-106 | The semantic results are empty when the query cannot be embedded. Otherwise they are a permutation of the current items with an embedding scoring at least 0.3, sorted best first, and empty exactly when none qualifies. The list is replaced by them only when semantic search is on and they are not empty. Nothing else changes. |
| Search.SemanticSearchNeverBlanks | TransactionsSearch/FilterViewModel.swift:103-105 | Semantic search never empties a list that was not already empty. |
| Search.SemanticApplyFallsBack | TransactionsSearch/FilterViewModel.swift:64-66 | In semantic mode with a search text, the list is the structured result or the nonempty semantic results. It is the structured result when the query cannot be embedded. It is empty only if the structured result is. |
| Search.ApplyFiltersNarrowsStructured | TransactionsSearch/FilterViewModel.swift:41-75 | The shown list is a sub-multiset of the structured result: neither search adds anything. |
| Search.ApplyFiltersSubMultiset | TransactionsSearch/FilterViewModel.swift:41-75 | The shown list is a sub-multiset of all stored transactions. |
| Search.ApplyFiltersIdempotent | TransactionsSearch/FilterViewModel.swift:41-75 | Applying the filters twice leaves the same state as applying them once. |
| Search.SemanticNarrows | TransactionsSearch/FilterViewModel.swift:87-105 | Semantic search only narrows the list it is given, counted as a multiset. |
| Search.ResetThenApply | TransactionsSearch/FilterViewModel.swift:108-118 | After a reset, when every amount is a finite `Double`, the filters keep exactly the stored transactions from the last thirty days with a selected category (or any category when none is selected). They keep every stored copy of each. The category selection and the search mode survive the reset. |
| Search.AddTestTransactionsSpec | TransactionsSearch/FilterViewModel.swift:121-200 | The old list stays as a prefix. The ten test transactions follow in order, dated now, each with the embedding of its title. The shown list is the whole stored list, and nothing else changes. |
| Search.FilterViewModel.constructor | TransactionsSearch/FilterViewModel.swift:5-26 | It starts with the default criteria: the last thirty days, no amount bounds, all types, semantic mode on. It stores the transactions and shows them all. |
| Search.FilterViewModel.ApplyFilters | TransactionsSearch/FilterViewModel.swift:41-75 | The new state is `AfterApplyFilters` of the old. |
| Search.FilterViewModel.PerformSemanticSearch | TransactionsSearch/FilterViewModel.swift:78-106 | The new state is `AfterSemanticSearch` of the old. |
| Search.FilterViewModel.ResetFilters | TransactionsSearch/FilterViewModel.swift:108-118 | Date, amount, type, cheque and search fields return to their defaults. All transactions are shown and the semantic results are empty. The categories and the search mode are untouched. |
| Search.FilterViewModel.AddTestTransactions | TransactionsSearch/FilterViewModel.swift:121-200 | The loop embeds each test transaction. The new state is `AfterAddTestTransactions` of the old. |
| TransactionsList.ToggleFlipsMembership | TransactionsSearch/TransactionsListScreen.swift:88-92 | A tap flips whether its category is selected and leaves every other category as it was. |
| TransactionsList.ToggleOffKeepsOrder | TransactionsSearch/TransactionsListScreen.swift:89 | Removing deletes every copy of the category and keeps the others, as often as before, in order. |
| TransactionsList.ToggleOnAppends | TransactionsSearch/TransactionsListScreen.swift:91 | Adding puts the category at the end of the selection. |
| TransactionsList.ToggleTwiceRestores | TransactionsSearch/TransactionsListScreen.swift:88-92 | Two taps on a category that was not selected restore the selection. |
| TransactionsList.ToggleCategory | TransactionsSearch/TransactionsListScreen.swift:87-93 | The chip's action toggles the category, then applies the filters. |
| TransactionsList.InsertKey | TransactionsSearch/TransactionsListScreen.swift:155-156 | Adding a key to strictly descending keys keeps them strictly descending, adding that key once. |
| TransactionsList.DateKeys | TransactionsSearch/TransactionsListScreen.swift:155-156 | The section keys are exactly the distinct formatted dates, strictly descending. |
| TransactionsList.GroupByDateSpec | TransactionsSearch/TransactionsListScreen.swift:153-157 | Keys are distinct and descending, and each transaction's date has a section. Every section is nonempty, keeps list order, and holds exactly the copies of the transactions of its date. |
| TransactionsList.SectionsDistinct | TransactionsSearch/TransactionsListScreen.swift:155 | No two sections have the same key. |
| Text.CleanIdempotent | TransactionPage/TransactionEmbeddingManager.swift:24-25 | Cleaning (lowercasing, then trimming white space) a cleaned text changes nothing. |
| Text.ContainsIffOccurs | TransactionsSearch/FilterViewModel.swift:70-71 | `contains` holds exactly when the query occurs at some position of the text. |
| Text.LessTransitive | TransactionsSearch/TransactionsListScreen.swift:156 | The string order used to sort section keys is transitive. |
| Text.LessTotal | TransactionsSearch/TransactionsListScreen.swift:156 | Two distinct strings are ordered one way or the other. |

## Left out

- Views, layout and the Combine debounce sink (TransactionsSearch/FilterViewModel.swift:28-37).
  The sink is timing and scheduling behaviour. The screens' other actions and `onApply` only
  assign fields and call `applyFilters`.
- TransactionsSearch/FilterScreen.swift, TransactionsSearch/ContentView.swift and
  TransactionPage/TransactionsModel.swift are not part of this model. The last one repeats
  `TransactionType`, the `Transaction` struct, `formattedDate` and `computeEmbedding` for the
  other app target.
- The commented-out block in TransactionPage/TransactionEmbeddingManager.swift (lines 79-158).
  It is dead code.
- `UUID` identity, `sampleTransactions` and `print(tokens)`. Transactions are compared by
  value, and multisets keep duplicates apart.
- TransactionsModel.TransactionType: the raw-value labels are left out. Only the type
  picker of the filter screen reads them.
- Similarity.CosineSimilarity: computed over the reals. `Float` rounding, overflow and NaN
  are not modelled. `sqrt` is a parameter, and the zero-magnitude lemmas assume it is a
  square root.
- TransactionsModel.TransactionEmbeddingManager.GenerateEmbedding: the `NLTokenizer` is an
  arbitrary function from the cleaned text to tokens. The 300-slot buffer's sums and the
  division by the count are exact real arithmetic, not `Float` arithmetic, so rounding in the
  buffer is not modelled.
- Text.Lower: lowercases ASCII letters only. Text.Trim uses Unicode's white-space and newline
  characters. Swift's full Unicode case mapping is not modelled.
- Text.Contains: Swift's `contains` compares grapheme clusters (`Character`s). The model
  compares single Unicode scalars, so a match that splits a combined character is not ruled
  out.
- Text.Less: Swift's `>` on `String` is taken as lexicographic order on characters. Unicode
  canonical equivalence is not modelled.
- Search.SemanticSearchSpec: the ranking scores candidates with `Similarity.Cosine`, which
  is what the manager's `cosineSimilarity` method is proved to return. It does not call that
  method once per candidate.
- Ranking.SortByScore: a stable insertion sort stands in for Swift's `sorted`, and only
  sortedness and permutation are claimed. Swift does not document `sorted` as stable, so the
  order of ties is not claimed.
- Search.FilterViewModel.ResetFilters: each operation's `Date()` reads are one instant,
  `now`. This covers the two reads in `init` (the default start and end dates), the two in
  `resetFilters` and the ten in `addTestTransactions`, where all ten test transactions get
  the same date. Dates are whole seconds.
- Search.ResetThenApply: requires every stored amount to lie within
  ±`greatestFiniteMagnitude`, that is, to be a finite `Double`. An infinite amount fails
  the default bounds.
- Search.MinAmountValue: an empty or unreadable bound is ∓`greatestFiniteMagnitude`, the
  exact value 2^1024 − 2^971, as in the code; it is not infinity. `Double(String)` can also
  give NaN or infinity (for "nan" or "inf"). A NaN bound makes every comparison false, so
  Swift then keeps nothing. `Foundation.parseDouble` returns only real numbers, so these
  inputs are not modelled.
