/** The filter engine behind the transaction search screen
    (TransactionsSearch/FilterViewModel.swift): the structured filter over all transactions,
    the plain-text and the semantic narrowing of its result, and the reset and test-data
    operations. Each operation is a method of `FilterViewModel` whose effect is stated by a
    function on `FilterState`, the values of its fields; the lemmas are about those functions. */
module Search {
  import opened Optional
  import opened Sequences
  import opened Platform
  import opened Text
  import opened TransactionsModel
  import opened Ranking

  /** The score a transaction needs to count as a semantic match. */
  const SimilarityThreshold: real := 0.3

  /** `Double.greatestFiniteMagnitude`, exactly (2^1024 - 2^971): the bound an empty or
      unreadable amount field stands for. */
  const GreatestFiniteMagnitude: real :=
    179769313486231570814527423731704356798070567525844996598917476803157260780028538760589558632766878171540458953514382464234321326889464182768467546703537516986049910576551282076245490090389328944075868508455133942304583236903222948165808559332123348274797826204144723168738177180919299881250404026184124858368.0

  /** The published fields of the view model, and the list it filters. */
  datatype FilterState = FilterState(
    startDate: Date,
    endDate: Date,
    minAmount: string,
    maxAmount: string,
    selectedTransactionType: TransactionType,
    chequesOnly: bool,
    searchText: string,
    isSemanticSearchEnabled: bool,
    filteredTransactions: seq<Transaction>,
    semanticResults: seq<Transaction>,
    selectedCategories: seq<string>,
    allTransactions: seq<Transaction>)

  /** The lower amount bound: an empty field, or one that does not parse, puts no bound. */
  function MinAmountValue(f: Foundation, minAmount: string): real {
    if minAmount == [] then -GreatestFiniteMagnitude else f.parseDouble(minAmount).GetOr(-GreatestFiniteMagnitude)
  }

  function MaxAmountValue(f: Foundation, maxAmount: string): real {
    if maxAmount == [] then GreatestFiniteMagnitude else f.parseDouble(maxAmount).GetOr(GreatestFiniteMagnitude)
  }

  /** 23:59:59 on the end date, or the end date itself when the calendar cannot say. */
  function EndOfDay(f: Foundation, endDate: Date): Date {
    f.endOfDay(endDate).GetOr(endDate)
  }

  predicate MatchesCategory(selected: seq<string>, t: Transaction) {
    selected == [] || Filter((c: string) => c in selected, t.category) != []
  }

  /** The five clauses of the structured filter. */
  predicate Matches(f: Foundation, s: FilterState, t: Transaction) {
    var transactionDate := f.startOfDay(t.date);
    && transactionDate >= f.startOfDay(s.startDate) && transactionDate <= EndOfDay(f, s.endDate)
    && t.amount >= MinAmountValue(f, s.minAmount) && t.amount <= MaxAmountValue(f, s.maxAmount)
    && (s.selectedTransactionType == All || t.transactionType == s.selectedTransactionType)
    && (!s.chequesOnly || t.isCheque)
    && MatchesCategory(s.selectedCategories, t)
  }

  function MatchesFor(f: Foundation, s: FilterState): Transaction -> bool {
    t => Matches(f, s, t)
  }

  function StructuredFilter(f: Foundation, s: FilterState): seq<Transaction> {
    Filter(MatchesFor(f, s), s.allTransactions)
  }

  /** The plain-text match: the title ignoring case, or the two-decimal amount text as typed. */
  predicate TextMatches(f: Foundation, searchText: string, t: Transaction) {
    Contains(Lower(t.title), Lower(searchText)) || Contains(f.formatAmount(t.amount), searchText)
  }

  function TextMatchesFor(f: Foundation, searchText: string): Transaction -> bool {
    t => TextMatches(f, searchText, t)
  }

  /** The state after `performSemanticSearch(query:)`, which ranks the current result. */
  function AfterSemanticSearch(manager: TransactionEmbeddingManager, s: FilterState, query: string): FilterState {
    match manager.Embedding(query)
    case None => s.(semanticResults := [])
    case Some(q) =>
      var results := Rank(manager.foundation.sqrt, q, s.filteredTransactions, SimilarityThreshold);
      if s.isSemanticSearchEnabled && results != [] then
        s.(semanticResults := results, filteredTransactions := results)
      else
        s.(semanticResults := results)
  }

  /** The state after `applyFilters()`. */
  function AfterApplyFilters(f: Foundation, manager: TransactionEmbeddingManager, s: FilterState): FilterState {
    var structured := s.(filteredTransactions := StructuredFilter(f, s));
    if s.searchText == [] then structured
    else if s.isSemanticSearchEnabled then AfterSemanticSearch(manager, structured, s.searchText)
    else structured.(filteredTransactions := Filter(TextMatchesFor(f, s.searchText), structured.filteredTransactions))
  }

  /** The start of the default date range: thirty days before `now`, or `now` itself. */
  function DefaultStartDate(f: Foundation, now: Date): Date {
    f.addingDays(-30, now).GetOr(now)
  }

  /** The state after `resetFilters()` at the instant `now`. */
  function AfterResetFilters(f: Foundation, now: Date, s: FilterState): FilterState {
    s.(startDate := DefaultStartDate(f, now), endDate := now, minAmount := "", maxAmount := "",
       selectedTransactionType := All, chequesOnly := false, searchText := "",
       filteredTransactions := s.allTransactions, semanticResults := [])
  }

  /** The ten transactions `addTestTransactions()` creates, dated `now`, without embeddings. */
  function TestTransactions(now: Date): seq<Transaction> {
    [ Transaction(now, "Grocery shopping at Safeway", Withdrawal, -84.72, false, None, ["Groceries", "Shopping"]),
      Transaction(now, "Monthly rent payment", Withdrawal, -1200.00, false, None, ["Housing", "Bills"]),
      Transaction(now, "Salary deposit", Deposit, 2800.00, false, None, ["Income", "Salary"]),
      Transaction(now, "Coffee shop purchase", Withdrawal, -4.50, false, None, ["Food & Drink", "Coffee"]),
      Transaction(now, "Restaurant dinner with friends", Withdrawal, -82.35, false, None, ["Food & Drink", "Dining Out"]),
      Transaction(now, "Gas station fill up", Withdrawal, -48.75, false, None, ["Transportation", "Gas"]),
      Transaction(now, "Phone bill payment", Withdrawal, -85.00, false, None, ["Bills", "Utilities"]),
      Transaction(now, "Amazon purchase", Withdrawal, -37.99, false, None, ["Shopping", "Online"]),
      Transaction(now, "Movie theater tickets", Withdrawal, -24.50, false, None, ["Entertainment", "Leisure"]),
      Transaction(now, "Gym membership fee", Withdrawal, -50.00, false, None, ["Health", "Subscription"]) ]
  }

  /** Each transaction with its embedding computed from its title. */
  function Embedded(manager: TransactionEmbeddingManager, ts: seq<Transaction>): (r: seq<Transaction>)
    ensures |r| == |ts|
  {
    seq(|ts|, k requires 0 <= k < |ts| => ts[k].(embeddingVector := manager.Embedding(ts[k].title)))
  }

  /** The state after `addTestTransactions()` at the instant `now`. */
  function AfterAddTestTransactions(manager: TransactionEmbeddingManager, now: Date, s: FilterState): FilterState {
    var all := s.allTransactions + Embedded(manager, TestTransactions(now));
    s.(allTransactions := all, filteredTransactions := all)
  }

  /** The structured filter keeps, in their original order, exactly the stored transactions
      that satisfy all five clauses, every copy of them. */
  lemma StructuredFilterSpec(f: Foundation, s: FilterState)
    ensures IsSubsequence(StructuredFilter(f, s), s.allTransactions)
    ensures forall t :: t in StructuredFilter(f, s) <==>
      && t in s.allTransactions
      && f.startOfDay(s.startDate) <= f.startOfDay(t.date) <= EndOfDay(f, s.endDate)
      && MinAmountValue(f, s.minAmount) <= t.amount <= MaxAmountValue(f, s.maxAmount)
      && (s.selectedTransactionType == All || t.transactionType == s.selectedTransactionType)
      && (!s.chequesOnly || t.isCheque)
      && (s.selectedCategories == [] || exists c :: c in t.category && c in s.selectedCategories)
    ensures forall t :: multiset(StructuredFilter(f, s))[t] == if Matches(f, s, t) then multiset(s.allTransactions)[t] else 0
  {
    FilterIsSubsequence(MatchesFor(f, s), s.allTransactions);
    forall t: Transaction
      ensures multiset(StructuredFilter(f, s))[t] == if Matches(f, s, t) then multiset(s.allTransactions)[t] else 0
    {
      FilterMultiplicity(MatchesFor(f, s), s.allTransactions, t);
    }
    forall t: Transaction
      ensures MatchesCategory(s.selectedCategories, t)
          <==> s.selectedCategories == [] || exists c :: c in t.category && c in s.selectedCategories
    {
      var shared := Filter((c: string) => c in s.selectedCategories, t.category);
      if shared != [] {
        assert shared[0] in shared;
      }
    }
  }

  /** A minimum amount that does not parse puts no bound, just like an empty one. */
  lemma UnreadableMinAmountIsNoBound(f: Foundation, s: FilterState, text: string)
    requires f.parseDouble(text).None?
    ensures StructuredFilter(f, s.(minAmount := text)) == StructuredFilter(f, s.(minAmount := ""))
  {
    FilterCongruent(MatchesFor(f, s.(minAmount := text)), MatchesFor(f, s.(minAmount := "")), s.allTransactions);
  }

  /** A maximum amount that does not parse puts no bound, just like an empty one. */
  lemma UnreadableMaxAmountIsNoBound(f: Foundation, s: FilterState, text: string)
    requires f.parseDouble(text).None?
    ensures StructuredFilter(f, s.(maxAmount := text)) == StructuredFilter(f, s.(maxAmount := ""))
  {
    FilterCongruent(MatchesFor(f, s.(maxAmount := text)), MatchesFor(f, s.(maxAmount := "")), s.allTransactions);
  }

  /** With semantic search off, a non-empty search text keeps, in order and every copy,
      exactly the structured matches whose lowercased title contains the lowercased text or whose two-decimal amount
      contains the text as typed; the semantic results are left alone. */
  lemma TextSearchSpec(f: Foundation, manager: TransactionEmbeddingManager, s: FilterState)
    requires s.searchText != [] && !s.isSemanticSearchEnabled
    ensures var r := AfterApplyFilters(f, manager, s);
      && r == s.(filteredTransactions := r.filteredTransactions)
      && IsSubsequence(r.filteredTransactions, s.allTransactions)
      && forall t :: t in r.filteredTransactions <==>
           && t in s.allTransactions && Matches(f, s, t)
           && (Contains(Lower(t.title), Lower(s.searchText)) || Contains(f.formatAmount(t.amount), s.searchText))
  {
    var matches, text := MatchesFor(f, s), TextMatchesFor(f, s.searchText);
    FilterFilter(matches, text, s.allTransactions);
    FilterIsSubsequence(Both(matches, text), s.allTransactions);
  }

  /** Text search keeps every stored copy of each transaction it keeps. */
  lemma TextSearchKeepsCopies(f: Foundation, manager: TransactionEmbeddingManager, s: FilterState, t: Transaction)
    requires s.searchText != [] && !s.isSemanticSearchEnabled
    ensures multiset(AfterApplyFilters(f, manager, s).filteredTransactions)[t]
         == if Matches(f, s, t) && TextMatches(f, s.searchText, t) then multiset(s.allTransactions)[t] else 0
  {
    var matches, text := MatchesFor(f, s), TextMatchesFor(f, s.searchText);
    FilterFilter(matches, text, s.allTransactions);
    FilterMultiplicity(Both(matches, text), s.allTransactions, t);
  }

  /** `performSemanticSearch`: the semantic results are exactly the current results that have an
      embedding scoring at least 0.3 against the query (a permutation of them), best first, and
      none when the query cannot be embedded; the current results are replaced by them only
      when semantic search is on and they are not empty; nothing else changes. */
  lemma SemanticSearchSpec(manager: TransactionEmbeddingManager, s: FilterState, query: string)
    ensures var r := AfterSemanticSearch(manager, s, query);
      && r.(semanticResults := s.semanticResults, filteredTransactions := s.filteredTransactions) == s
      && (manager.Embedding(query).None? ==> r.semanticResults == [])
      && (manager.Embedding(query).Some? ==>
            var q := manager.Embedding(query).value;
            && (forall i :: 0 <= i < |r.semanticResults| ==>
                  Qualifies(manager.foundation.sqrt, q, SimilarityThreshold, r.semanticResults[i]))
            && (forall i, j :: 0 <= i < j < |r.semanticResults| ==>
                  r.semanticResults[i].embeddingVector.Some? && r.semanticResults[j].embeddingVector.Some?
                  && Score(manager.foundation.sqrt, q, r.semanticResults[i]) >= Score(manager.foundation.sqrt, q, r.semanticResults[j]))
            && multiset(r.semanticResults)
               == multiset(Filter(QualifiesFor(manager.foundation.sqrt, q, SimilarityThreshold), s.filteredTransactions))
            && (r.semanticResults == [] <==>
                  forall t :: t in s.filteredTransactions ==> !Qualifies(manager.foundation.sqrt, q, SimilarityThreshold, t)))
      && r.filteredTransactions
         == if s.isSemanticSearchEnabled && r.semanticResults != [] then r.semanticResults else s.filteredTransactions
  {
    if manager.Embedding(query).Some? {
      var q := manager.Embedding(query).value;
      RankSpec(manager.foundation.sqrt, q, s.filteredTransactions, SimilarityThreshold);
      RankEmptyIff(manager.foundation.sqrt, q, s.filteredTransactions, SimilarityThreshold);
    }
  }

  /** The fallback: semantic search never empties a list that was not already empty. */
  lemma SemanticSearchNeverBlanks(manager: TransactionEmbeddingManager, s: FilterState, query: string)
    ensures var r := AfterSemanticSearch(manager, s, query);
      r.filteredTransactions == [] ==> s.filteredTransactions == []
  {
  }

  /** After `applyFilters` the list never holds more copies of a transaction than are stored. */
  lemma ApplyFiltersSubMultiset(f: Foundation, manager: TransactionEmbeddingManager, s: FilterState)
    ensures multiset(AfterApplyFilters(f, manager, s).filteredTransactions) <= multiset(s.allTransactions)
  {
    ApplyFiltersNarrowsStructured(f, manager, s);
  }

  /** After `applyFilters` the list holds only transactions the structured filter keeps, and
      no more copies of one than it keeps: neither search adds anything. */
  lemma ApplyFiltersNarrowsStructured(f: Foundation, manager: TransactionEmbeddingManager, s: FilterState)
    ensures multiset(AfterApplyFilters(f, manager, s).filteredTransactions) <= multiset(StructuredFilter(f, s))
  {
    var structured := StructuredFilter(f, s);
    if s.searchText != [] {
      if s.isSemanticSearchEnabled {
        SemanticNarrows(manager, s.(filteredTransactions := structured), s.searchText);
      } else {
        assert AfterApplyFilters(f, manager, s).filteredTransactions == Filter(TextMatchesFor(f, s.searchText), structured);
      }
    }
  }

  /** Semantic search only ever narrows the list it is given, as a multiset. */
  lemma SemanticNarrows(manager: TransactionEmbeddingManager, s: FilterState, query: string)
    ensures multiset(AfterSemanticSearch(manager, s, query).filteredTransactions) <= multiset(s.filteredTransactions)
  {
    match manager.Embedding(query)
    case None =>
    case Some(q) =>
      RankSpec(manager.foundation.sqrt, q, s.filteredTransactions, SimilarityThreshold);
  }

  /** `applyFilters` recomputes from all transactions, so a second call changes nothing. */
  lemma ApplyFiltersIdempotent(f: Foundation, manager: TransactionEmbeddingManager, s: FilterState)
    ensures AfterApplyFilters(f, manager, AfterApplyFilters(f, manager, s)) == AfterApplyFilters(f, manager, s)
  {
    var r := AfterApplyFilters(f, manager, s);
    assert r.(filteredTransactions := s.filteredTransactions, semanticResults := s.semanticResults) == s;
    FilterCongruent(MatchesFor(f, r), MatchesFor(f, s), s.allTransactions);
  }

  /** With semantic search on and a search text typed, the list is either the structured result
      or the ranked semantic results, and it is empty only when the structured result is. */
  lemma SemanticApplyFallsBack(f: Foundation, manager: TransactionEmbeddingManager, s: FilterState)
    requires s.searchText != [] && s.isSemanticSearchEnabled
    ensures var r := AfterApplyFilters(f, manager, s);
      && (r.filteredTransactions == StructuredFilter(f, s)
          || (r.filteredTransactions == r.semanticResults && r.semanticResults != []))
      && (manager.Embedding(s.searchText).None? ==>
            r.filteredTransactions == StructuredFilter(f, s) && r.semanticResults == [])
      && (r.filteredTransactions == [] ==> StructuredFilter(f, s) == [])
  {
  }

  /** After a reset, applying the filters leaves every copy of every stored transaction whose
      day lies in the last thirty days and that has a selected category (or any, when none is
      selected); the amount bounds then admit every finite amount. */
  lemma ResetThenApply(f: Foundation, manager: TransactionEmbeddingManager, now: Date, s: FilterState)
    requires forall t :: t in s.allTransactions ==> -GreatestFiniteMagnitude <= t.amount <= GreatestFiniteMagnitude
    ensures var r := AfterApplyFilters(f, manager, AfterResetFilters(f, now, s));
      && r.semanticResults == []
      && r.selectedCategories == s.selectedCategories
      && r.isSemanticSearchEnabled == s.isSemanticSearchEnabled
      && forall t :: t in r.filteredTransactions <==>
           && t in s.allTransactions
           && f.startOfDay(DefaultStartDate(f, now)) <= f.startOfDay(t.date) <= EndOfDay(f, now)
           && MatchesCategory(s.selectedCategories, t)
    ensures forall t :: (multiset(AfterApplyFilters(f, manager, AfterResetFilters(f, now, s)).filteredTransactions)[t]
      == if f.startOfDay(DefaultStartDate(f, now)) <= f.startOfDay(t.date) <= EndOfDay(f, now)
            && MatchesCategory(s.selectedCategories, t)
         then multiset(s.allTransactions)[t] else 0)
  {
    var reset := AfterResetFilters(f, now, s);
    forall t: Transaction
      ensures multiset(StructuredFilter(f, reset))[t]
        == if f.startOfDay(DefaultStartDate(f, now)) <= f.startOfDay(t.date) <= EndOfDay(f, now)
              && MatchesCategory(s.selectedCategories, t)
           then multiset(s.allTransactions)[t] else 0
    {
      FilterMultiplicity(MatchesFor(f, reset), s.allTransactions, t);
      if t !in s.allTransactions {
        assert multiset(s.allTransactions)[t] == 0;
      }
    }
  }

  /** `addTestTransactions` keeps the stored transactions as a prefix, appends the ten test
      transactions in order, each with the embedding of its title, and shows them all. */
  lemma AddTestTransactionsSpec(manager: TransactionEmbeddingManager, now: Date, s: FilterState)
    ensures var r := AfterAddTestTransactions(manager, now, s);
      && r.(allTransactions := s.allTransactions, filteredTransactions := s.filteredTransactions) == s
      && |r.allTransactions| == |s.allTransactions| + 10
      && r.allTransactions[..|s.allTransactions|] == s.allTransactions
      && r.filteredTransactions == r.allTransactions
      && forall i :: 0 <= i < 10 ==>
           var added := r.allTransactions[|s.allTransactions| + i];
           && added.date == now && added.embeddingVector == manager.Embedding(added.title)
           && added.(embeddingVector := None) == TestTransactions(now)[i]
  {
  }

  class FilterViewModel {
    var startDate: Date
    var endDate: Date
    var minAmount: string
    var maxAmount: string
    var selectedTransactionType: TransactionType
    var chequesOnly: bool
    var searchText: string
    var isSemanticSearchEnabled: bool
    var filteredTransactions: seq<Transaction>
    var semanticResults: seq<Transaction>
    var selectedCategories: seq<string>
    var allTransactions: seq<Transaction>
    /** The calendar, parser and formatters of the device. */
    const foundation: Foundation
    /** `TransactionEmbeddingManager.shared` */
    const manager: TransactionEmbeddingManager

    function State(): FilterState
      reads this
    {
      FilterState(startDate, endDate, minAmount, maxAmount, selectedTransactionType, chequesOnly,
                  searchText, isSemanticSearchEnabled, filteredTransactions, semanticResults,
                  selectedCategories, allTransactions)
    }

    /** `init(transactions:)` at the instant `now`: default criteria, nothing filtered out. */
    constructor (foundation: Foundation, manager: TransactionEmbeddingManager, now: Date, transactions: seq<Transaction>)
      ensures this.foundation == foundation && this.manager == manager
      ensures State() == FilterState(DefaultStartDate(foundation, now), now, "", "", All, false, "", true,
                                     transactions, [], [], transactions)
    {
      this.foundation := foundation;
      this.manager := manager;
      startDate := DefaultStartDate(foundation, now);
      endDate := now;
      minAmount := "";
      maxAmount := "";
      selectedTransactionType := All;
      chequesOnly := false;
      searchText := "";
      isSemanticSearchEnabled := true;
      semanticResults := [];
      selectedCategories := [];
      allTransactions := transactions;
      filteredTransactions := transactions;
    }

    method ApplyFilters()
      modifies this
      ensures State() == AfterApplyFilters(foundation, manager, old(State()))
    {
      filteredTransactions := StructuredFilter(foundation, State());
      if searchText != [] {
        if isSemanticSearchEnabled {
          PerformSemanticSearch(searchText);
        } else {
          filteredTransactions := Filter(TextMatchesFor(foundation, searchText), filteredTransactions);
        }
      }
    }

    method PerformSemanticSearch(query: string)
      modifies this
      ensures State() == AfterSemanticSearch(manager, old(State()), query)
    {
      var queryEmbedding := manager.GenerateEmbedding(query);
      match queryEmbedding {
        case None =>
          semanticResults := [];
        case Some(q) =>
          semanticResults := Rank(manager.foundation.sqrt, q, filteredTransactions, SimilarityThreshold);
          if isSemanticSearchEnabled && semanticResults != [] {
            filteredTransactions := semanticResults;
          }
      }
    }

    method ResetFilters(now: Date)
      modifies this
      ensures State() == AfterResetFilters(foundation, now, old(State()))
    {
      startDate := DefaultStartDate(foundation, now);
      endDate := now;
      minAmount := "";
      maxAmount := "";
      selectedTransactionType := All;
      chequesOnly := false;
      searchText := "";
      filteredTransactions := allTransactions;
      semanticResults := [];
    }

    method AddTestTransactions(now: Date)
      modifies this
      ensures State() == AfterAddTestTransactions(manager, now, old(State()))
    {
      var additionalTransactions := TestTransactions(now);
      var transactions: seq<Transaction> := [];
      for i := 0 to |additionalTransactions|
        invariant transactions == Embedded(manager, additionalTransactions[..i])
        invariant State() == old(State())
      {
        var t := ComputeEmbedding(manager, additionalTransactions[i]);
        assert additionalTransactions[..i + 1] == additionalTransactions[..i] + [additionalTransactions[i]];
        transactions := transactions + [t];
      }
      assert additionalTransactions[..|additionalTransactions|] == additionalTransactions;
      allTransactions := allTransactions + transactions;
      filteredTransactions := allTransactions;
    }
  }
}
