/** The list logic of the transaction screen (TransactionsSearch/TransactionsListScreen.swift):
    the category chips, which add or remove a category from the selection and re-run the
    filters, and the grouping of the shown transactions into sections by formatted date. */
module TransactionsList {
  import opened Sequences
  import opened Platform
  import opened Text
  import opened TransactionsModel
  import opened Search

  /** The chips the screen offers. */
  const Categories: seq<string> :=
    ["Shopping", "Food & Drink", "Income", "Health", "Subscription", "Bills", "Entertainment", "Transportation"]

  function Other(category: string): string -> bool {
    c => c != category
  }

  /** The selection after tapping the chip of `category`: every occurrence removed when it was
      selected, appended at the end when it was not. */
  function Toggled(selected: seq<string>, category: string): seq<string> {
    if category in selected then Filter(Other(category), selected) else selected + [category]
  }

  /** A tap flips the membership of its category and of no other. */
  lemma ToggleFlipsMembership(selected: seq<string>, category: string)
    ensures category in Toggled(selected, category) <==> category !in selected
    ensures forall c :: c != category ==> (c in Toggled(selected, category) <==> c in selected)
  {
  }

  /** Removing keeps the other categories, each as often as before, in their order. */
  lemma ToggleOffKeepsOrder(selected: seq<string>, category: string)
    requires category in selected
    ensures IsSubsequence(Toggled(selected, category), selected)
    ensures forall c :: multiset(Toggled(selected, category))[c] == if c == category then 0 else multiset(selected)[c]
  {
    FilterIsSubsequence(Other(category), selected);
    forall c
      ensures multiset(Toggled(selected, category))[c] == if c == category then 0 else multiset(selected)[c]
    {
      FilterMultiplicity(Other(category), selected, c);
    }
  }

  /** Adding puts the category after everything already selected. */
  lemma ToggleOnAppends(selected: seq<string>, category: string)
    requires category !in selected
    ensures var r := Toggled(selected, category);
      |r| == |selected| + 1 && r[..|selected|] == selected && r[|selected|] == category
  {
  }

  /** Tapping a chip twice, starting from a selection without it, restores the selection. */
  lemma ToggleTwiceRestores(selected: seq<string>, category: string)
    requires category !in selected
    ensures Toggled(Toggled(selected, category), category) == selected
  {
    FilterAppend(Other(category), selected, [category]);
    FilterKeepsAll(Other(category), selected);
    assert Filter(Other(category), [category]) == [];
  }

  /** The chip's action: toggle the category, then apply the filters. */
  method ToggleCategory(viewModel: FilterViewModel, category: string)
    modifies viewModel
    ensures viewModel.State() == AfterApplyFilters(viewModel.foundation, viewModel.manager,
      old(viewModel.State()).(selectedCategories := Toggled(old(viewModel.selectedCategories), category)))
  {
    if category in viewModel.selectedCategories {
      viewModel.selectedCategories := Filter(Other(category), viewModel.selectedCategories);
    } else {
      viewModel.selectedCategories := viewModel.selectedCategories + [category];
    }
    viewModel.ApplyFilters();
  }

  /** Section keys in the order `sorted { $0.key > $1.key }` gives: each one after keys that
      compare greater. */
  ghost predicate StrictlyDescending(keys: seq<string>) {
    forall i, j :: 0 <= i < j < |keys| ==> Less(keys[j], keys[i])
  }

  /** Put `key` among strictly descending keys, unless it is there already. */
  function InsertKey(key: string, keys: seq<string>): (r: seq<string>)
    requires StrictlyDescending(keys)
    ensures StrictlyDescending(r)
    ensures forall k :: k in r <==> k in keys || k == key
  {
    if keys == [] then [key]
    else if key == keys[0] then keys
    else if Less(keys[0], key) then
      PrependGreater(key, keys);
      [key] + keys
    else
      LessTotal(key, keys[0]);
      var rest := InsertKey(key, keys[1..]);
      assert forall k :: k in keys[1..] ==> Less(k, keys[0]) by {
        forall i | 0 <= i < |keys[1..]| ensures Less(keys[1..][i], keys[0]) {
          assert keys[1..][i] == keys[i + 1];
        }
      }
      assert rest != [] ==> rest[0] in rest;
      PrependGreater(keys[0], rest);
      [keys[0]] + rest
  }

  lemma PrependGreater(key: string, keys: seq<string>)
    requires StrictlyDescending(keys)
    requires keys == [] || Less(keys[0], key)
    ensures StrictlyDescending([key] + keys)
  {
    forall j | 1 < j < |[key] + keys|
      ensures Less(([key] + keys)[j], key)
    {
      LessTransitive(keys[j - 1], keys[0], key);
    }
  }

  /** The distinct formatted dates of `ts`. */
  function Dates(f: Foundation, ts: seq<Transaction>): set<string> {
    set t | t in ts :: FormattedDate(f, t)
  }

  /** The distinct formatted dates of `ts`, greatest first. */
  function DateKeys(f: Foundation, ts: seq<Transaction>): (r: seq<string>)
    ensures StrictlyDescending(r)
    ensures forall k :: k in r <==> k in Dates(f, ts)
  {
    if ts == [] then []
    else
      assert Dates(f, ts) == Dates(f, ts[1..]) + {FormattedDate(f, ts[0])} by {
        assert ts == [ts[0]] + ts[1..];
      }
      InsertKey(FormattedDate(f, ts[0]), DateKeys(f, ts[1..]))
  }

  function OnDate(f: Foundation, key: string): Transaction -> bool {
    t => FormattedDate(f, t) == key
  }

  /** `groupTransactionsByDate()`: one section per formatted date, sections in descending key
      order, each holding the transactions of its date in their list order. */
  function GroupByDate(f: Foundation, ts: seq<Transaction>): seq<(string, seq<Transaction>)> {
    var keys := DateKeys(f, ts);
    seq(|keys|, i requires 0 <= i < |keys| => (keys[i], Filter(OnDate(f, keys[i]), ts)))
  }

  /** The sections partition the list: keys are distinct and descending, every transaction
      has the section of its date, every section is non-empty and holds exactly the copies of
      the transactions of its date, in list order. */
  lemma GroupByDateSpec(f: Foundation, ts: seq<Transaction>)
    ensures var g := GroupByDate(f, ts);
      && (forall i, j :: 0 <= i < j < |g| ==> Less(g[j].0, g[i].0))
      && (forall t :: t in ts ==> exists i :: 0 <= i < |g| && g[i].0 == FormattedDate(f, t))
      && (forall i :: 0 <= i < |g| ==> g[i].1 != [] && IsSubsequence(g[i].1, ts))
      && (forall i, t :: 0 <= i < |g| ==>
            multiset(g[i].1)[t] == if FormattedDate(f, t) == g[i].0 then multiset(ts)[t] else 0)
  {
    var keys := DateKeys(f, ts);
    var g := GroupByDate(f, ts);
    forall t | t in ts
      ensures exists i :: 0 <= i < |g| && g[i].0 == FormattedDate(f, t)
    {
      assert FormattedDate(f, t) in Dates(f, ts);
      var i :| 0 <= i < |keys| && keys[i] == FormattedDate(f, t);
      assert g[i].0 == keys[i];
    }
    forall i | 0 <= i < |g|
      ensures g[i].1 != [] && IsSubsequence(g[i].1, ts)
    {
      FilterIsSubsequence(OnDate(f, keys[i]), ts);
      assert keys[i] in Dates(f, ts);
      var t :| t in ts && FormattedDate(f, t) == keys[i];
      assert t in g[i].1;
    }
    forall i, t | 0 <= i < |g|
      ensures multiset(g[i].1)[t] == if FormattedDate(f, t) == g[i].0 then multiset(ts)[t] else 0
    {
      FilterMultiplicity(OnDate(f, keys[i]), ts, t);
    }
  }

  /** No two sections share a key, so the section of a transaction's date is its only one. */
  lemma SectionsDistinct(f: Foundation, ts: seq<Transaction>, i: nat, j: nat)
    requires i < j < |GroupByDate(f, ts)|
    ensures GroupByDate(f, ts)[i].0 != GroupByDate(f, ts)[j].0
  {
    GroupByDateSpec(f, ts);
    var g := GroupByDate(f, ts);
    if g[i].0 == g[j].0 {
      LessIrreflexive(g[i].0);
    }
  }
}
