/**
 * The transaction log table of the cash-register screen: an optional filter on payment
 * methods, toggled one method at a time.
 */
module TransactionLogTable {
  import opened Lists
  import opened OperationsData

  /** The transactions shown: all of them when no method is selected, else those whose method is selected. */
  function FilteredTransactions(transactions: seq<Transaction>, methodFilter: seq<string>): (r: seq<Transaction>)
    ensures methodFilter == [] ==> r == transactions
    ensures methodFilter != [] ==>
              (forall t :: t in r <==> t in transactions && t.paymentMethod in methodFilter)
    ensures methodFilter != [] ==>
              (forall t :: multiset(r)[t] == if t.paymentMethod in methodFilter then multiset(transactions)[t] else 0)
    ensures IsSubsequence(r, transactions)
  {
    if |methodFilter| > 0 then Filter(transactions, (t: Transaction) => t.paymentMethod in methodFilter)
    else
      FilterKeepsAll(transactions, (t: Transaction) => true);
      transactions
  }

  /** The keys of the filter menu: `cash`, `yape`, `plin`, `card`. */
  const MenuKeys := ["cash", "yape", "plin", "card"]

  /** The methods the ledger writes into its transactions. */
  const LedgerMethods := ["EFECTIVO", "YAPE", "PLIN", "TARJETA"]

  /**
   * The menu keys are lower case and the ledger's methods upper case, so a selection made
   * from the menu shows none of the ledger's transactions.
   */
  lemma MenuSelectionShowsNoLedgerEntry(transactions: seq<Transaction>, methodFilter: seq<string>)
    requires methodFilter != [] && forall m :: m in methodFilter ==> m in MenuKeys
    requires forall t :: t in transactions ==> t.paymentMethod in LedgerMethods
    ensures FilteredTransactions(transactions, methodFilter) == []
  {
    forall t | t in transactions ensures t.paymentMethod !in methodFilter {
      if t.paymentMethod in methodFilter {
        KeyIsNoMethod(t.paymentMethod);
      }
    }
    var r := FilteredTransactions(transactions, methodFilter);
    if r != [] {
      assert r[0] in r;
    }
  }

  /** No menu key is a ledger method: their first letters differ in case. */
  lemma KeyIsNoMethod(key: string)
    requires key in MenuKeys
    ensures key !in LedgerMethods
  {
    assert 'a' <= key[0] <= 'z';
    forall m | m in LedgerMethods ensures m[0] != key[0] {
      assert 'A' <= m[0] <= 'Z';
    }
  }

  /** `toggleFilter`: a selected method is removed, an unselected one is appended. */
  function ToggleFilter(methodFilter: seq<string>, method': string): (r: seq<string>)
    ensures method' in methodFilter ==> method' !in r && IsSubsequence(r, methodFilter)
    ensures method' in methodFilter ==>
              forall m :: m != method' ==> multiset(r)[m] == multiset(methodFilter)[m]
    ensures method' !in methodFilter ==> r == methodFilter + [method']
    ensures forall m :: m != method' ==> (m in r <==> m in methodFilter)
  {
    if method' in methodFilter then Filter(methodFilter, m => m != method')
    else methodFilter + [method']
  }

  /** Toggling an unselected method twice gives the original filter back. */
  lemma ToggleTwiceRestores(methodFilter: seq<string>, method': string)
    requires method' !in methodFilter
    ensures ToggleFilter(ToggleFilter(methodFilter, method'), method') == methodFilter
  {
    var keep := (m: string) => m != method';
    FilterAppend(methodFilter, [method'], keep);
    FilterKeepsAll(methodFilter, keep);
    assert Filter([method'], keep) == [];
  }

  /** Toggling keeps the filter free of duplicates. */
  lemma ToggleKeepsNoDuplicates(methodFilter: seq<string>, method': string)
    requires NoDuplicates(methodFilter)
    ensures NoDuplicates(ToggleFilter(methodFilter, method'))
  {
    if method' in methodFilter {
      FilterNoDuplicates(methodFilter, m => m != method');
    } else {
      var r := methodFilter + [method'];
      forall i, j | 0 <= i < j < |r| ensures r[i] != r[j] {
        if j == |methodFilter| {
          assert r[i] == methodFilter[i];
        }
      }
    }
  }

  /** Selecting one method on an empty filter shows exactly the transactions paid that way, in order. */
  lemma SingleMethodFilter(transactions: seq<Transaction>, method': string)
    ensures FilteredTransactions(transactions, ToggleFilter([], method'))
            == Filter(transactions, (t: Transaction) => t.paymentMethod == method')
  {
    assert ToggleFilter([], method') == [method'];
    FilterSameTest(transactions, (t: Transaction) => t.paymentMethod in [method'],
                   (t: Transaction) => t.paymentMethod == method');
  }
}
