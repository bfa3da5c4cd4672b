/**
 * The database the handlers query, as one in-memory object holding the four record
 * collections, with the invariants that the create handlers maintain.
 */
module Store {
  import opened Wrappers
  import opened Types
  import opened Records
  import opened Seqs
  import opened Ledger

  /** Every account's balance is its opening balance plus the signed sum of its transactions. */
  ghost predicate BalancesConsistent(accounts: seq<Account>, transactions: seq<Transaction>, opening: map<Id, int>)
  {
    forall i :: 0 <= i < |accounts| ==>
      accounts[i].id in opening &&
      accounts[i].balance == opening[accounts[i].id] + SignedSum(Filter(transactions, OnAccount(accounts[i].id)))
  }

  /** At most one budget for each (user, category) pair. */
  predicate OneBudgetPerCategory(budgets: seq<Budget>)
  {
    forall i, j :: 0 <= i < j < |budgets| ==>
      !(budgets[i].userId == budgets[j].userId && budgets[i].category == budgets[j].category)
  }

  /** No budget amount is zero (a zero amount is refused on creation), so percentages are defined. */
  predicate BudgetAmountsNonZero(budgets: seq<Budget>)
  {
    forall i :: 0 <= i < |budgets| ==> budgets[i].amount != 0
  }

  /** No goal target is zero (a zero target is refused on creation), so percentages are defined. */
  predicate GoalTargetsNonZero(goals: seq<Goal>)
  {
    forall i :: 0 <= i < |goals| ==> goals[i].targetAmount != 0
  }

  /** `balance: { increment: delta }` on the account(s) with id `id`. */
  function Credit(accounts: seq<Account>, id: Id, delta: int): (r: seq<Account>)
    ensures |r| == |accounts|
    ensures forall i :: 0 <= i < |r| ==>
      r[i] == if accounts[i].id == id then accounts[i].(balance := accounts[i].balance + delta) else accounts[i]
  {
    seq(|accounts|, i requires 0 <= i < |accounts| =>
      if accounts[i].id == id then accounts[i].(balance := accounts[i].balance + delta) else accounts[i])
  }

  /**
   * Recording a transaction on an existing account and crediting that account by its signed
   * amount keeps every balance equal to opening balance plus signed sum.
   */
  lemma CreditKeepsBalances(accounts: seq<Account>, transactions: seq<Transaction>, opening: map<Id, int>, t: Transaction)
    requires BalancesConsistent(accounts, transactions, opening)
    ensures BalancesConsistent(Credit(accounts, t.accountId, Signed(t)), transactions + [t], opening)
  {
    var after := Credit(accounts, t.accountId, Signed(t));
    forall i | 0 <= i < |after|
      ensures after[i].id in opening
      ensures after[i].balance == opening[after[i].id] + SignedSum(Filter(transactions + [t], OnAccount(after[i].id)))
    {
      var id := accounts[i].id;
      FilterAppend(transactions, [t], OnAccount(id));
      TotalAppend(Filter(transactions, OnAccount(id)), Filter([t], OnAccount(id)), Signed);
    }
  }

  /** The store invariant, on the values of the store's fields. */
  ghost predicate Consistent(
    accounts: seq<Account>, transactions: seq<Transaction>, budgets: seq<Budget>, goals: seq<Goal>,
    nextId: nat, opening: map<Id, int>)
  {
    && (forall i :: 0 <= i < |accounts| ==> accounts[i].id < nextId)
    && DistinctIds(accounts)
    && (forall i :: 0 <= i < |transactions| ==> HasAccount(accounts, transactions[i].accountId))
    && BalancesConsistent(accounts, transactions, opening)
    && OneBudgetPerCategory(budgets)
    && BudgetAmountsNonZero(budgets)
    && GoalTargetsNonZero(goals)
  }

  /** Recording a transaction on an existing account, with its balance credited, keeps the store consistent. */
  lemma RecordKeepsConsistent(
    accounts: seq<Account>, transactions: seq<Transaction>, budgets: seq<Budget>, goals: seq<Goal>,
    nextId: nat, opening: map<Id, int>, t: Transaction)
    requires Consistent(accounts, transactions, budgets, goals, nextId, opening)
    requires HasAccount(accounts, t.accountId)
    ensures Consistent(Credit(accounts, t.accountId, Signed(t)), transactions + [t], budgets, goals, nextId + 1, opening)
  {
    var after := Credit(accounts, t.accountId, Signed(t));
    CreditKeepsBalances(accounts, transactions, opening, t);
    forall id | HasAccount(accounts, id) ensures HasAccount(after, id) {
      var k :| 0 <= k < |accounts| && accounts[k].id == id;
      assert after[k].id == id;
    }
    var ts := transactions + [t];
    forall i | 0 <= i < |ts| ensures HasAccount(after, ts[i].accountId) {
      if i < |transactions| {
        assert HasAccount(accounts, transactions[i].accountId);
      }
    }
  }

  /** Adding a fresh account, with its balance recorded as opening balance, keeps the store consistent. */
  lemma AddAccountKeepsConsistent(
    accounts: seq<Account>, transactions: seq<Transaction>, budgets: seq<Budget>, goals: seq<Goal>,
    nextId: nat, opening: map<Id, int>, a: Account)
    requires Consistent(accounts, transactions, budgets, goals, nextId, opening)
    requires a.id == nextId
    ensures Consistent(accounts + [a], transactions, budgets, goals, nextId + 1, opening[a.id := a.balance])
  {
    var after := accounts + [a];
    NoTransactionsOnFreshId(accounts, transactions, nextId);
    forall id | HasAccount(accounts, id) ensures HasAccount(after, id) {
      var k :| 0 <= k < |accounts| && accounts[k].id == id;
      assert after[k].id == id;
    }
    var opening' := opening[a.id := a.balance];
    forall i | 0 <= i < |after|
      ensures after[i].id in opening'
      ensures after[i].balance == opening'[after[i].id] + SignedSum(Filter(transactions, OnAccount(after[i].id)))
    {
      if i < |accounts| {
        assert accounts[i].id != a.id;
      }
    }
  }

  /** No transaction refers to an id the store has not handed out yet. */
  lemma {:induction false} NoTransactionsOnFreshId(accounts: seq<Account>, transactions: seq<Transaction>, id: Id)
    requires forall i :: 0 <= i < |accounts| ==> accounts[i].id < id
    requires forall i :: 0 <= i < |transactions| ==> HasAccount(accounts, transactions[i].accountId)
    ensures Filter(transactions, OnAccount(id)) == []
  {
    if transactions != [] {
      assert HasAccount(accounts, transactions[0].accountId);
      NoTransactionsOnFreshId(accounts, transactions[1..], id);
    }
  }

  function Balance(a: Account): int { a.balance }

  /** What the accounts of `accounts` were opened with, added up. */
  function OpeningTotal(accounts: seq<Account>, opening: map<Id, int>): int
    requires forall i :: 0 <= i < |accounts| ==> accounts[i].id in opening
  {
    if accounts == [] then 0 else opening[accounts[0].id] + OpeningTotal(accounts[1..], opening)
  }

  /**
   * Over accounts with distinct ids that each satisfy the balance invariant, the balances add
   * up to the opening balances plus the signed sum of the transactions on those accounts.
   */
  lemma {:induction false} AccountsTotal(accounts: seq<Account>, transactions: seq<Transaction>, opening: map<Id, int>)
    requires DistinctIds(accounts)
    requires BalancesConsistent(accounts, transactions, opening)
    ensures Total(accounts, Balance)
         == OpeningTotal(accounts, opening) + SignedSum(Filter(transactions, OnAccounts(accounts)))
  {
    if accounts != [] {
      var a, rest := accounts[0], accounts[1..];
      assert BalancesConsistent(rest, transactions, opening) by {
        forall i | 0 <= i < |rest| ensures rest[i] == accounts[i + 1] { }
      }
      assert DistinctIds(rest) by {
        forall i, j | 0 <= i < j < |rest| ensures rest[i].id != rest[j].id {
          assert rest[i] == accounts[i + 1] && rest[j] == accounts[j + 1];
        }
      }
      AccountsTotal(rest, transactions, opening);
      forall t: Transaction
        ensures OnAccounts(accounts)(t) == (OnAccount(a.id)(t) || OnAccounts(rest)(t))
        ensures !(OnAccount(a.id)(t) && OnAccounts(rest)(t))
      {
        var id := t.accountId;
        if HasAccount(rest, id) {
          var k :| 0 <= k < |rest| && rest[k].id == id;
          assert accounts[k + 1].id == id;
        }
        if HasAccount(accounts, id) && id != a.id {
          var k :| 0 <= k < |accounts| && accounts[k].id == id;
          assert rest[k - 1].id == id;
        }
      }
      TotalFilterUnion(transactions, OnAccount(a.id), OnAccounts(rest), OnAccounts(accounts), Signed);
    } else {
      FilterNone(transactions, OnAccounts(accounts));
    }
  }

  /** The store: bank accounts, transactions, budgets and savings goals. */
  class Db {
    var accounts: seq<Account>
    var transactions: seq<Transaction>
    var budgets: seq<Budget>
    var goals: seq<Goal>
    /** The next identifier the store hands out. */
    var nextId: nat
    /** The balance each account was created with. */
    ghost var opening: map<Id, int>

    ghost predicate Valid()
      reads this
    {
      Consistent(accounts, transactions, budgets, goals, nextId, opening)
    }

    constructor ()
      ensures Valid()
      ensures accounts == [] && transactions == [] && budgets == [] && goals == []
    {
      accounts, transactions, budgets, goals := [], [], [], [];
      nextId := 0;
      opening := map[];
    }
  }
}
