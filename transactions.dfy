/**
 * `GET /api/transactions` (the caller's transactions, newest first, one page at a time) and
 * `POST /api/transactions` (record a transaction and move its account's balance).
 */
module TransactionsRoute {
  import opened Wrappers
  import opened Types
  import opened Records
  import opened Seqs
  import opened Sorting
  import opened Ledger
  import opened Store

  /** The query string: optional `accountId`, `limit` and `offset`. */
  datatype ListQuery = ListQuery(accountId: Option<Id>, limit: Option<nat>, offset: Option<nat>)

  datatype Pagination = Pagination(total: nat, limit: nat, offset: nat, hasMore: bool)

  datatype Page = Page(transactions: seq<Transaction>, pagination: Pagination)

  const DEFAULT_LIMIT: nat := 50

  /** The `where` of the listing: transactions on the caller's accounts, optionally on one account. */
  function Listed(accounts: seq<Account>, transactions: seq<Transaction>, user: UserId, accountId: Option<Id>): seq<Transaction>
  {
    var mine := Filter(transactions, OnAccounts(Filter(accounts, OwnedBy(user))));
    if accountId.Some? then Filter(mine, OnAccount(accountId.value)) else mine
  }

  /** A listed transaction is one of the store's, on an account the caller owns, on the requested account if any. */
  lemma ListedOwned(accounts: seq<Account>, transactions: seq<Transaction>, user: UserId, accountId: Option<Id>, t: Transaction)
    requires t in Listed(accounts, transactions, user, accountId)
    ensures t in transactions
    ensures exists i :: 0 <= i < |accounts| && accounts[i].id == t.accountId && accounts[i].userId == user
    ensures accountId.Some? ==> t.accountId == accountId.value
  {
    var mine := Filter(accounts, OwnedBy(user));
    assert t in Filter(transactions, OnAccounts(mine));
    var k :| 0 <= k < |mine| && mine[k].id == t.accountId;
    assert mine[k] in accounts;
  }

  /** The handler of `GET /api/transactions`. */
  function Get(db: Db, session: Session, q: ListQuery): (r: Response<Page>)
    reads db
    ensures Caller(session).None? ==> r == Unauthorized()
    ensures Caller(session).Some? ==> r.Ok? && r.status == 200
    ensures r.Ok? ==>
      var listed := Listed(db.accounts, db.transactions, Caller(session).value, q.accountId);
      var p := r.body.pagination;
      && p.limit == q.limit.GetOr(DEFAULT_LIMIT)
      && p.offset == q.offset.GetOr(0)
      && p.total == |listed|
      && (p.hasMore <==> p.offset + p.limit < p.total)
      && r.body.transactions == Slice(SortDesc(listed, DateKey), p.offset, p.limit)
      && |r.body.transactions| <= p.limit
      && multiset(r.body.transactions) <= multiset(listed)
      && (forall i, j :: 0 <= i < j < |r.body.transactions| ==>
            r.body.transactions[i].date >= r.body.transactions[j].date)
  {
    match Caller(session)
    case None => Unauthorized()
    case Some(user) =>
      var limit := q.limit.GetOr(DEFAULT_LIMIT);
      var offset := q.offset.GetOr(0);
      var listed := Listed(db.accounts, db.transactions, user, q.accountId);
      var ordered := SortDesc(listed, DateKey);
      var page := Slice(ordered, offset, limit);
      var total := |listed|;
      Ok(200, Page(page, Pagination(total, limit, offset, offset + limit < total)))
  }

  /** Paging through the listing with consecutive offsets yields the whole date-descending order. */
  lemma PagesCoverListing(db: Db, session: Session, accountId: Option<Id>, limit: nat, offset: nat)
    requires Caller(session).Some?
    ensures var first := Get(db, session, ListQuery(accountId, Some(limit), Some(offset)));
            var second := Get(db, session, ListQuery(accountId, Some(limit), Some(offset + limit)));
            var both := Get(db, session, ListQuery(accountId, Some(2 * limit), Some(offset)));
            first.body.transactions + second.body.transactions == both.body.transactions
  {
    var ordered := SortDesc(Listed(db.accounts, db.transactions, Caller(session).value, accountId), DateKey);
    assert Get(db, session, ListQuery(accountId, Some(limit), Some(offset))).body.transactions == Slice(ordered, offset, limit);
    assert Get(db, session, ListQuery(accountId, Some(limit), Some(offset + limit))).body.transactions == Slice(ordered, offset + limit, limit);
    assert Get(db, session, ListQuery(accountId, Some(2 * limit), Some(offset))).body.transactions == Slice(ordered, offset, 2 * limit);
    SliceConcat(ordered, offset, limit, limit);
  }

  /** The JSON body of `POST /api/transactions`. */
  datatype NewTransaction = NewTransaction(
    accountId: Option<Id>, amount: int, txType: Option<TxType>, category: Option<Category>,
    description: Option<string>, date: Option<int>)

  /** `!accountId || !amount || !type || !category` reversed: every required field is present and truthy. */
  predicate Complete(body: NewTransaction)
  {
    body.accountId.Some? && body.amount != 0 && body.txType.Some? && body.category.Some?
  }

  /** `bankAccount.findFirst({ where: { id, userId } })` succeeds. */
  predicate OwnsAccount(accounts: seq<Account>, user: UserId, id: Id)
  {
    exists i :: 0 <= i < |accounts| && accounts[i].id == id && accounts[i].userId == user
  }

  /** The record `transaction.create` stores: an empty description becomes null, a missing date becomes now. */
  function Record(id: Id, body: NewTransaction, now: int): (t: Transaction)
    requires Complete(body)
    ensures t.accountId == body.accountId.value && t.amount == body.amount
    ensures t.txType == body.txType.value && t.category == body.category.value
    ensures t.date == if body.date.Some? then body.date.value else now
    ensures t.description.Some? <==> body.description.Some? && body.description.value != ""
  {
    Transaction(id, body.accountId.value, body.amount, body.txType.value, body.category.value,
      if body.description.Some? && body.description.value != "" then body.description else None,
      if body.date.Some? then body.date.value else now)
  }

  /**
   * The handler of `POST /api/transactions`: stores the transaction, then increments the
   * account's balance by the signed amount. The two store calls are one step here.
   */
  method Post(db: Db, session: Session, body: NewTransaction, now: int) returns (r: Response<Transaction>)
    requires db.Valid()
    modifies db
    ensures db.Valid()
    ensures Caller(session).None? ==> r == Unauthorized()
    ensures Caller(session).Some? && !Complete(body) ==> r == Error(400, MISSING_FIELDS)
    ensures Caller(session).Some? && Complete(body) && !OwnsAccount(old(db.accounts), Caller(session).value, body.accountId.value)
      ==> r == Error(404, "Account not found or unauthorized")
    ensures r.Error? ==> unchanged(db)
    ensures r.Ok? <==>
      Caller(session).Some? && Complete(body) && OwnsAccount(old(db.accounts), Caller(session).value, body.accountId.value)
    ensures r.Ok? ==>
      && r.status == 201
      && r.body == Record(old(db.nextId), body, now)
      && db.transactions == old(db.transactions) + [r.body]
      && db.accounts == Credit(old(db.accounts), body.accountId.value, Signed(r.body))
      && db.budgets == old(db.budgets) && db.goals == old(db.goals)
  {
    var user := Caller(session);
    if user.None? {
      return Unauthorized();
    }
    if !Complete(body) {
      return Error(400, MISSING_FIELDS);
    }
    if !OwnsAccount(db.accounts, user.value, body.accountId.value) {
      return Error(404, "Account not found or unauthorized");
    }
    var t := Record(db.nextId, body, now);
    assert HasAccount(db.accounts, t.accountId);
    RecordKeepsConsistent(db.accounts, db.transactions, db.budgets, db.goals, db.nextId, db.opening, t);
    db.transactions := db.transactions + [t];
    db.accounts := Credit(db.accounts, t.accountId, Signed(t));
    db.nextId := db.nextId + 1;
    r := Ok(201, t);
  }

  /**
   * A successful create moves exactly the owning account's balance, up by the amount for
   * INCOME and down by it for EXPENSE; every other account is untouched.
   */
  lemma PostMovesOneBalance(accounts: seq<Account>, body: NewTransaction, id: Id, now: int, i: nat)
    requires Complete(body) && i < |accounts|
    ensures var after := Credit(accounts, body.accountId.value, Signed(Record(id, body, now)));
      && (accounts[i].id == body.accountId.value && body.txType.value == Income ==>
            after[i].balance == accounts[i].balance + body.amount)
      && (accounts[i].id == body.accountId.value && body.txType.value == Expense ==>
            after[i].balance == accounts[i].balance - body.amount)
      && (accounts[i].id != body.accountId.value ==> after[i] == accounts[i])
  {
  }
}
