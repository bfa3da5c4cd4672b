/**
 * `GET /api/accounts` (the caller's accounts, newest first, each with its number of
 * transactions) and `POST /api/accounts` (open an account).
 */
module AccountsRoute {
  import opened Wrappers
  import opened Records
  import opened Seqs
  import opened Sorting
  import opened Store

  /** An account with `_count: { transactions }`. */
  datatype AccountWithCount = AccountWithCount(account: Account, transactionCount: nat)

  function CreatedKey(a: Account): int { a.createdAt }

  function WithCount(a: Account, transactions: seq<Transaction>): (w: AccountWithCount)
    ensures w.account == a && w.transactionCount == |Filter(transactions, OnAccount(a.id))|
  {
    AccountWithCount(a, |Filter(transactions, OnAccount(a.id))|)
  }

  /** The handler of `GET /api/accounts`. */
  function Get(db: Db, session: Session): (r: Response<seq<AccountWithCount>>)
    reads db
    ensures Caller(session).None? ==> r == Unauthorized()
    ensures Caller(session).Some? ==> r.Ok? && r.status == 200
    ensures r.Ok? ==>
      var mine := Filter(db.accounts, OwnedBy(Caller(session).value));
      && |r.body| == |mine|
      && multiset(seq(|r.body|, i requires 0 <= i < |r.body| => r.body[i].account)) == multiset(mine)
      && (forall i :: 0 <= i < |r.body| ==>
            r.body[i].account.userId == Caller(session).value
            && r.body[i].transactionCount == |Filter(db.transactions, OnAccount(r.body[i].account.id))|)
      && (forall i, j :: 0 <= i < j < |r.body| ==> r.body[i].account.createdAt >= r.body[j].account.createdAt)
  {
    match Caller(session)
    case None => Unauthorized()
    case Some(user) =>
      var mine := Filter(db.accounts, OwnedBy(user));
      var ordered := SortDesc(mine, CreatedKey);
      var transactions := db.transactions;
      var listed := seq(|ordered|, i requires 0 <= i < |ordered| => WithCount(ordered[i], transactions));
      assert seq(|listed|, i requires 0 <= i < |listed| => listed[i].account) == ordered;
      assert forall i :: 0 <= i < |ordered| ==> ordered[i].userId == user by {
        forall i | 0 <= i < |ordered| ensures ordered[i].userId == user {
          SortMembers(mine, CreatedKey, ordered[i]);
        }
      }
      Ok(200, listed)
  }

  /** The JSON body of `POST /api/accounts`. */
  datatype NewAccount = NewAccount(name: string, kind: string, balance: Option<int>, currency: Option<string>)

  /** The record `bankAccount.create` stores: balance 0 and currency EUR unless given (and truthy). */
  function Opened(id: Id, user: UserId, body: NewAccount, now: int): (a: Account)
    ensures a.id == id && a.userId == user && a.name == body.name && a.kind == body.kind
    ensures a.balance == if body.balance.Some? then body.balance.value else 0
    ensures a.currency == if body.currency.Some? && body.currency.value != "" then body.currency.value else "EUR"
    ensures a.createdAt == now
  {
    Account(id, user, body.name, body.kind, body.balance.GetOr(0),
      if body.currency.Some? && body.currency.value != "" then body.currency.value else "EUR", now)
  }

  /** The handler of `POST /api/accounts`. */
  method Post(db: Db, session: Session, body: NewAccount, now: int) returns (r: Response<Account>)
    requires db.Valid()
    modifies db
    ensures db.Valid()
    ensures Caller(session).None? ==> r == Unauthorized()
    ensures Caller(session).Some? && (body.name == "" || body.kind == "") ==> r == Error(400, MISSING_FIELDS)
    ensures r.Error? ==> unchanged(db)
    ensures r.Ok? <==> Caller(session).Some? && body.name != "" && body.kind != ""
    ensures r.Ok? ==>
      && r.status == 201
      && r.body == Opened(old(db.nextId), Caller(session).value, body, now)
      && db.accounts == old(db.accounts) + [r.body]
      && db.transactions == old(db.transactions) && db.budgets == old(db.budgets) && db.goals == old(db.goals)
  {
    var user := Caller(session);
    if user.None? {
      return Unauthorized();
    }
    if body.name == "" || body.kind == "" {
      return Error(400, MISSING_FIELDS);
    }
    var a := Opened(db.nextId, user.value, body, now);
    AddAccountKeepsConsistent(db.accounts, db.transactions, db.budgets, db.goals, db.nextId, db.opening, a);
    db.accounts := db.accounts + [a];
    db.opening := db.opening[a.id := a.balance];
    db.nextId := db.nextId + 1;
    r := Ok(201, a);
  }
}
