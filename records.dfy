/**
 * The stored records (bank accounts, transactions, budgets, savings goals), the session
 * as the authentication layer resolves it, and the shape of a handler's answer.
 */
module Records {
  import opened Wrappers
  import opened Types

  type UserId = string
  type Id = nat

  /** `session?.user?.id`: the signed-in user's id, or nothing. */
  type Session = Option<UserId>

  /** The user a handler acts for: none when there is no session or its id is the empty (falsy) string. */
  function Caller(session: Session): (u: Option<UserId>)
    ensures u.Some? <==> session.Some? && session.value != ""
    ensures u.Some? ==> u.value == session.value
  {
    if session.Some? && session.value != "" then session else None
  }

  /** A bank account; `kind` is the account type (checking, savings, ...). */
  datatype Account = Account(
    id: Id, userId: UserId, name: string, kind: string,
    balance: int, currency: string, createdAt: int)

  /**
   * A transaction on one account. The account reference is called `bankAccountId` in the
   * dashboard route and `accountId` elsewhere; here it is one field.
   */
  datatype Transaction = Transaction(
    id: Id, accountId: Id, amount: int, txType: TxType, category: Category,
    description: Option<string>, date: int)

  datatype Budget = Budget(
    id: Id, userId: UserId, category: Category, amount: int, period: Period, createdAt: int)

  datatype Goal = Goal(
    id: Id, userId: UserId, name: string, targetAmount: int, currentAmount: int,
    deadline: Option<int>)

  /** A JSON answer: a body with a success status, or `{ error }` with an error status. */
  datatype Response<T> = Ok(status: int, body: T) | Error(status: int, message: string)

  /** The 401 answer every handler gives without a signed-in user. */
  function Unauthorized<T>(): Response<T>
  {
    Error(401, "Unauthorized")
  }

  const MISSING_FIELDS: string := "Missing required fields"

  /** `where: { userId }` on the owner's records. */
  function OwnedBy(user: UserId): Account -> bool
  {
    (a: Account) => a.userId == user
  }

  function BudgetOwnedBy(user: UserId): Budget -> bool
  {
    (b: Budget) => b.userId == user
  }

  function GoalOwnedBy(user: UserId): Goal -> bool
  {
    (g: Goal) => g.userId == user
  }

  /** No two accounts of `accounts` share an id. */
  predicate DistinctIds(accounts: seq<Account>)
  {
    forall i, j :: 0 <= i < j < |accounts| ==> accounts[i].id != accounts[j].id
  }

  /** True when some account of `accounts` has the id `id`. */
  predicate HasAccount(accounts: seq<Account>, id: Id)
  {
    exists i :: 0 <= i < |accounts| && accounts[i].id == id
  }

  /** `accountId: { in: accountIds }` for the ids of `accounts`. */
  function OnAccounts(accounts: seq<Account>): Transaction -> bool
  {
    (t: Transaction) => HasAccount(accounts, t.accountId)
  }

  /** `where: { accountId }`. */
  function OnAccount(id: Id): Transaction -> bool
  {
    (t: Transaction) => t.accountId == id
  }
}
