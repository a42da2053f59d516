/**
 * The relational store behind the handlers, and the queries and writes the
 * handlers issue against it. Every write commits at once; a write that a
 * constraint refuses changes nothing but the id sequence it drew from.
 */
module Crud {
  import opened Wrappers
  import opened Errors
  import opened Models

  /** The non-key columns that an `UPDATE users SET ...` may assign; `None` leaves a column alone. */
  datatype UserColumns = UserColumns(
    email: Option<string>,
    hashedPassword: Option<string>,
    fullName: Option<string>,
    role: Option<string>)

  /** Row `u` after assigning the columns that `c` sets. */
  function WithColumns(u: User, c: UserColumns): User
  {
    User(u.id, c.email.GetOr(u.email), c.hashedPassword.GetOr(u.hashedPassword),
         c.fullName.GetOr(u.fullName), c.role.GetOr(u.role))
  }

  /** The first payment of `ledger` with this transaction id. */
  function FindByTransaction(ledger: seq<Payment>, transactionId: string): (r: Option<Payment>)
    ensures r.Some? ==> r.value in ledger && r.value.transactionId == transactionId
    ensures r.None? <==> forall p :: p in ledger ==> p.transactionId != transactionId
  {
    if ledger == [] then None
    else if ledger[0].transactionId == transactionId then Some(ledger[0])
    else FindByTransaction(ledger[1..], transactionId)
  }

  /** A payment appended under a transaction id the ledger lacks is the one found under it. */
  lemma {:induction false} FindAppended(ledger: seq<Payment>, p: Payment)
    requires FindByTransaction(ledger, p.transactionId).None?
    ensures FindByTransaction(ledger + [p], p.transactionId) == Some(p)
  {
    if ledger == [] {
      assert [] + [p] == [p];
    } else {
      assert (ledger + [p])[1..] == ledger[1..] + [p];
      FindAppended(ledger[1..], p);
    }
  }

  /**
   * Appending a payment with a new transaction id, the next sequence value and
   * a stored account keeps the constraints of the payments table.
   */
  lemma LedgerAppend(ledger: seq<Payment>, accounts: map<int, Account>, next: int, p: Payment)
    requires forall i, j :: 0 <= i < j < |ledger| ==>
               ledger[i].transactionId != ledger[j].transactionId && ledger[i].id != ledger[j].id
    requires forall i :: 0 <= i < |ledger| ==> ledger[i].id < next && ledger[i].accountId in accounts
    requires FindByTransaction(ledger, p.transactionId).None? && p.id == next && p.accountId in accounts
    ensures forall i, j :: 0 <= i < j < |ledger + [p]| ==>
              (ledger + [p])[i].transactionId != (ledger + [p])[j].transactionId && (ledger + [p])[i].id != (ledger + [p])[j].id
    ensures forall i :: 0 <= i < |ledger + [p]| ==> (ledger + [p])[i].id < next + 1 && (ledger + [p])[i].accountId in accounts
    ensures FindByTransaction(ledger + [p], p.transactionId) == Some(p)
  {
    FindAppended(ledger, p);
    forall i | 0 <= i < |ledger|
      ensures ledger[i].transactionId != p.transactionId
    {
      assert ledger[i] in ledger;
    }
  }

  /** Sum of the amounts of the payments in `ledger` booked on `accountId`. */
  function LedgerSum(ledger: seq<Payment>, accountId: int): real
  {
    if ledger == [] then 0.0
    else (if ledger[0].accountId == accountId then ledger[0].amount else 0.0)
         + LedgerSum(ledger[1..], accountId)
  }

  lemma {:induction false} LedgerSumAppend(ledger: seq<Payment>, p: Payment, accountId: int)
    ensures LedgerSum(ledger + [p], accountId)
            == LedgerSum(ledger, accountId) + (if p.accountId == accountId then p.amount else 0.0)
  {
    if ledger == [] {
      assert [] + [p] == [p];
    } else {
      assert (ledger + [p])[1..] == ledger[1..] + [p];
      LedgerSumAppend(ledger[1..], p, accountId);
    }
  }

  class Store {
    /** `users`, keyed by primary key. */
    var users: map<int, User>
    /** `accounts`, keyed by primary key. */
    var accounts: map<int, Account>
    /** `payments`, in insertion order; rows are never updated or deleted. */
    var payments: seq<Payment>
    /** Next value of the sequence behind `users.id`. */
    var userSeq: int
    /** Next value of the sequence behind `payments.id`. */
    var paymentSeq: int

    /**
     * The constraints the database enforces. The migration creates `users`
     * and `accounts`: primary keys, unique email, and `accounts.owner_id`
     * referencing `users.id` with ON DELETE CASCADE. `payments` is created
     * from the ORM model: primary key, unique `transaction_id`, and
     * `account_id` referencing `accounts.id` without an ON DELETE action.
     */
    ghost predicate Valid()
      reads this
    {
      && (forall id :: id in users ==> users[id].id == id)
      && (forall i, j :: i in users && j in users && users[i].email == users[j].email ==> i == j)
      && (forall id :: id in accounts ==> accounts[id].id == id && accounts[id].ownerId in users)
      && (forall i, j :: 0 <= i < j < |payments| ==>
            payments[i].transactionId != payments[j].transactionId && payments[i].id != payments[j].id)
      && (forall i :: 0 <= i < |payments| ==> payments[i].id < paymentSeq && payments[i].accountId in accounts)
    }

    /** Every stored role is one `validate_role` accepts (the column itself has no check). */
    predicate RolesValid()
      reads this
    {
      forall id :: id in users ==> IsRole(users[id].role)
    }

    /** Whether `p` is booked on an account that `userId` owns (the join of `get_user_payments`). */
    predicate OwnsPayment(userId: int, p: Payment)
      reads this
    {
      p.accountId in accounts && accounts[p.accountId].ownerId == userId
    }

    /** The part of an account's balance that no recorded payment accounts for. */
    ghost function Unledgered(accountId: int): real
      reads this
      requires accountId in accounts
    {
      accounts[accountId].balance - LedgerSum(payments, accountId)
    }

    /** An empty database whose sequences start at 1. */
    constructor ()
      ensures Valid() && RolesValid()
      ensures users == map[] && accounts == map[] && payments == []
      ensures userSeq == 1 && paymentSeq == 1
    {
      users, accounts, payments := map[], map[], [];
      userSeq, paymentSeq := 1, 1;
    }

    function GetUserByEmail(email: string): (r: Option<User>)
      reads this
      requires Valid()
      ensures r.Some? <==> exists id :: id in users && users[id].email == email
      ensures r.Some? ==> r.value.email == email && r.value.id in users && users[r.value.id] == r.value
      ensures r.Some? ==> forall id :: id in users && users[id].email == email ==> users[id] == r.value
    {
      if exists id :: id in users && users[id].email == email then
        var id :| id in users && users[id].email == email;
        Some(users[id])
      else
        None
    }

    function GetUserById(userId: int): (r: Option<User>)
      reads this
      requires Valid()
      ensures r.Some? <==> userId in users
      ensures r.Some? ==> r.value.id == userId && r.value in users.Values
    {
      if userId in users then Some(users[userId]) else None
    }

    function GetAllUsers(): (r: set<User>)
      reads this
      ensures forall u :: u in r <==> exists id :: id in users && users[id] == u
    {
      set id | id in users :: users[id]
    }

    function GetUserAccounts(userId: int): (r: set<Account>)
      reads this
      ensures forall a :: a in r <==> a in accounts.Values && a.ownerId == userId
    {
      set a | a in accounts.Values && a.ownerId == userId
    }

    function GetUserPayments(userId: int): (r: set<Payment>)
      reads this
      ensures forall p :: p in r <==> p in payments && OwnsPayment(userId, p)
    {
      set i | 0 <= i < |payments| && OwnsPayment(userId, payments[i]) :: payments[i]
    }

    function GetAccountById(accountId: int): (r: Option<Account>)
      reads this
      requires Valid()
      ensures r.Some? <==> accountId in accounts
      ensures r.Some? ==> r.value.id == accountId && r.value in accounts.Values
    {
      if accountId in accounts then Some(accounts[accountId]) else None
    }

    function GetPaymentByTransactionId(transactionId: string): (r: Option<Payment>)
      reads this
      requires Valid()
      ensures r.Some? <==> exists i :: 0 <= i < |payments| && payments[i].transactionId == transactionId
      ensures r.Some? ==> r.value in payments && r.value.transactionId == transactionId
    {
      FindByTransaction(payments, transactionId)
    }

    /** INSERT into `users`; the id comes from the sequence, which advances even if the insert fails. */
    method CreateUser(email: string, hashedPassword: string, fullName: string, role: string)
      returns (r: Result<User, Fault>)
      requires Valid()
      modifies this`users, this`userSeq
      ensures Valid()
      ensures old(RolesValid()) && IsRole(role) ==> RolesValid()
      ensures userSeq == old(userSeq) + 1
      ensures r.Ok? <==> old(userSeq) !in old(users) && old(GetUserByEmail(email)).None?
      ensures r.Ok? ==> r.value == User(old(userSeq), email, hashedPassword, fullName, role)
      ensures r.Ok? ==> users == old(users)[r.value.id := r.value] && GetUserById(r.value.id) == Some(r.value)
      ensures r.Err? ==> r.error == IntegrityError && users == old(users)
    {
      var id := userSeq;
      if id in users || GetUserByEmail(email).Some? {
        userSeq := userSeq + 1;
        return Err(IntegrityError);
      }
      var u := User(id, email, hashedPassword, fullName, role);
      users, userSeq := users[id := u], userSeq + 1;
      r := Ok(u);
    }

    /** `UPDATE users SET <columns> WHERE id = userId`. */
    method UpdateUser(userId: int, columns: UserColumns) returns (r: Result<(), Fault>)
      requires Valid()
      modifies this`users
      ensures Valid()
      ensures userId !in old(users) ==> r.Ok? && users == old(users)
      ensures userId in old(users) ==>
        var updated := WithColumns(old(users)[userId], columns);
        if exists id :: id in old(users) && id != userId && old(users)[id].email == updated.email
        then r == Err(IntegrityError) && users == old(users)
        else r.Ok? && users == old(users)[userId := updated]
    {
      if userId !in users {
        return Ok(());
      }
      var updated := WithColumns(users[userId], columns);
      if exists id :: id in users && id != userId && users[id].email == updated.email {
        return Err(IntegrityError);
      }
      users := users[userId := updated];
      r := Ok(());
    }

    /**
     * `DELETE FROM users WHERE id = userId`. Owned accounts go with the user
     * (the migration's ON DELETE CASCADE on `accounts.owner_id`); a payment on
     * one of them blocks the whole delete (the ORM model's `payments.account_id`
     * foreign key has no ON DELETE action).
     */
    method DeleteUser(userId: int) returns (r: Result<(), Fault>)
      requires Valid()
      modifies this`users, this`accounts
      ensures Valid()
      ensures r.Err? <==> old(GetUserPayments(userId)) != {}
      ensures r.Err? ==> r.error == IntegrityError && users == old(users) && accounts == old(accounts)
      ensures r.Ok? ==> users == old(users) - {userId}
      ensures r.Ok? ==> accounts == map a | a in old(accounts) && old(accounts)[a].ownerId != userId :: old(accounts)[a]
      ensures userId !in old(users) ==> r.Ok? && users == old(users) && accounts == old(accounts)
    {
      if GetUserPayments(userId) != {} {
        return Err(IntegrityError);
      }
      forall i | 0 <= i < |payments|
        ensures accounts[payments[i].accountId].ownerId != userId
      {
        assert payments[i] !in GetUserPayments(userId);
      }
      var kept := map a | a in accounts && accounts[a].ownerId != userId :: accounts[a];
      if userId !in users {
        assert forall a :: a in accounts ==> accounts[a].ownerId in users;
        assert kept.Keys == accounts.Keys;
        assert kept == accounts;
      }
      users := users - {userId};
      accounts := kept;
      r := Ok(());
    }

    /** INSERT into `accounts` with an explicit id. */
    method CreateAccount(account: Account) returns (r: Result<Account, Fault>)
      requires Valid()
      modifies this`accounts
      ensures Valid()
      ensures r.Ok? <==> account.id !in old(accounts) && account.ownerId in users
      ensures r.Ok? ==> r.value == account && accounts == old(accounts)[account.id := account]
      ensures r.Ok? ==> GetAccountById(account.id) == Some(account)
      ensures r.Err? ==> r.error == IntegrityError && accounts == old(accounts)
    {
      if account.id in accounts || account.ownerId !in users {
        return Err(IntegrityError);
      }
      accounts := accounts[account.id := account];
      r := Ok(account);
    }

    /** `UPDATE accounts SET balance = balance + amount WHERE id = accountId`. */
    method UpdateAccountBalance(accountId: int, amount: real)
      requires Valid()
      modifies this`accounts
      ensures Valid()
      ensures accountId in old(accounts) ==>
        accounts == old(accounts)[accountId := old(accounts)[accountId].(balance := old(accounts)[accountId].balance + amount)]
      ensures accountId !in old(accounts) ==> accounts == old(accounts)
    {
      if accountId in accounts {
        var a := accounts[accountId];
        accounts := accounts[accountId := a.(balance := a.balance + amount)];
      }
    }

    /** INSERT into `payments`; the id comes from the sequence, which advances even if the insert fails. */
    method CreatePayment(transactionId: string, amount: real, accountId: int) returns (r: Result<Payment, Fault>)
      requires Valid()
      modifies this`payments, this`paymentSeq
      ensures Valid()
      ensures paymentSeq == old(paymentSeq) + 1
      ensures r.Ok? <==> old(GetPaymentByTransactionId(transactionId)).None? && accountId in accounts
      ensures r.Ok? ==> r.value == Payment(old(paymentSeq), transactionId, amount, accountId)
      ensures r.Ok? ==> payments == old(payments) + [r.value]
      ensures r.Ok? ==> GetPaymentByTransactionId(transactionId) == Some(r.value)
      ensures r.Err? ==> r.error == IntegrityError && payments == old(payments)
    {
      var id := paymentSeq;
      if GetPaymentByTransactionId(transactionId).Some? || accountId !in accounts {
        paymentSeq := paymentSeq + 1;
        return Err(IntegrityError);
      }
      var p := Payment(id, transactionId, amount, accountId);
      LedgerAppend(payments, accounts, id, p);
      payments, paymentSeq := payments + [p], paymentSeq + 1;
      r := Ok(p);
    }
  }
}
