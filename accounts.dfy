/** src/modules/accounts/accounts.service.ts: bank accounts and transfers between them. */
module Accounts {
  import opened Common
  import opened Entities
  import opened Store
  import opened Ledger

  /** The fields `updateAccount` may change (the owner is never among them). */
  datatype AccountPatch = AccountPatch(balance: Option<int>, isActive: Option<bool>)

  function ApplyAccountPatch(a: Account, p: AccountPatch): (r: Account)
    ensures r.owner == a.owner
    ensures r.balance == (if p.balance.Some? then p.balance.value else a.balance)
    ensures r.isActive == (if p.isActive.Some? then p.isActive.value else a.isActive)
  {
    a.(balance := if p.balance.Some? then p.balance.value else a.balance,
       isActive := if p.isActive.Some? then p.isActive.value else a.isActive)
  }

  /** `getAllAccounts`: the user's active accounts (the ordering by name is not modelled). */
  method GetAllAccounts(db: Database, user: UserId) returns (r: map<Id, Account>)
    ensures forall id :: id in r <==> OwnsAccount(db.accounts, id, user) && db.accounts[id].isActive
    ensures forall id :: id in r ==> id in db.accounts && r[id] == db.accounts[id]
  {
    r := map id | id in db.accounts && db.accounts[id].owner == user && db.accounts[id].isActive :: db.accounts[id];
  }

  /** `getAccountById`: 404 unless the account exists and belongs to the user. */
  method GetAccountById(db: Database, user: UserId, id: Id) returns (r: Result<Account>)
    ensures r.Success? <==> OwnsAccount(db.accounts, id, user)
    ensures r.Success? ==> r.value == db.accounts[id]
    ensures r.Failure? ==> r.error == NotFound
  {
    if id in db.accounts && db.accounts[id].owner == user {
      r := Success(db.accounts[id]);
    } else {
      r := Failure(NotFound);
    }
  }

  /** `createAccount`: a new active account owned by the caller. */
  method CreateAccount(db: Database, user: UserId, balance: int) returns (id: Id)
    requires db.Valid()
    modifies db`accounts, db`nextId
    ensures db.Valid()
    ensures id !in old(db.accounts)
    ensures db.accounts == old(db.accounts)[id := Account(user, balance, true)]
  {
    id := db.NewId();
    db.accounts := db.accounts[id := Account(user, balance, true)];
  }

  /** `updateAccount`: 404 unless owned; otherwise the patch is written (a manual balance edit included). */
  method UpdateAccount(db: Database, user: UserId, id: Id, patch: AccountPatch) returns (r: Result<Account>)
    requires db.Valid()
    modifies db`accounts
    ensures db.Valid()
    ensures r.Success? <==> OwnsAccount(old(db.accounts), id, user)
    ensures r.Failure? ==> r.error == NotFound && db.accounts == old(db.accounts)
    ensures r.Success? ==>
      r.value == ApplyAccountPatch(old(db.accounts)[id], patch) && db.accounts == old(db.accounts)[id := r.value]
  {
    var found := GetAccountById(db, user, id);
    if found.Failure? {
      return Failure(NotFound);
    }
    var updated := ApplyAccountPatch(found.value, patch);
    db.accounts := db.accounts[id := updated];
    r := Success(updated);
  }

  /** `deleteAccount`: 404 unless owned; otherwise only that account row is removed. */
  method DeleteAccount(db: Database, user: UserId, id: Id) returns (r: Result<()>)
    requires db.Valid()
    modifies db`accounts
    ensures db.Valid()
    ensures r.Success? <==> OwnsAccount(old(db.accounts), id, user)
    ensures r.Failure? ==> r.error == NotFound && db.accounts == old(db.accounts)
    ensures r.Success? ==> db.accounts == old(db.accounts) - {id}
  {
    var found := GetAccountById(db, user, id);
    if found.Failure? {
      return Failure(NotFound);
    }
    db.accounts := db.accounts - {id};
    r := Success(());
  }

  /** The guards of `createTransfer`, in the order the service checks them. */
  function TransferCheck(accounts: map<Id, Account>, user: UserId, from: Id, to: Id, amount: int): (e: Option<Error>)
    ensures e.None? <==>
      from != to && OwnsAccount(accounts, from, user) && OwnsAccount(accounts, to, user) && accounts[from].balance >= amount
    ensures e == Some(NotFound) <==> from != to && !(OwnsAccount(accounts, from, user) && OwnsAccount(accounts, to, user))
    ensures e == Some(BadRequest) <==>
      from == to || (OwnsAccount(accounts, from, user) && OwnsAccount(accounts, to, user) && accounts[from].balance < amount)
  {
    if from == to then Some(BadRequest)
    else if !OwnsAccount(accounts, from, user) || !OwnsAccount(accounts, to, user) then Some(NotFound)
    else if accounts[from].balance < amount then Some(BadRequest)
    else None
  }

  /**
   * `createTransfer`: after the guards, decrement the source, increment the destination and
   * insert the transfer record, all or nothing.
   */
  method CreateTransfer(db: Database, user: UserId, from: Id, to: Id, amount: int, date: Date) returns (r: Result<Id>)
    requires db.Valid()
    requires amount > 0
    modifies db`accounts, db`transfers, db`nextId
    ensures db.Valid()
    ensures r.Failure? <==> TransferCheck(old(db.accounts), user, from, to, amount).Some?
    ensures r.Failure? ==>
      r.error == TransferCheck(old(db.accounts), user, from, to, amount).value && unchanged(db)
    ensures r.Success? ==>
      && r.value !in old(db.transfers)
      && db.transfers == old(db.transfers)[r.value := Transfer(user, from, to, amount, date)]
      && db.accounts == Transferred(old(db.accounts), from, to, amount)
    ensures r.Success? ==> TotalBalance(db.accounts) == TotalBalance(old(db.accounts))
  {
    if from == to {
      return Failure(BadRequest);
    }
    var fromAccount := GetAccountById(db, user, from);
    var toAccount := GetAccountById(db, user, to);
    if fromAccount.Failure? || toAccount.Failure? {
      return Failure(NotFound);
    }
    if fromAccount.value.balance < amount {
      return Failure(BadRequest);
    }
    ghost var accounts0 := db.accounts;
    db.accounts := Credit(db.accounts, from, -amount);
    db.accounts := Credit(db.accounts, to, amount);
    assert db.accounts == Transferred(accounts0, from, to, amount);
    LinksOwnedKeptByAccountChange(db.transactions, accounts0, db.accounts, db.cards, db.nextId);
    var id := db.NewId();
    var record := Transfer(user, from, to, amount, date);
    db.transfers := db.transfers[id := record];
    r := Success(id);
    TransferConservesTotal(accounts0, from, to, amount);
  }
}
