/**
 * The balance rules shared by transaction status changes and transfers: how much a
 * status change moves a linked account, what a transfer does to two balances, and the
 * quantity both of them keep: balance minus (PAID effects plus net transfers).
 */
module Ledger {
  import opened Common
  import opened Entities
  import opened Sums

  /** The signed effect of a transaction on its account: + for INCOME, - for EXPENSE. */
  function SignedAmount(t: Transaction): (d: int)
    ensures t.amount >= 0 ==> (d >= 0 <==> t.txType == Income || t.amount == 0)
    ensures d == t.amount || d == -t.amount
  {
    if t.txType == Income then t.amount else -t.amount
  }

  /** What a transaction contributes to its account's balance while in its current status. */
  function PaidSigned(t: Transaction): int {
    if t.status == Paid then SignedAmount(t) else 0
  }

  /** Its contribution to account `a`. */
  function PaidEffect(t: Transaction, a: Id): int {
    if t.accountId == Some(a) then PaidSigned(t) else 0
  }

  /** The `balanceChange` of transactions.service.ts:329-368 for a move to `newStatus`. */
  function StatusBalanceChange(t: Transaction, newStatus: TxStatus): (d: int)
    ensures d == PaidSigned(t.(status := newStatus)) - PaidSigned(t)
  {
    if t.status != Paid && newStatus == Paid then
      (if t.txType == Income then t.amount else -t.amount)
    else if t.status == Paid && newStatus != Paid then
      (if t.txType == Income then -t.amount else t.amount)
    else 0
  }

  /** Whether the status change writes a balance: a linked account and an edge into or out of PAID. */
  function BalanceMoves(t: Transaction, newStatus: TxStatus): (b: bool)
    ensures newStatus == t.status ==> !b
    ensures t.status != Paid && newStatus != Paid ==> !b
    ensures t.amount != 0 ==> (b <==> t.accountId.Some? && StatusBalanceChange(t, newStatus) != 0)
  {
    t.accountId.Some? &&
    ((t.status != Paid && newStatus == Paid) || (t.status == Paid && newStatus != Paid))
  }

  /** `bankAccount.update({ balance: { increment: delta } })`. */
  function Credit(accounts: map<Id, Account>, id: Id, delta: int): (r: map<Id, Account>)
    requires id in accounts
    ensures r.Keys == accounts.Keys
    ensures r[id] == accounts[id].(balance := accounts[id].balance + delta)
    ensures forall k :: k in accounts && k != id ==> r[k] == accounts[k]
  {
    accounts[id := accounts[id].(balance := accounts[id].balance + delta)]
  }

  /** The accounts after a status change of `t` to `newStatus`. */
  function AccountsAfterStatus(accounts: map<Id, Account>, t: Transaction, newStatus: TxStatus): (r: map<Id, Account>)
    requires BalanceMoves(t, newStatus) ==> t.accountId.value in accounts
    ensures r.Keys == accounts.Keys
    ensures forall a :: a in accounts ==>
      r[a] == accounts[a].(balance := accounts[a].balance + PaidEffect(t.(status := newStatus), a) - PaidEffect(t, a))
  {
    if BalanceMoves(t, newStatus) then Credit(accounts, t.accountId.value, StatusBalanceChange(t, newStatus))
    else accounts
  }

  /** The accounts after moving `amount` from `from` to `to`. */
  function Transferred(accounts: map<Id, Account>, from: Id, to: Id, amount: int): (r: map<Id, Account>)
    requires from in accounts && to in accounts && from != to
    ensures r.Keys == accounts.Keys
    ensures r[from] == accounts[from].(balance := accounts[from].balance - amount)
    ensures r[to] == accounts[to].(balance := accounts[to].balance + amount)
    ensures forall k :: k in accounts && k != from && k != to ==> r[k] == accounts[k]
  {
    Credit(Credit(accounts, from, -amount), to, amount)
  }

  function Balances(accounts: map<Id, Account>): map<Id, int> {
    map k | k in accounts :: accounts[k].balance
  }

  /** The money held in all accounts together. */
  ghost function TotalBalance(accounts: map<Id, Account>): int {
    MapSum(Balances(accounts))
  }

  function PaidEffects(transactions: map<Id, Transaction>, a: Id): map<Id, int> {
    map k | k in transactions :: PaidEffect(transactions[k], a)
  }

  /** The net effect on account `a` of every PAID transaction linked to it. */
  ghost function PaidTotal(transactions: map<Id, Transaction>, a: Id): int {
    MapSum(PaidEffects(transactions, a))
  }

  function TransferEffect(x: Transfer, a: Id): int {
    (if x.toAccountId == a then x.amount else 0) - (if x.fromAccountId == a then x.amount else 0)
  }

  function TransferEffects(transfers: map<Id, Transfer>, a: Id): map<Id, int> {
    map k | k in transfers :: TransferEffect(transfers[k], a)
  }

  /** Transfers into `a` minus transfers out of `a`. */
  ghost function TransferTotal(transfers: map<Id, Transfer>, a: Id): int {
    MapSum(TransferEffects(transfers, a))
  }

  /**
   * The part of account `a`'s balance not explained by PAID transactions and transfers:
   * its opening balance plus manual edits. Status changes and transfers keep it.
   */
  ghost function Offset(accounts: map<Id, Account>, transactions: map<Id, Transaction>, transfers: map<Id, Transfer>, a: Id): int
    requires a in accounts
  {
    accounts[a].balance - PaidTotal(transactions, a) - TransferTotal(transfers, a)
  }

  lemma CreditTotal(accounts: map<Id, Account>, id: Id, delta: int)
    requires id in accounts
    ensures TotalBalance(Credit(accounts, id, delta)) == TotalBalance(accounts) + delta
  {
    assert Balances(Credit(accounts, id, delta)) == Balances(accounts)[id := accounts[id].balance + delta];
    MapSumUpdate(Balances(accounts), id, accounts[id].balance + delta);
  }

  /** A transfer neither creates nor destroys money. */
  lemma TransferConservesTotal(accounts: map<Id, Account>, from: Id, to: Id, amount: int)
    requires from in accounts && to in accounts && from != to
    ensures TotalBalance(Transferred(accounts, from, to, amount)) == TotalBalance(accounts)
  {
    CreditTotal(accounts, from, -amount);
    CreditTotal(Credit(accounts, from, -amount), to, amount);
  }

  lemma PaidTotalUpdate(transactions: map<Id, Transaction>, k: Id, t: Transaction, a: Id)
    requires k in transactions
    ensures PaidTotal(transactions[k := t], a) == PaidTotal(transactions, a) - PaidEffect(transactions[k], a) + PaidEffect(t, a)
  {
    assert PaidEffects(transactions[k := t], a) == PaidEffects(transactions, a)[k := PaidEffect(t, a)];
    MapSumUpdate(PaidEffects(transactions, a), k, PaidEffect(t, a));
  }

  lemma TransferTotalInsert(transfers: map<Id, Transfer>, k: Id, x: Transfer, a: Id)
    requires k !in transfers
    ensures TransferTotal(transfers[k := x], a) == TransferTotal(transfers, a) + TransferEffect(x, a)
  {
    assert TransferEffects(transfers[k := x], a) == TransferEffects(transfers, a)[k := TransferEffect(x, a)];
    MapSumUpdate(TransferEffects(transfers, a), k, TransferEffect(x, a));
  }

  /** A status change moves the linked balance by exactly the change in the transaction's PAID effect. */
  lemma StatusChangeKeepsOffset(
    accounts: map<Id, Account>, transactions: map<Id, Transaction>, transfers: map<Id, Transfer>,
    k: Id, newStatus: TxStatus, a: Id)
    requires k in transactions && a in accounts
    requires BalanceMoves(transactions[k], newStatus) ==> transactions[k].accountId.value in accounts
    ensures a in AccountsAfterStatus(accounts, transactions[k], newStatus)
    ensures Offset(AccountsAfterStatus(accounts, transactions[k], newStatus),
                   transactions[k := transactions[k].(status := newStatus)], transfers, a)
         == Offset(accounts, transactions, transfers, a)
  {
    var t := transactions[k];
    PaidTotalUpdate(transactions, k, t.(status := newStatus), a);
  }

  /** A transfer moves both balances by exactly the new record's effect on them. */
  lemma TransferKeepsOffset(
    accounts: map<Id, Account>, transactions: map<Id, Transaction>, transfers: map<Id, Transfer>,
    k: Id, x: Transfer, a: Id)
    requires k !in transfers && a in accounts
    requires x.fromAccountId in accounts && x.toAccountId in accounts && x.fromAccountId != x.toAccountId
    ensures Offset(Transferred(accounts, x.fromAccountId, x.toAccountId, x.amount), transactions, transfers[k := x], a)
         == Offset(accounts, transactions, transfers, a)
  {
    TransferTotalInsert(transfers, k, x, a);
  }

  /** Every account of the first state survives into the second with the same offset. */
  ghost predicate OffsetsKept(
    accounts: map<Id, Account>, transactions: map<Id, Transaction>, transfers: map<Id, Transfer>,
    accounts': map<Id, Account>, transactions': map<Id, Transaction>, transfers': map<Id, Transfer>)
  {
    forall a :: a in accounts ==>
      a in accounts' && Offset(accounts', transactions', transfers', a) == Offset(accounts, transactions, transfers, a)
  }

  lemma TransferKeepsOffsets(
    accounts: map<Id, Account>, transactions: map<Id, Transaction>, transfers: map<Id, Transfer>, k: Id, x: Transfer)
    requires k !in transfers
    requires x.fromAccountId in accounts && x.toAccountId in accounts && x.fromAccountId != x.toAccountId
    ensures OffsetsKept(accounts, transactions, transfers,
                        Transferred(accounts, x.fromAccountId, x.toAccountId, x.amount), transactions, transfers[k := x])
  {
    forall a | a in accounts
      ensures Offset(Transferred(accounts, x.fromAccountId, x.toAccountId, x.amount), transactions, transfers[k := x], a)
           == Offset(accounts, transactions, transfers, a)
    {
      TransferKeepsOffset(accounts, transactions, transfers, k, x, a);
    }
  }

  /** PENDING or SCHEDULED -> PAID -> PENDING or SCHEDULED leaves every balance as it was. */
  lemma StatusRoundTrip(accounts: map<Id, Account>, t: Transaction, back: TxStatus)
    requires t.status != Paid && back != Paid
    requires t.accountId.Some? ==> t.accountId.value in accounts
    ensures AccountsAfterStatus(AccountsAfterStatus(accounts, t, Paid), t.(status := Paid), back) == accounts
  {
    if t.accountId.Some? {
      var a := t.accountId.value;
      var once := Credit(accounts, a, StatusBalanceChange(t, Paid));
      assert StatusBalanceChange(t.(status := Paid), back) == -StatusBalanceChange(t, Paid);
      assert Credit(once, a, -StatusBalanceChange(t, Paid)) == accounts;
    }
  }
}
