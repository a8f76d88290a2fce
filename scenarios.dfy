/** Concrete runs of the services, as a client would make them. */
module Scenarios {
  import opened Common
  import opened Entities
  import opened Store
  import opened Ledger
  import opened Accounts
  import opened Transactions
  import opened Reports

  /** Accounts A = 100 and B = 0: moving 40 leaves 60 and 40; moving 1000 more is refused with 400. */
  method TransferScenario(db: Database, user: UserId) returns (a: Id, b: Id, refused: Result<Id>)
    requires db.Valid()
    modifies db`accounts, db`transfers, db`nextId
    ensures db.Valid()
    ensures a in db.accounts && b in db.accounts
    ensures db.accounts[a].balance == 60 && db.accounts[b].balance == 40
    ensures refused == Failure(BadRequest)
  {
    a := CreateAccount(db, user, 100);
    b := CreateAccount(db, user, 0);
    var today := Date(2024, 5, 10);
    assert a != b && OwnsAccount(db.accounts, a, user) && OwnsAccount(db.accounts, b, user);
    var ok := CreateTransfer(db, user, a, b, 40, today);
    assert ok.Success?;
    assert db.accounts[a].balance == 60 && db.accounts[b].balance == 40;
    refused := CreateTransfer(db, user, a, b, 1000, today);
  }

  /** A PENDING 50 EXPENSE on an account of 200: PAID leaves 150, back to PENDING restores 200. */
  method StatusScenario(db: Database, user: UserId, categoryId: Id) returns (c: Id, t: Id, balanceWhilePaid: int)
    requires db.Valid()
    requires VisibleCategoryId(db.categories, categoryId, user)
    modifies db`accounts, db`transactions, db`nextId
    ensures db.Valid()
    ensures balanceWhilePaid == 150
    ensures c in db.accounts && db.accounts[c].balance == 200
  {
    c := CreateAccount(db, user, 200);
    var d := TransactionData(50, Date(2024, 5, 10), Expense, Pending, Pix, categoryId, None, Some(c));
    var created := CreateTransaction(db, user, d);
    assert created.Success?;
    t := created.value;
    var paid := UpdateTransactionStatus(db, user, t, Paid);
    assert paid.Success?;
    balanceWhilePaid := db.accounts[c].balance;
    var pending := UpdateTransactionStatus(db, user, t, Pending);
    assert pending.Success?;
  }

  /** A month with a PAID income of 500, a PAID expense of 300 and a PENDING expense of 100. */
  lemma SummaryScenario()
    ensures
      var rows := [Transaction(1, 500, Date(2024, 5, 2), Income, Paid, Some(Pix), 10, None, None),
                   Transaction(1, 300, Date(2024, 5, 8), Expense, Paid, Some(Cash), 11, None, None),
                   Transaction(1, 100, Date(2024, 5, 9), Expense, Pending, Some(Cash), 11, None, None)];
      var s := GetMonthlySummary(rows, 1, 5, 2024);
      s.totalIncome == 500 && s.totalExpense == 300 && s.balance == 200
  {
    var rows := [Transaction(1, 500, Date(2024, 5, 2), Income, Paid, Some(Pix), 10, None, None),
                 Transaction(1, 300, Date(2024, 5, 8), Expense, Paid, Some(Cash), 11, None, None),
                 Transaction(1, 100, Date(2024, 5, 9), Expense, Pending, Some(Cash), 11, None, None)];
    var start, end := MonthStart(2024, 5), MonthEnd(2024, 5);
    assert PaidIn(rows[0], 1, start, end) && PaidIn(rows[1], 1, start, end) && !PaidIn(rows[2], 1, start, end);
    assert rows[..2] == [rows[0], rows[1]] && [rows[0], rows[1]][..1] == [rows[0]] && [rows[0]][..0] == [];
    assert PaidRows([rows[0]], 1, start, end) == [rows[0]];
    assert PaidRows([rows[0], rows[1]], 1, start, end) == [rows[0], rows[1]];
    var paid := PaidRows(rows, 1, start, end);
    assert paid == [rows[0], rows[1]];
    assert OfType([rows[0]], Income) == [rows[0]] && OfType([rows[0]], Expense) == [];
    assert OfType(paid, Income) == [rows[0]];
    assert OfType(paid, Expense) == [rows[1]];
    assert [rows[1]][..0] == [] && [rows[0]][..0] == [];
  }
}
