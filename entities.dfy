/** The stored records (one datatype per table row) and the category visibility rule. */
module Entities {
  import opened Common

  datatype TxType = Income | Expense

  datatype TxStatus = Paid | Pending | Scheduled

  /** CASH, PIX, DEBIT_CARD, CREDIT_CARD, BANK_SLIP, TRANSFER, OTHER. */
  datatype PaymentMethod = Cash | Pix | DebitCard | CreditCard | BankSlip | BankTransfer | Other

  datatype Account = Account(owner: UserId, balance: int, isActive: bool)

  datatype Card = Card(owner: UserId)

  /** Default categories belong to the system user and carry `isDefault`. */
  datatype Category = Category(owner: UserId, name: string, parentId: Option<Id>, isDefault: bool)

  /** A transaction; `amount` is always positive, its sign is implied by `txType`. */
  datatype Transaction = Transaction(
    owner: UserId,
    amount: int,
    date: Date,
    txType: TxType,
    status: TxStatus,
    paymentMethod: Option<PaymentMethod>,
    categoryId: Id,
    cardId: Option<Id>,
    accountId: Option<Id>)

  datatype Transfer = Transfer(owner: UserId, fromAccountId: Id, toAccountId: Id, amount: int, date: Date)

  datatype Budget = Budget(
    owner: UserId,
    categoryId: Id,
    month: int,
    year: int,
    limit: int,
    spent: int,
    alertAt70: bool,
    alertAt90: bool,
    alertAt100: bool)

  datatype GoalStatus = InProgress | Completed | Cancelled

  datatype Goal = Goal(owner: UserId, targetAmount: int, currentAmount: int, status: GoalStatus)

  datatype Contribution = Contribution(goalId: Id, amount: int, date: Date)

  /** `findFirst({ id, userId })` on the bank accounts finds a row. */
  predicate OwnsAccount(accounts: map<Id, Account>, id: Id, user: UserId) {
    id in accounts && accounts[id].owner == user
  }

  /** The same on the credit cards. */
  predicate OwnsCard(cards: map<Id, Card>, id: Id, user: UserId) {
    id in cards && cards[id].owner == user
  }

  /** A user may read a category they own or any default category. */
  predicate CategoryVisible(c: Category, user: UserId) {
    c.owner == user || c.isDefault
  }

  /** `findFirst({ id, OR: [{ userId }, { isDefault: true }] })` finds a row. */
  predicate VisibleCategoryId(categories: map<Id, Category>, id: Id, user: UserId) {
    id in categories && CategoryVisible(categories[id], user)
  }
}
