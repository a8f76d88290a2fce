/** The relational store as an in-memory object: one table per record kind, keyed by id. */
module Store {
  import opened Common
  import opened Entities

  predicate IdsBelow<R>(m: map<Id, R>, n: Id) {
    forall k :: k in m ==> k < n
  }

  /** A transaction's bank account, when set, was allocated and, while it exists, has the same owner. */
  predicate AccountLinkOwned(t: Transaction, accounts: map<Id, Account>, n: Id) {
    t.accountId.Some? ==>
      t.accountId.value < n &&
      (t.accountId.value in accounts ==> accounts[t.accountId.value].owner == t.owner)
  }

  /** The same for a transaction's credit card. */
  predicate CardLinkOwned(t: Transaction, cards: map<Id, Card>, n: Id) {
    t.cardId.Some? ==>
      t.cardId.value < n &&
      (t.cardId.value in cards ==> cards[t.cardId.value].owner == t.owner)
  }

  /** No transaction refers to another user's account or card. */
  predicate LinksOwned(transactions: map<Id, Transaction>, accounts: map<Id, Account>, cards: map<Id, Card>, n: Id) {
    forall k :: k in transactions ==>
      AccountLinkOwned(transactions[k], accounts, n) && CardLinkOwned(transactions[k], cards, n)
  }

  /** The (owner, category, month, year) key of a budget. */
  predicate SameBudgetKey(a: Budget, b: Budget) {
    a.owner == b.owner && a.categoryId == b.categoryId && a.month == b.month && a.year == b.year
  }

  /** At most one budget per owner, category, month and year. */
  predicate BudgetKeysUnique(budgets: map<Id, Budget>) {
    forall i, j :: i in budgets && j in budgets && i != j ==> !SameBudgetKey(budgets[i], budgets[j])
  }

  /** Two categories with the same owner, name and parent collide. */
  predicate SameCategoryName(a: Category, b: Category) {
    a.owner == b.owner && a.name == b.name && a.parentId == b.parentId
  }

  /** No two categories collide. */
  predicate CategoryNamesUnique(categories: map<Id, Category>) {
    forall i, j :: i in categories && j in categories && i != j ==> !SameCategoryName(categories[i], categories[j])
  }

  /** Changing balances, or removing accounts, never breaks link ownership. */
  lemma LinksOwnedKeptByAccountChange(
    transactions: map<Id, Transaction>, accounts: map<Id, Account>, accounts': map<Id, Account>, cards: map<Id, Card>, n: Id)
    requires LinksOwned(transactions, accounts, cards, n)
    requires forall k :: k in accounts' ==> k in accounts && accounts'[k].owner == accounts[k].owner
    ensures LinksOwned(transactions, accounts', cards, n)
  {
    forall k | k in transactions
      ensures AccountLinkOwned(transactions[k], accounts', n)
    {
      assert AccountLinkOwned(transactions[k], accounts, n);
    }
  }

  class Database {
    var accounts: map<Id, Account>
    var cards: map<Id, Card>
    var categories: map<Id, Category>
    var transactions: map<Id, Transaction>
    var transfers: map<Id, Transfer>
    var budgets: map<Id, Budget>
    var goals: map<Id, Goal>
    var contributions: map<Id, Contribution>
    /** The next fresh primary key (the store's id generator). */
    var nextId: Id

    ghost predicate Valid()
      reads this
    {
      && IdsBelow(accounts, nextId)
      && IdsBelow(cards, nextId)
      && IdsBelow(categories, nextId)
      && IdsBelow(transactions, nextId)
      && IdsBelow(transfers, nextId)
      && IdsBelow(budgets, nextId)
      && IdsBelow(goals, nextId)
      && IdsBelow(contributions, nextId)
      && LinksOwned(transactions, accounts, cards, nextId)
      && BudgetKeysUnique(budgets)
      && CategoryNamesUnique(categories)
    }

    constructor ()
      ensures Valid()
      ensures accounts == map[] && cards == map[] && categories == map[] && transactions == map[]
      ensures transfers == map[] && budgets == map[] && goals == map[] && contributions == map[]
    {
      accounts, cards, categories, transactions := map[], map[], map[], map[];
      transfers, budgets, goals, contributions := map[], map[], map[], map[];
      nextId := 0;
    }

    /** Allocates a key that no table uses yet. */
    method NewId() returns (id: Id)
      requires Valid()
      modifies this`nextId
      ensures Valid()
      ensures id == old(nextId) && nextId == id + 1
      ensures id !in accounts && id !in cards && id !in categories && id !in transactions
      ensures id !in transfers && id !in budgets && id !in goals && id !in contributions
    {
      id := nextId;
      nextId := nextId + 1;
    }
  }
}
