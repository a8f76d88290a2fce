/** src/modules/transactions/transactions.service.ts: listing, CRUD and the status/balance state machine. */
module Transactions {
  import opened Common
  import opened Entities
  import opened Store
  import opened Ledger
  import opened Sorting

  // ---------------------------------------------------------------- listing

  /** The query filters of `getAllTransactions` (the free-text `search` is not modelled). */
  datatype TransactionFilters = TransactionFilters(
    page: Option<int>,
    limit: Option<int>,
    txType: Option<TxType>,
    status: Option<TxStatus>,
    categoryId: Option<Id>,
    paymentMethod: Option<PaymentMethod>,
    startDate: Option<Date>,
    endDate: Option<Date>)

  /** `totalPages` is `None` where `Math.ceil(total / 0)` gives `Infinity` or `NaN`, which JSON writes as `null`. */
  datatype Page = Page(data: seq<Transaction>, page: int, limit: int, total: nat, totalPages: Option<nat>)

  /** `page = 1` and `limit = 20` when absent. */
  function PageOf(f: TransactionFilters): int {
    if f.page.Some? then f.page.value else 1
  }

  function LimitOf(f: TransactionFilters): int {
    if f.limit.Some? then f.limit.value else 20
  }

  /** The Prisma `where` of the listing; the date range applies only when both ends are given. */
  predicate Matches(t: Transaction, user: UserId, f: TransactionFilters) {
    && t.owner == user
    && (f.txType.Some? ==> t.txType == f.txType.value)
    && (f.status.Some? ==> t.status == f.status.value)
    && (f.categoryId.Some? ==> t.categoryId == f.categoryId.value)
    && (f.paymentMethod.Some? ==> t.paymentMethod == f.paymentMethod)
    && (f.startDate.Some? && f.endDate.Some? ==> InRange(t.date, f.startDate.value, f.endDate.value))
  }

  function Matching(rows: seq<Transaction>, user: UserId, f: TransactionFilters): (r: seq<Transaction>)
    ensures |r| <= |rows|
    ensures forall t :: t in r <==> t in rows && Matches(t, user, f)
  {
    Filter(rows, t => Matches(t, user, f))
  }

  /** `orderBy: { date: 'desc' }`. */
  function DateKey(t: Transaction): int {
    Ordinal(t.date)
  }

  /**
   * `skip = (page - 1) * limit`, with `page` and `limit` straight from `parseInt`: negative
   * exactly when a page below 1 meets a positive limit, and 0 on page 1 or with no limit.
   */
  function Skip(page: int, limit: nat): (s: int)
    ensures s < 0 <==> page < 1 && limit > 0
    ensures s == 0 <==> page == 1 || limit == 0
  {
    if page < 1 && limit > 0 then
      assert (page - 1) * limit + limit <= 0 by {
        assert (1 - page) * limit >= 1 * limit;
      }
      (page - 1) * limit
    else
      assert page > 1 && limit > 0 ==> (page - 1) * limit >= limit;
      (page - 1) * limit
  }

  /**
   * `Math.ceil(total / limit)`: the least page count that holds `total` rows; no number at all
   * when `limit` is 0.
   */
  function TotalPages(total: nat, limit: nat): (n: Option<nat>)
    ensures n.None? <==> limit == 0
    ensures n.Some? ==> n.value * limit >= total
    ensures n.Some? ==> (n.value - 1) * limit < total || n.value == 0
  {
    if limit == 0 then None
    else
      var q := (total + limit - 1) / limit;
      var m := (total + limit - 1) % limit;
      assert q * limit + m == total + limit - 1;
      Some(q)
  }

  /** Prisma's `skip`/`take` window over the ordered rows. */
  function Window(all: seq<Transaction>, skip: nat, limit: nat): (r: seq<Transaction>)
    ensures |r| <= limit
    ensures skip >= |all| ==> r == []
    ensures skip < |all| ==> skip + |r| <= |all| && r == all[skip..skip + |r|] && (|r| == limit || skip + |r| == |all|)
    ensures forall t :: t in r ==> t in all
    ensures SortedDesc(all, DateKey) ==> SortedDesc(r, DateKey)
  {
    if skip >= |all| then [] else Take(all[skip..], limit)
  }

  /** Sorting the matching rows keeps exactly the matching rows. */
  lemma SortedMatching(rows: seq<Transaction>, user: UserId, f: TransactionFilters)
    ensures forall t :: t in SortDesc(Matching(rows, user, f), DateKey) <==> t in rows && Matches(t, user, f)
  {
    var s := Matching(rows, user, f);
    var all := SortDesc(s, DateKey);
    forall t ensures t in all <==> t in s {
      assert t in all <==> t in multiset(all);
      assert t in s <==> t in multiset(s);
    }
  }

  /**
   * `getAllTransactions` over the rows of the table: the matching rows, newest first, the
   * `page`-th window of `limit` of them, and the pagination block. A page below 1 with a
   * positive limit makes a negative `skip`, which Prisma refuses with a validation error that
   * the error handler answers with 400.
   */
  function ListTransactions(rows: seq<Transaction>, user: UserId, f: TransactionFilters): (r: Result<Page>)
    requires LimitOf(f) >= 0
    ensures r.Failure? <==> PageOf(f) < 1 && LimitOf(f) > 0
    ensures r.Failure? ==> r.error == BadRequest
    ensures r.Success? ==>
      && r.value.page == PageOf(f) && r.value.limit == LimitOf(f)
      && r.value.total == |Matching(rows, user, f)|
      && r.value.totalPages == TotalPages(r.value.total, r.value.limit)
      && |r.value.data| <= r.value.limit
      && (forall t :: t in r.value.data ==> t in rows && Matches(t, user, f))
      && SortedDesc(r.value.data, DateKey)
      && r.value.data == Window(SortDesc(Matching(rows, user, f), DateKey), Skip(r.value.page, r.value.limit), r.value.limit)
    ensures r.Success? && LimitOf(f) == 0 ==> r.value.data == [] && r.value.totalPages == None
  {
    var page, limit := PageOf(f), LimitOf(f);
    var skip := Skip(page, limit);
    if skip < 0 then Failure(BadRequest)
    else
      var matching := Matching(rows, user, f);
      SortedMatching(rows, user, f);
      var data := Window(SortDesc(matching, DateKey), skip, limit);
      Success(Page(data, page, limit, |matching|, TotalPages(|matching|, limit)))
  }

  // ---------------------------------------------------------------- create, read, update, delete

  /** The validated body of `createTransaction` (description, notes, tags and recurrence are not modelled). */
  datatype TransactionData = TransactionData(
    amount: int,
    date: Date,
    txType: TxType,
    status: TxStatus,
    paymentMethod: PaymentMethod,
    categoryId: Id,
    cardId: Option<Id>,
    accountId: Option<Id>)

  function NewTransaction(user: UserId, d: TransactionData): Transaction {
    Transaction(user, d.amount, d.date, d.txType, d.status, Some(d.paymentMethod), d.categoryId, d.cardId, d.accountId)
  }

  /** The fields `updateTransaction` may change; an absent field keeps its value. */
  datatype TransactionPatch = TransactionPatch(
    amount: Option<int>,
    date: Option<Date>,
    txType: Option<TxType>,
    status: Option<TxStatus>,
    paymentMethod: Option<PaymentMethod>,
    categoryId: Option<Id>,
    cardId: Option<Id>,
    accountId: Option<Id>)

  function Or<T>(o: Option<T>, default: T): T {
    if o.Some? then o.value else default
  }

  function ApplyTransactionPatch(t: Transaction, p: TransactionPatch): (r: Transaction)
    ensures r.owner == t.owner
  {
    Transaction(
      t.owner,
      Or(p.amount, t.amount),
      Or(p.date, t.date),
      Or(p.txType, t.txType),
      Or(p.status, t.status),
      if p.paymentMethod.Some? then p.paymentMethod else t.paymentMethod,
      Or(p.categoryId, t.categoryId),
      if p.cardId.Some? then p.cardId else t.cardId,
      if p.accountId.Some? then p.accountId else t.accountId)
  }

  predicate OwnsTransaction(transactions: map<Id, Transaction>, id: Id, user: UserId) {
    id in transactions && transactions[id].owner == user
  }

  /** The guards of `createTransaction`: a visible category, and the user's own card and account when given. */
  predicate CreateAllowed(
    categories: map<Id, Category>, cards: map<Id, Card>, accounts: map<Id, Account>, user: UserId, d: TransactionData)
  {
    && VisibleCategoryId(categories, d.categoryId, user)
    && (d.cardId.Some? ==> OwnsCard(cards, d.cardId.value, user))
    && (d.accountId.Some? ==> OwnsAccount(accounts, d.accountId.value, user))
  }

  /** The guards `updateTransaction` performs as written: ownership, and a visible category when one is given. */
  predicate UpdateAllowedAsWritten(
    categories: map<Id, Category>, transactions: map<Id, Transaction>, user: UserId, id: Id, p: TransactionPatch)
  {
    && OwnsTransaction(transactions, id, user)
    && (p.categoryId.Some? ==> VisibleCategoryId(categories, p.categoryId.value, user))
  }

  /** The guards it evidently intends: also the card and account checks that `createTransaction` makes. */
  predicate UpdateAllowed(
    categories: map<Id, Category>, cards: map<Id, Card>, accounts: map<Id, Account>,
    transactions: map<Id, Transaction>, user: UserId, id: Id, p: TransactionPatch)
  {
    && UpdateAllowedAsWritten(categories, transactions, user, id, p)
    && (p.cardId.Some? ==> OwnsCard(cards, p.cardId.value, user))
    && (p.accountId.Some? ==> OwnsAccount(accounts, p.accountId.value, user))
  }

  /**
   * The as-written guard lets a user attach another user's account to their own transaction:
   * the store then no longer satisfies `LinksOwned`.
   */
  lemma UpdateAsWrittenLinksForeignAccount()
    ensures
      var categories := map[0 := Category(1, "Food", None, true)];
      var accounts := map[1 := Account(2, 1000, true)];
      var t := Transaction(1, 50, Date(2024, 5, 10), Expense, Pending, Some(Pix), 0, None, None);
      var transactions := map[2 := t];
      var p := TransactionPatch(None, None, None, None, None, None, None, Some(1));
      && LinksOwned(transactions, accounts, map[], 3)
      && UpdateAllowedAsWritten(categories, transactions, 1, 2, p)
      && !LinksOwned(transactions[2 := ApplyTransactionPatch(t, p)], accounts, map[], 3)
      && !UpdateAllowed(categories, map[], accounts, transactions, 1, 2, p)
  {
    var categories := map[0 := Category(1, "Food", None, true)];
    var accounts := map[1 := Account(2, 1000, true)];
    var t := Transaction(1, 50, Date(2024, 5, 10), Expense, Pending, Some(Pix), 0, None, None);
    var transactions := map[2 := t];
    var p := TransactionPatch(None, None, None, None, None, None, None, Some(1));
    assert VisibleCategoryId(categories, 0, 1);
    assert OwnsTransaction(transactions, 2, 1);
    var updated := transactions[2 := ApplyTransactionPatch(t, p)];
    assert updated[2].accountId == Some(1) && updated[2].owner == 1;
    assert !AccountLinkOwned(updated[2], accounts, 3);
    assert !OwnsAccount(accounts, 1, 1);
  }

  /** The corrected guard keeps every transaction's links with its owner. */
  lemma UpdateKeepsLinksOwned(
    categories: map<Id, Category>, cards: map<Id, Card>, accounts: map<Id, Account>,
    transactions: map<Id, Transaction>, n: Id, user: UserId, id: Id, p: TransactionPatch)
    requires LinksOwned(transactions, accounts, cards, n) && IdsBelow(accounts, n) && IdsBelow(cards, n)
    requires UpdateAllowed(categories, cards, accounts, transactions, user, id, p)
    ensures LinksOwned(transactions[id := ApplyTransactionPatch(transactions[id], p)], accounts, cards, n)
  {
    var t' := ApplyTransactionPatch(transactions[id], p);
    assert AccountLinkOwned(transactions[id], accounts, n) && CardLinkOwned(transactions[id], cards, n);
    assert AccountLinkOwned(t', accounts, n) && CardLinkOwned(t', cards, n);
  }

  /** Creating a PAID transaction on an account does not move its balance, so its offset shifts. */
  lemma CreatePaidShiftsOffset(
    accounts: map<Id, Account>, transactions: map<Id, Transaction>, transfers: map<Id, Transfer>,
    id: Id, t: Transaction, a: Id)
    requires id !in transactions && a in accounts
    ensures Offset(accounts, transactions[id := t], transfers, a) == Offset(accounts, transactions, transfers, a) - PaidEffect(t, a)
  {
    assert PaidEffects(transactions[id := t], a) == PaidEffects(transactions, a)[id := PaidEffect(t, a)];
    Sums.MapSumUpdate(PaidEffects(transactions, a), id, PaidEffect(t, a));
  }

  /** `getTransactionById`: 404 unless the transaction exists and belongs to the user. */
  method GetTransactionById(db: Database, user: UserId, id: Id) returns (r: Result<Transaction>)
    ensures r.Success? <==> OwnsTransaction(db.transactions, id, user)
    ensures r.Success? ==> r.value == db.transactions[id]
    ensures r.Failure? ==> r.error == NotFound
  {
    if id in db.transactions && db.transactions[id].owner == user {
      r := Success(db.transactions[id]);
    } else {
      r := Failure(NotFound);
    }
  }

  /** `createTransaction`: after the guards, one new row; no balance is touched, whatever the status. */
  method CreateTransaction(db: Database, user: UserId, d: TransactionData) returns (r: Result<Id>)
    requires db.Valid()
    requires d.amount > 0
    modifies db`transactions, db`nextId
    ensures db.Valid()
    ensures db.accounts == old(db.accounts)
    ensures r.Success? <==> CreateAllowed(db.categories, db.cards, db.accounts, user, d)
    ensures r.Failure? ==> r.error == NotFound && unchanged(db)
    ensures r.Success? ==>
      r.value !in old(db.transactions) && db.transactions == old(db.transactions)[r.value := NewTransaction(user, d)]
  {
    if !(d.categoryId in db.categories && CategoryVisible(db.categories[d.categoryId], user)) {
      return Failure(NotFound);
    }
    if d.cardId.Some? && !(d.cardId.value in db.cards && db.cards[d.cardId.value].owner == user) {
      return Failure(NotFound);
    }
    if d.accountId.Some? && !(d.accountId.value in db.accounts && db.accounts[d.accountId.value].owner == user) {
      return Failure(NotFound);
    }
    var id := db.NewId();
    var t := NewTransaction(user, d);
    assert AccountLinkOwned(t, db.accounts, db.nextId) && CardLinkOwned(t, db.cards, db.nextId);
    db.transactions := db.transactions[id := t];
    r := Success(id);
  }

  /**
   * `updateTransaction`, with the card and account ownership checks of `createTransaction`
   * (see `UpdateAsWrittenLinksForeignAccount`); no balance is touched, even when the status
   * becomes or stops being PAID.
   */
  method UpdateTransaction(db: Database, user: UserId, id: Id, p: TransactionPatch) returns (r: Result<Transaction>)
    requires db.Valid()
    requires p.amount.Some? ==> p.amount.value > 0
    modifies db`transactions
    ensures db.Valid()
    ensures db.accounts == old(db.accounts)
    ensures r.Success? <==> UpdateAllowed(db.categories, db.cards, db.accounts, old(db.transactions), user, id, p)
    ensures r.Failure? ==> r.error == NotFound && db.transactions == old(db.transactions)
    ensures r.Success? ==>
      r.value == ApplyTransactionPatch(old(db.transactions)[id], p) && db.transactions == old(db.transactions)[id := r.value]
  {
    var found := GetTransactionById(db, user, id);
    if found.Failure? {
      return Failure(NotFound);
    }
    if p.categoryId.Some? && !(p.categoryId.value in db.categories && CategoryVisible(db.categories[p.categoryId.value], user)) {
      return Failure(NotFound);
    }
    if p.cardId.Some? && !(p.cardId.value in db.cards && db.cards[p.cardId.value].owner == user) {
      return Failure(NotFound);
    }
    if p.accountId.Some? && !(p.accountId.value in db.accounts && db.accounts[p.accountId.value].owner == user) {
      return Failure(NotFound);
    }
    UpdateKeepsLinksOwned(db.categories, db.cards, db.accounts, db.transactions, db.nextId, user, id, p);
    var updated := ApplyTransactionPatch(found.value, p);
    db.transactions := db.transactions[id := updated];
    r := Success(updated);
  }

  /** `deleteTransaction`: 404 unless owned; otherwise the row goes and no balance is touched. */
  method DeleteTransaction(db: Database, user: UserId, id: Id) returns (r: Result<()>)
    requires db.Valid()
    modifies db`transactions
    ensures db.Valid()
    ensures db.accounts == old(db.accounts)
    ensures r.Success? <==> OwnsTransaction(old(db.transactions), id, user)
    ensures r.Failure? ==> r.error == NotFound && db.transactions == old(db.transactions)
    ensures r.Success? ==> db.transactions == old(db.transactions) - {id}
  {
    var found := GetTransactionById(db, user, id);
    if found.Failure? {
      return Failure(NotFound);
    }
    db.transactions := db.transactions - {id};
    r := Success(());
  }

  /** Whether `updateTransactionStatus` commits: the row is the user's and any balance it must move exists. */
  predicate StatusChangeCommits(accounts: map<Id, Account>, transactions: map<Id, Transaction>, user: UserId, id: Id, s: TxStatus) {
    && OwnsTransaction(transactions, id, user)
    && (BalanceMoves(transactions[id], s) ==> transactions[id].accountId.value in accounts)
  }

  /**
   * `updateTransactionStatus`: writes the status and, on an edge into or out of PAID, increments
   * the linked account by the signed amount, as one atomic unit. An increment on an account row
   * that no longer exists fails (Prisma's P2025, a 404) and rolls the status write back.
   */
  method UpdateTransactionStatus(db: Database, user: UserId, id: Id, newStatus: TxStatus) returns (r: Result<Transaction>)
    requires db.Valid()
    modifies db`transactions, db`accounts
    ensures db.Valid()
    ensures r.Success? <==> StatusChangeCommits(old(db.accounts), old(db.transactions), user, id, newStatus)
    ensures r.Failure? ==> r.error == NotFound && unchanged(db)
    ensures r.Success? ==>
      && r.value == old(db.transactions)[id].(status := newStatus)
      && db.transactions == old(db.transactions)[id := r.value]
      && db.accounts == AccountsAfterStatus(old(db.accounts), old(db.transactions)[id], newStatus)
    ensures r.Success? ==> forall a :: a in old(db.accounts) && db.accounts[a] != old(db.accounts)[a] ==>
      old(db.accounts)[a].owner == user
  {
    var found := GetTransactionById(db, user, id);
    if found.Failure? {
      return Failure(NotFound);
    }
    var t := found.value;
    var oldStatus := t.status;
    var saved := db.transactions;

    db.transactions := db.transactions[id := t.(status := newStatus)];
    assert AccountLinkOwned(t, db.accounts, db.nextId);

    if oldStatus != Paid && newStatus == Paid && t.accountId.Some? {
      var a := t.accountId.value;
      if a !in db.accounts {
        db.transactions := saved;
        return Failure(NotFound);
      }
      var balanceChange := if t.txType == Income then t.amount else -t.amount;
      LinksOwnedKeptByAccountChange(db.transactions, db.accounts, Credit(db.accounts, a, balanceChange), db.cards, db.nextId);
      db.accounts := Credit(db.accounts, a, balanceChange);
    }

    if oldStatus == Paid && newStatus != Paid && t.accountId.Some? {
      var a := t.accountId.value;
      if a !in db.accounts {
        db.transactions := saved;
        return Failure(NotFound);
      }
      var balanceChange := if t.txType == Income then -t.amount else t.amount;
      LinksOwnedKeptByAccountChange(db.transactions, db.accounts, Credit(db.accounts, a, balanceChange), db.cards, db.nextId);
      db.accounts := Credit(db.accounts, a, balanceChange);
    }

    r := Success(t.(status := newStatus));
  }
}
