/** Each currency keeps its own books: its settlement account and its wallets are moved by nothing else. */
module Currencies {
  import opened Common
  import opened LedgerModel
  import opened LedgerSafety
  import opened LedgerTheorems
  import opened MapSum
  import opened WalletModel

  /** Two supported currencies share a ledger if and only if they are the same. */
  lemma SameLedgerExactly(a: string, b: string)
    requires a in CURRENCY_LEDGERS && b in CURRENCY_LEDGERS
    ensures CURRENCY_LEDGERS[a] == CURRENCY_LEDGERS[b] <==> a == b
  {
  }

  /** The account is a wallet's in this currency, or the currency's settlement account. */
  predicate Belongs(currencies: map<Id, string>, a: AccountId, code: string)
    requires code in CURRENCY_LEDGERS
  {
    match a
    case WalletAccount(w) => Names(currencies, w, code)
    case SettlementAccount(number) => number == CURRENCY_LEDGERS[code]
  }

  /** No account belongs to two currencies. */
  lemma BelongsToOne(currencies: map<Id, string>, a: AccountId, x: string, y: string)
    requires x in CURRENCY_LEDGERS && y in CURRENCY_LEDGERS
    requires Belongs(currencies, a, x) && Belongs(currencies, a, y)
    ensures x == y
  {
    SameLedgerExactly(x, y);
    hide CURRENCY_LEDGERS;
  }

  // ---- No currency touches another

  /** The call moves money in this currency, or opens an account in it. */
  predicate IsIn(call: Command, code: string) {
    match call
    case DepositCall(p) => p.currency == code
    case TransferCall(p) => p.senderCurrency == code && p.recipientCurrency == code
    case EnsureCall(_, currency) => currency == code
  }

  /** The currency's accounts are the same, and so is what stands in them. */
  ghost predicate BooksAgree(c: Cluster, c': Cluster, currencies: map<Id, string>, code: string)
    requires code in CURRENCY_LEDGERS
  {
    forall a :: Belongs(currencies, a, code) ==>
      && (a in c'.accounts <==> a in c.accounts)
      && (a in c.accounts ==> c'.accounts[a] == c.accounts[a])
  }

  lemma BooksAgreeTwice(a: Cluster, b: Cluster, c: Cluster, currencies: map<Id, string>, code: string)
    requires code in CURRENCY_LEDGERS
    requires BooksAgree(a, b, currencies, code) && BooksAgree(b, c, currencies, code)
    ensures BooksAgree(a, c, currencies, code)
  {
    hide Belongs;
  }

  lemma EnsureLeaves(c: Cluster, currencies: map<Id, string>, own: string, wallet: Id, d: Delivery, code: string)
    requires code in CURRENCY_LEDGERS && own in CURRENCY_LEDGERS && own != code && Names(currencies, wallet, own)
    ensures BooksAgree(c, EnsureAccounts(c, CURRENCY_LEDGERS[own], wallet, d).0, currencies, code)
  {
    SameLedgerExactly(own, code);
    hide CURRENCY_LEDGERS;
  }

  lemma SubmitLeaves(c: Cluster, currencies: map<Id, string>, t: Transfer, overdraft: LedgerError, w: Weather,
      own: string, code: string)
    requires code in CURRENCY_LEDGERS && own in CURRENCY_LEDGERS && own != code
    requires Belongs(currencies, t.debit, own) && Belongs(currencies, t.credit, own)
    ensures BooksAgree(c, Submit(c, t, overdraft, w).0, currencies, code)
  {
    SubmitCases(c, t, overdraft, w);
    SameLedgerExactly(own, code);
    hide CURRENCY_LEDGERS, Submit, Find;
  }

  lemma DepositLeaves(c: Cluster, currencies: map<Id, string>, p: DepositParam, w: Weather, code: string)
    requires Supported(currencies) && Names(currencies, p.wallet, p.currency)
    requires code in CURRENCY_LEDGERS && p.currency != code
    ensures BooksAgree(c, Deposit(c, p, w).0, currencies, code)
  {
    hide CURRENCY_LEDGERS, EnsureAccounts, Submit, BooksAgree;
    Nothing(c, currencies, code);
    if DepositRequest(p).Some? {
      var t := DepositRequest(p).value;
      var c1 := EnsureAccounts(c, t.ledger, p.wallet, w.first).0;
      EnsureLeaves(c, currencies, p.currency, p.wallet, w.first, code);
      SubmitLeaves(c1, currencies, t, Rejected, w, p.currency, code);
      BooksAgreeTwice(c, c1, Submit(c1, t, Rejected, w).0, currencies, code);
    }
  }

  lemma Nothing(c: Cluster, currencies: map<Id, string>, code: string)
    requires code in CURRENCY_LEDGERS
    ensures BooksAgree(c, c, currencies, code)
  {
  }

  lemma TransferLeaves(c: Cluster, currencies: map<Id, string>, p: TransferParam, w: Weather, code: string)
    requires Supported(currencies) && NamesWallets(currencies, TransferCall(p))
    requires code in CURRENCY_LEDGERS && !IsIn(TransferCall(p), code)
    ensures BooksAgree(c, InternalTransfer(c, p, w).0, currencies, code)
  {
    hide CURRENCY_LEDGERS, EnsureAccounts, Submit, BooksAgree, EqualFold;
    Nothing(c, currencies, code);
    SupportedFoldsToItself(p.senderCurrency, p.recipientCurrency);
    if TransferRequest(p).1.Some? {
      var t, own := TransferRequest(p).1.value, p.senderCurrency;
      var c1 := EnsureAccounts(c, t.ledger, p.sender, w.first).0;
      var c2 := EnsureAccounts(c1, t.ledger, p.recipient, w.second).0;
      EnsureLeaves(c, currencies, own, p.sender, w.first, code);
      EnsureLeaves(c1, currencies, own, p.recipient, w.second, code);
      BooksAgreeTwice(c, c1, c2, currencies, code);
      SubmitLeaves(c2, currencies, t, InsufficientFunds, w, own, code);
      BooksAgreeTwice(c, c2, Submit(c2, t, InsufficientFunds, w).0, currencies, code);
    }
  }

  /** A call changes no account of a currency it is not in: no wallet's, and not the settlement account. */
  lemma CallLeavesOtherCurrencies(c: Cluster, currencies: map<Id, string>, call: Command, w: Weather, code: string)
    requires Supported(currencies) && NamesWallets(currencies, call)
    requires code in CURRENCY_LEDGERS && !IsIn(call, code)
    ensures BooksAgree(c, Perform(c, call, w).0, currencies, code)
  {
    hide CURRENCY_LEDGERS, EnsureAccounts, Deposit, InternalTransfer, BooksAgree;
    Nothing(c, currencies, code);
    match call
    case DepositCall(p) => DepositLeaves(c, currencies, p, w, code);
    case TransferCall(p) => TransferLeaves(c, currencies, p, w, code);
    case EnsureCall(wallet, currency) => EnsureLeaves(c, currencies, currency, wallet, w.first, code);
  }

  /** Nor does any history of such calls. */
  lemma {:induction false} HistoryLeavesOtherCurrencies(c: Cluster, currencies: map<Id, string>,
      calls: seq<(Command, Weather)>, code: string)
    requires Supported(currencies) && code in CURRENCY_LEDGERS
    requires forall i :: 0 <= i < |calls| ==> NamesWallets(currencies, calls[i].0) && !IsIn(calls[i].0, code)
    ensures BooksAgree(c, PerformAll(c, calls), currencies, code)
    decreases |calls|
  {
    hide CURRENCY_LEDGERS, Perform, BooksAgree, IsIn, NamesWallets, Supported;
    if calls == [] {
      Nothing(c, currencies, code);
    } else {
      var c1 := Perform(c, calls[0].0, calls[0].1).0;
      CallLeavesOtherCurrencies(c, currencies, calls[0].0, calls[0].1, code);
      HistoryLeavesOtherCurrencies(c1, currencies, calls[1..], code);
      BooksAgreeTwice(c, c1, PerformAll(c1, calls[1..]), currencies, code);
    }
  }

  // ---- Every currency's books balance

  /** What stands in a currency's accounts. */
  ghost function CurrencyNets(c: Cluster, currencies: map<Id, string>, code: string): map<AccountId, int>
    requires code in CURRENCY_LEDGERS
  {
    map a | a in c.accounts && Belongs(currencies, a, code) :: c.accounts[a].credits - c.accounts[a].debits
  }

  lemma AccountOnItsLedger(c: Cluster, currencies: map<Id, string>, a: AccountId, code: string)
    requires ClusterOk(c) && OnOwnLedgers(c, currencies) && code in CURRENCY_LEDGERS && a in c.accounts
    ensures Belongs(currencies, a, code) <==> c.accounts[a].spec.ledger == CURRENCY_LEDGERS[code]
  {
    hide LogOk;
    assert SpecOk(a, c.accounts[a].spec);
    if a.WalletAccount? {
      SameLedgerExactly(currencies[a.wallet], code);
    }
    hide CURRENCY_LEDGERS;
  }

  lemma NetsOfCurrency(c: Cluster, currencies: map<Id, string>, code: string)
    requires ClusterOk(c) && OnOwnLedgers(c, currencies) && code in CURRENCY_LEDGERS
    ensures CurrencyNets(c, currencies, code) == Nets(c, CURRENCY_LEDGERS[code])
  {
    hide CURRENCY_LEDGERS, ClusterOk, OnOwnLedgers, Belongs;
    forall a | a in c.accounts
      ensures Belongs(currencies, a, code) <==> c.accounts[a].spec.ledger == CURRENCY_LEDGERS[code]
    {
      AccountOnItsLedger(c, currencies, a, code);
    }
  }

  /** After any history that names each wallet with its own currency, with any replies lost: a currency's
      settlement account and its wallets' accounts sum to nothing, and every wallet's entries are on the
      ledger of its currency. */
  lemma EachCurrencyBalances(currencies: map<Id, string>, calls: seq<(Command, Weather)>, code: string)
    requires Supported(currencies) && code in CURRENCY_LEDGERS
    requires forall i :: 0 <= i < |calls| ==> NamesWallets(currencies, calls[i].0)
    ensures Sum(CurrencyNets(PerformAll(EMPTY, calls), currencies, code)) == 0
    ensures EntriesOnOwnLedgers(PerformAll(EMPTY, calls), currencies)
  {
    hide CURRENCY_LEDGERS, PerformAll, OnOwnLedgers, ClusterOk, NamesWallets, Supported, CurrencyNets, Sum,
      EntriesOnOwnLedgers, Find;
    NothingYet(currencies);
    PerformAllKeeps(EMPTY, calls);
    PerformAllOnOwnLedgers(EMPTY, currencies, calls);
    NetsOfCurrency(PerformAll(EMPTY, calls), currencies, code);
    BooksBalance(calls, CURRENCY_LEDGERS[code], 0);
    EntriesFollowAccounts(PerformAll(EMPTY, calls), currencies);
  }

  /** The entry credits a wallet on the ledger of that wallet's currency, and debits that currency's settlement
      account or another wallet in the same currency. */
  predicate InOneCurrency(t: Transfer, currencies: map<Id, string>) {
    && t.credit.WalletAccount? && t.credit.wallet in currencies
    && var code := currencies[t.credit.wallet];
       code in CURRENCY_LEDGERS && t.ledger == CURRENCY_LEDGERS[code]
       && (t.code == TRANSFER_DEPOSIT ==> t.debit == SettlementAccount(CURRENCY_LEDGERS[code]))
       && (t.code == TRANSFER_INTERNAL ==> t.debit.WalletAccount? && Names(currencies, t.debit.wallet, code))
  }

  ghost predicate EntriesOnOwnLedgers(c: Cluster, currencies: map<Id, string>) {
    forall i :: 0 <= i < |c.log| ==> InOneCurrency(c.log[i].transfer, currencies)
  }

  lemma EntryFollowsAccounts(c: Cluster, currencies: map<Id, string>, t: Transfer)
    requires OnOwnLedgers(c, currencies) && EntryOk(t) && Postable(c, t)
    ensures InOneCurrency(t, currencies)
  {
    if t.debit.WalletAccount? {
      SameLedgerExactly(currencies[t.debit.wallet], currencies[t.credit.wallet]);
    }
    hide CURRENCY_LEDGERS;
  }

  lemma EntriesFollowAccounts(c: Cluster, currencies: map<Id, string>)
    requires ClusterOk(c) && OnOwnLedgers(c, currencies)
    ensures EntriesOnOwnLedgers(c, currencies)
  {
    hide CURRENCY_LEDGERS, OnOwnLedgers, InOneCurrency, AccountsOk;
    forall i | 0 <= i < |c.log|
      ensures InOneCurrency(c.log[i].transfer, currencies)
    {
      EntryFollowsAccounts(c, currencies, c.log[i].transfer);
    }
  }

  // ---- The wallet rows the sagas read

  predicate WalletsAgree(currencies: map<Id, string>, wallets: map<Id, Wallet>) {
    forall w :: w in wallets ==> Names(currencies, w, wallets[w].currency)
  }
}
