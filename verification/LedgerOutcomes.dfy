/** What each of the ledger adapter's calls answers and leaves, read off the accounts, the log and the replies. */
module LedgerOutcomes {
  import opened Common
  import opened LedgerModel
  import opened LedgerSafety
  import opened WalletModel

  /** Every account that was open and is not among `moved` stands as it did. */
  ghost predicate OthersStand(c: Cluster, c': Cluster, moved: set<AccountId>) {
    forall a :: a in c.accounts && a !in moved ==> a in c'.accounts && c'.accounts[a] == c.accounts[a]
  }

  /** One amount has gone from one account to the other, under its id, and nothing else has moved. */
  ghost predicate MovedOnly(c: Cluster, c': Cluster, t: Transfer) {
    && t.debit in c'.accounts && t.credit in c'.accounts
    && c'.accounts[t.debit].debits == (if t.debit in c.accounts then c.accounts[t.debit].debits else 0) + t.amount
    && c'.accounts[t.credit].credits == (if t.credit in c.accounts then c.accounts[t.credit].credits else 0) + t.amount
    && c'.accounts[t.debit].credits == (if t.debit in c.accounts then c.accounts[t.debit].credits else 0)
    && c'.accounts[t.credit].debits == (if t.credit in c.accounts then c.accounts[t.credit].debits else 0)
    && OthersStand(c, c', {t.debit, t.credit})
    && |c'.log| == |c.log| + 1 && c'.log[..|c.log|] == c.log && c'.log[|c.log|].transfer == t
  }

  /** Nothing has moved; at most accounts were opened, with nothing in them. */
  ghost predicate MovedNothing(c: Cluster, c': Cluster) {
    && c'.log == c.log && OthersStand(c, c', {})
    && forall a :: a in c'.accounts && a !in c.accounts ==> c'.accounts[a].debits == c'.accounts[a].credits == 0
  }

  lemma OpeningMovesNothing(c: Cluster, ledger: nat, wallet: Id, d: Delivery)
    ensures MovedNothing(c, EnsureAccounts(c, ledger, wallet, d).0)
  {
  }

  lemma OpeningAnswers(c: Cluster, ledger: nat, wallet: Id, d: Delivery)
    requires ClusterOk(c)
    ensures EnsureAccounts(c, ledger, wallet, d).1
            == if d != Replied then Unavailable else if Openable(c, ledger, wallet) then NoError else Rejected
    ensures ClusterOk(EnsureAccounts(c, ledger, wallet, d).0)
    ensures d == Replied && Openable(c, ledger, wallet) ==>
              AccountsOpen(EnsureAccounts(c, ledger, wallet, d).0, ledger, wallet)
  {
    EnsureAccountsKeeps(c, ledger, wallet, d);
    if SettlementAccount(ledger) in c.accounts {
      assert SpecOk(SettlementAccount(ledger), c.accounts[SettlementAccount(ledger)].spec);
    }
    if WalletAccount(wallet) in c.accounts {
      assert SpecOk(WalletAccount(wallet), c.accounts[WalletAccount(wallet)].spec);
    }
    hide LogOk, Extends;
  }

  lemma NothingTwice(a: Cluster, b: Cluster, c: Cluster)
    requires MovedNothing(a, b) && MovedNothing(b, c)
    ensures MovedNothing(a, c)
  {
  }

  lemma OneAfterNothing(a: Cluster, b: Cluster, c: Cluster, t: Transfer)
    requires MovedNothing(a, b) && MovedOnly(b, c, t)
    requires t.debit != t.credit && t.debit in b.accounts && t.credit in b.accounts
    ensures MovedOnly(a, c, t)
  {
  }

  lemma PostMovesOnly(c: Cluster, t: Transfer, clock: nat)
    requires Postable(c, t)
    ensures MovedOnly(c, Post(c, t, clock), t)
  {
  }

  /** A posting between two open accounts: made once, refused, or too much for its debit side. */
  lemma SubmitAnswers(c: Cluster, t: Transfer, overdraft: LedgerError, w: Weather)
    requires Postable(c, t)
    ensures var (c', e) := Submit(c, t, overdraft, w);
            var known := Find(c.log, t.id);
            var posts := known.None? && !w.refused && !Overdraws(c, t) && w.post != LostBefore;
            && (posts ==> MovedOnly(c, c', t)) && (!posts ==> c' == c)
            && e == (if w.post != Replied then Unavailable
                     else if known.Some? then (if known.value == t then NoError else Rejected)
                     else if w.refused then Rejected
                     else if Overdraws(c, t) then overdraft
                     else NoError)
  {
    hide Find, MovedOnly;
    SubmitCases(c, t, overdraft, w);
    PostMovesOnly(c, t, w.clock);
  }

  // ---- Deposits

  predicate MayDeposit(p: DepositParam) { p.amount > 0 && p.currency in CURRENCY_LEDGERS }

  /** From the currency's settlement account to the wallet's, on the currency's ledger. */
  predicate IsDepositOf(t: Transfer, p: DepositParam)
    requires MayDeposit(p)
  {
    var ledger := CURRENCY_LEDGERS[p.currency];
    && t.id == p.id && t.debit == SettlementAccount(ledger) && t.credit == WalletAccount(p.wallet)
    && t.amount == p.amount && t.ledger == ledger && t.code == TRANSFER_DEPOSIT
  }

  /** A deposit: refused outright without a positive amount in a known currency; otherwise its entry is posted
      exactly when the wallet's account is open on no other ledger, the id is unused, the cluster does not
      refuse it and its requests arrive; and what is answered says so. */
  lemma DepositExactly(c: Cluster, p: DepositParam, t: Transfer, w: Weather)
    requires ClusterOk(c) && (MayDeposit(p) ==> IsDepositOf(t, p))
    ensures var (c', e) := Deposit(c, p, w);
            var opens := w.first == Replied && MayDeposit(p) && Openable(c, t.ledger, p.wallet);
            var known := Find(c.log, p.id);
            var posts := opens && known.None? && !w.refused && w.post != LostBefore;
            && (posts ==> MovedOnly(c, c', t)) && (!posts ==> MovedNothing(c, c'))
            && (e == NoError <==> opens && w.post == Replied && if known.Some? then known.value == t else !w.refused)
            && (e == Unavailable <==> MayDeposit(p) && (w.first != Replied || (opens && w.post != Replied)))
            && e in {NoError, Unavailable, Rejected}
            && (!MayDeposit(p) ==> c' == c)
  {
    hide EnsureAccounts, Submit, Find, MovedOnly, MovedNothing, ClusterOk, Openable, CURRENCY_LEDGERS;
    if MayDeposit(p) {
      var c1 := EnsureAccounts(c, t.ledger, p.wallet, w.first).0;
      OpeningMovesNothing(c, t.ledger, p.wallet, w.first);
      OpeningAnswers(c, t.ledger, p.wallet, w.first);
      DepositEntryIs(p, t);
      SameLog(c, c1);
      if w.first == Replied && Openable(c, t.ledger, p.wallet) {
        SubmitAnswers(c1, t, Rejected, w);
        if MovedOnly(c1, Submit(c1, t, Rejected, w).0, t) {
          OneAfterNothing(c, c1, Submit(c1, t, Rejected, w).0, t);
        }
      }
    } else {
      NothingAtAll(c);
    }
  }

  lemma DepositEntryIs(p: DepositParam, t: Transfer)
    requires MayDeposit(p) && IsDepositOf(t, p)
    ensures DepositRequest(p) == Some(t)
  {
  }

  lemma SameLog(c: Cluster, c1: Cluster)
    requires MovedNothing(c, c1)
    ensures c1.log == c.log
  {
  }

  lemma NothingAtAll(c: Cluster)
    ensures MovedNothing(c, c)
  {
  }

  // ---- Transfers

  predicate MayTransfer(p: TransferParam) {
    && p.amount > 0 && p.sender != p.recipient
    && EqualFold(p.senderCurrency, p.recipientCurrency) && p.senderCurrency in CURRENCY_LEDGERS
  }

  /** From the sender's account to the recipient's, on the currency's ledger. */
  predicate IsTransferOf(t: Transfer, p: TransferParam)
    requires MayTransfer(p)
  {
    && t.id == p.id && t.debit == WalletAccount(p.sender) && t.credit == WalletAccount(p.recipient)
    && t.amount == p.amount && t.ledger == CURRENCY_LEDGERS[p.senderCurrency] && t.code == TRANSFER_INTERNAL
  }

  /** A transfer: refused outright without a positive amount between two wallets in one known currency;
      otherwise its entry is posted exactly when neither account is open on another ledger, the id is unused,
      the cluster does not refuse it, the sender has the money and its requests arrive. Insufficient funds are
      answered exactly when only the money was missing. */
  lemma TransferExactly(c: Cluster, p: TransferParam, t: Transfer, w: Weather)
    requires ClusterOk(c) && (MayTransfer(p) ==> IsTransferOf(t, p))
    ensures var (c', e) := InternalTransfer(c, p, w);
            var opensSender := MayTransfer(p) && w.first == Replied && Openable(c, t.ledger, p.sender);
            var opens := opensSender && w.second == Replied && Openable(c, t.ledger, p.recipient);
            var known, funded := Find(c.log, p.id), Funds(c, p.sender) >= p.amount;
            var posts := opens && known.None? && !w.refused && funded && w.post != LostBefore;
            && (posts ==> MovedOnly(c, c', t)) && (!posts ==> MovedNothing(c, c'))
            && (e == NoError <==>
                  opens && w.post == Replied && if known.Some? then known.value == t else !w.refused && funded)
            && (e == InsufficientFunds <==> opens && w.post == Replied && known.None? && !w.refused && !funded)
            && (e == Unavailable <==>
                  MayTransfer(p) && (w.first != Replied || (opensSender && w.second != Replied)
                                     || (opens && w.post != Replied)))
            && (e == CrossCurrency <==>
                  p.amount > 0 && p.sender != p.recipient && !EqualFold(p.senderCurrency, p.recipientCurrency))
            && (!MayTransfer(p) ==> c' == c)
  {
    hide EnsureAccounts, Submit, Find, MovedOnly, MovedNothing, ClusterOk, Openable, Funds, EqualFold,
      CURRENCY_LEDGERS;
    NothingAtAll(c);
    if MayTransfer(p) {
      TransferEntryIs(p, t);
      OpeningMovesNothing(c, t.ledger, p.sender, w.first);
      OpeningAnswers(c, t.ledger, p.sender, w.first);
      if w.first == Replied && Openable(c, t.ledger, p.sender) {
        SecondOpening(c, p, t, w);
      }
    }
  }

  lemma TransferEntryIs(p: TransferParam, t: Transfer)
    requires MayTransfer(p) && IsTransferOf(t, p)
    ensures TransferRequest(p) == (NoError, Some(t))
  {
  }

  lemma OpeningOneLeavesTheOther(c: Cluster, ledger: nat, wallet: Id, other: Id, d: Delivery)
    requires wallet != other
    ensures Openable(EnsureAccounts(c, ledger, wallet, d).0, ledger, other) == Openable(c, ledger, other)
    ensures Funds(EnsureAccounts(c, ledger, wallet, d).0, other) == Funds(c, other)
    ensures Funds(EnsureAccounts(c, ledger, wallet, d).0, wallet) == Funds(c, wallet)
    ensures AccountsOpen(c, ledger, other) ==> AccountsOpen(EnsureAccounts(c, ledger, wallet, d).0, ledger, other)
  {
  }

  lemma OverdrawsMeansShort(c: Cluster, ledger: nat, t: Transfer)
    requires t.debit.WalletAccount? && AccountsOpen(c, ledger, t.debit.wallet)
    ensures Overdraws(c, t) <==> Funds(c, t.debit.wallet) < t.amount
  {
  }

  lemma SecondOpening(c: Cluster, p: TransferParam, t: Transfer, w: Weather)
    requires ClusterOk(c) && MayTransfer(p) && IsTransferOf(t, p)
    requires w.first == Replied && Openable(c, t.ledger, p.sender)
    ensures var (c', e) := InternalTransfer(c, p, w);
            var opens := w.second == Replied && Openable(c, t.ledger, p.recipient);
            var known, funded := Find(c.log, p.id), Funds(c, p.sender) >= p.amount;
            var posts := opens && known.None? && !w.refused && funded && w.post != LostBefore;
            && (posts ==> MovedOnly(c, c', t)) && (!posts ==> MovedNothing(c, c'))
            && e == (if w.second != Replied then Unavailable
                     else if !opens then Rejected
                     else if w.post != Replied then Unavailable
                     else if known.Some? then (if known.value == t then NoError else Rejected)
                     else if w.refused then Rejected
                     else if !funded then InsufficientFunds
                     else NoError)
  {
    hide EnsureAccounts, Submit, Find, MovedOnly, MovedNothing, ClusterOk, Openable, Funds, EqualFold,
      AccountsOpen, Overdraws, CURRENCY_LEDGERS;
    TransferEntryIs(p, t);
    OpeningMovesNothing(c, t.ledger, p.sender, w.first);
    OpeningAnswers(c, t.ledger, p.sender, w.first);
    OpeningOneLeavesTheOther(c, t.ledger, p.sender, p.recipient, w.first);
    var c1 := EnsureAccounts(c, t.ledger, p.sender, w.first).0;
    OpeningMovesNothing(c1, t.ledger, p.recipient, w.second);
    OpeningAnswers(c1, t.ledger, p.recipient, w.second);
    OpeningOneLeavesTheOther(c1, t.ledger, p.recipient, p.sender, w.second);
    var c2 := EnsureAccounts(c1, t.ledger, p.recipient, w.second).0;
    NothingTwice(c, c1, c2);
    SameLog(c, c2);
    if w.second == Replied && Openable(c, t.ledger, p.recipient) {
      OpenMeansPostable(c2, t);
      OverdrawsMeansShort(c2, t.ledger, t);
      SubmitAnswers(c2, t, InsufficientFunds, w);
      if MovedOnly(c2, Submit(c2, t, InsufficientFunds, w).0, t) {
        OneAfterNothing(c, c2, Submit(c2, t, InsufficientFunds, w).0, t);
      }
    }
  }

  lemma OpenMeansPostable(c: Cluster, t: Transfer)
    requires t.debit.WalletAccount? && t.credit.WalletAccount? && t.debit != t.credit
    requires AccountsOpen(c, t.ledger, t.debit.wallet) && AccountsOpen(c, t.ledger, t.credit.wallet)
    ensures Postable(c, t)
  {
  }

  // ---- Openings

  /** Opening a wallet's account: an unknown currency is refused; a known one opens it unless it is open on another
      ledger or the request does not arrive, and what is answered says so. No money moves. */
  lemma EnsureExactly(c: Cluster, wallet: Id, currency: string, w: Weather)
    requires ClusterOk(c)
    ensures var (c', e) := Perform(c, EnsureCall(wallet, currency), w);
            && MovedNothing(c, c')
            && e == (if currency !in CURRENCY_LEDGERS then Rejected
                     else if w.first != Replied then Unavailable
                     else if Openable(c, CURRENCY_LEDGERS[currency], wallet) then NoError else Rejected)
            && (e == NoError ==> AccountsOpen(c', CURRENCY_LEDGERS[currency], wallet))
  {
    hide EnsureAccounts, MovedNothing, ClusterOk, Openable, AccountsOpen, CURRENCY_LEDGERS;
    NothingAtAll(c);
    if currency in CURRENCY_LEDGERS {
      OpeningMovesNothing(c, CURRENCY_LEDGERS[currency], wallet, w.first);
      OpeningAnswers(c, CURRENCY_LEDGERS[currency], wallet, w.first);
    }
  }
}
