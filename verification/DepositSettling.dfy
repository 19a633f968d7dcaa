/** What one uninterrupted settle does with a pending deposit: the payment is credited exactly when it is
    the payment the intent asked for. */
module DepositSettling {
  import opened Common
  import opened LedgerModel
  import opened LedgerSafety
  import opened DepositMachine
  import opened DepositSafety
  import opened DepositRace
  import opened DepositTheorems

  /** The payment has the intent's amount and the wallet's currency, and the wallet can take it. */
  predicate Settleable(w: World, i: Intent, amount: Int64, currency: string) {
    && amount == i.amount
    && i.wallet in w.wallets && w.wallets[i.wallet].active
    && Agrees(currency, w.wallets[i.wallet].currency)
    && Openable(w.cluster, CURRENCY_LEDGERS[w.wallets[i.wallet].currency], i.wallet)
  }

  /** Nothing is posted, marked, refunded or sent; at most an account is opened. */
  predicate NothingPaid(w: World, w': World) {
    w' == w.(cluster := w'.cluster) && w'.cluster.log == w.cluster.log
  }

  /** The intent is credited and closed, with its first receipt; nothing else changes. */
  ghost predicate JustPaid(w: World, w': World, id: Id)
    requires id in w.intents
  {
    && w'.intents == w.intents[id := w.intents[id].(status := SUCCESS)]
    && w'.receipts == w.receipts[id := 1]
    && w'.wallets == w.wallets && w'.charged == w.charged && w'.refunded == w.refunded
    && IsCredited(w', id) && Honours(Find(w'.cluster.log, id).value, id, w.intents[id])
    && forall other :: other != id ==> Find(w'.cluster.log, other) == Find(w.cluster.log, other)
  }

  lemma GuardsAlone(w: World, id: Id, amount: Int64, currency: string, answers: Call -> Answer)
    requires id in w.intents && w.intents[id].status == PENDING && w.intents[id].amount > 0 && AllHeard(answers)
    ensures var i := w.intents[id];
            RunAlone(w, Task(id, ReadIntent(amount, currency)), answers)
            == if amount == i.amount && i.wallet in w.wallets && w.wallets[i.wallet].active
               && Agrees(currency, w.wallets[i.wallet].currency)
               then RunAlone(w, Task(id, OpenAccount(i, CURRENCY_LEDGERS[w.wallets[i.wallet].currency])), answers)
               else (w, SkipRetry)
  {
    hide RunAlone, EnsureAccounts, Submit, Find, EqualFold, CURRENCY_LEDGERS;
    var i := w.intents[id];
    Onward(w, Task(id, ReadIntent(amount, currency)), answers);
    if amount == i.amount {
      Onward(w, Task(id, ReadWallet(i, currency)), answers);
    }
    Over(w, id, SkipRetry, answers);
  }

  lemma OpenOutcome(w: World, i: Intent, ledger: nat, a: Answer)
    requires WorldOk(w) && Heard(a)
    ensures var (w', s') := DoOpenAccount(w, i, ledger, a);
            && NothingPaid(w, w')
            && s' == if Openable(w.cluster, ledger, i.wallet) then PostDeposit(i, ledger) else Finished(SkipRetry)
  {
    hide FilesOk, LogOk;
    assert SpecOk(SettlementAccount(ledger), SettlementSpec(ledger));
  }

  lemma PostOutcome(w: World, id: Id, i: Intent, ledger: nat, a: Answer)
    requires WorldOk(w) && !IsCredited(w, id) && Remembers(w, id, i) && AccountsOpen(w.cluster, ledger, i.wallet)
    requires Heard(a) && !a.refused && i == w.intents[id]
    ensures var (w', s') := DoPostDeposit(w, id, i, ledger, a);
            && s' == CloseSucceeded && w' == w.(cluster := w'.cluster)
            && IsCredited(w', id) && Honours(Find(w'.cluster.log, id).value, id, i)
            && forall other :: other != id ==> Find(w'.cluster.log, other) == Find(w.cluster.log, other)
  {
    assert i.amount > 0 by {
      assert FileOk(id, FileOf(w, id));
    }
    hide WorldOk, Find;
    forall other {:trigger Find(DoPostDeposit(w, id, i, ledger, a).0.cluster.log, other)}
      ensures Find(DoPostDeposit(w, id, i, ledger, a).0.cluster.log, other)
              == if other == id then Some(EntryFor(id, i, ledger)) else Find(w.cluster.log, other)
    {
      SubmittedEntries(w.cluster, EntryFor(id, i, ledger), Rejected, PostWeather(a), other);
    }
  }

  lemma CloseOutcome(w: World, id: Id, answers: Call -> Answer)
    requires id in w.intents && w.intents[id].status == PENDING && Receipts(w, id) == 0 && AllHeard(answers)
    ensures RunAlone(w, Task(id, CloseSucceeded), answers)
            == (w.(intents := w.intents[id := w.intents[id].(status := SUCCESS)], receipts := w.receipts[id := 1]), Ok)
  {
    hide RunAlone, Find, EnsureAccounts, Submit;
    Onward(w, Task(id, CloseSucceeded), answers);
    Over(DoCloseSucceeded(w, id, answers(UpdateSucceeded)).0, id, Ok, answers);
  }

  /** From the ledger's first call on, for a payment that passed the guards. */
  lemma LedgerAlone(w: World, id: Id, ledger: nat, answers: Call -> Answer)
    requires WorldOk(w) && id in w.intents && w.intents[id].status == PENDING && !IsCredited(w, id)
    requires AllHeard(answers) && !answers(PostTransfer).refused
    ensures var (w', e) := RunAlone(w, Task(id, OpenAccount(w.intents[id], ledger)), answers);
            if Openable(w.cluster, ledger, w.intents[id].wallet)
            then JustPaid(w, w', id) && e == Ok
            else NothingPaid(w, w') && e == SkipRetry
  {
    hide RunAlone, Find, DoOpenAccount, DoPostDeposit, WorldOk, AccountsOpen, Openable;
    var i := w.intents[id];
    var (w1, s1) := DoOpenAccount(w, i, ledger, answers(CreateAccounts));
    OpenOutcome(w, i, ledger, answers(CreateAccounts));
    OpenAccountGood(w, id, i, ledger, answers(CreateAccounts));
    Onward(w, Task(id, OpenAccount(i, ledger)), answers);
    if Openable(w.cluster, ledger, i.wallet) {
      PostOutcome(w1, id, i, ledger, answers(PostTransfer));
      Onward(w1, Task(id, PostDeposit(i, ledger)), answers);
      var w2 := DoPostDeposit(w1, id, i, ledger, answers(PostTransfer)).0;
      NoReceiptYet(w, id);
      CloseOutcome(w2, id, answers);
    } else {
      Over(w1, id, SkipRetry, answers);
    }
  }

  lemma NoReceiptYet(w: World, id: Id)
    requires WorldOk(w) && id in w.intents && w.intents[id].status == PENDING
    ensures Receipts(w, id) == 0 && w.intents[id].amount > 0
  {
    assert FileOk(id, FileOf(w, id));
  }

  /** A pending, uncredited deposit whose calls are answered is credited and closed, with one receipt, if
      and only if the payment has its amount and its wallet's currency and the wallet is active and not
      taken by another ledger. Otherwise nothing is paid and the attempt is not retried. */
  lemma PendingSettlesExactly(w: World, id: Id, amount: Int64, currency: string, answers: Call -> Answer)
    requires WorldOk(w) && id in w.intents && w.intents[id].status == PENDING && !IsCredited(w, id)
    requires AllHeard(answers) && !answers(PostTransfer).refused
    ensures var (w', e) := RunAlone(w, Task(id, ReadIntent(amount, currency)), answers);
            && (JustPaid(w, w', id) <==> Settleable(w, w.intents[id], amount, currency))
            && (e == Ok <==> Settleable(w, w.intents[id], amount, currency))
            && (e != Ok ==> NothingPaid(w, w') && e == SkipRetry)
  {
    hide RunAlone, WorldOk, Agrees, Openable, CURRENCY_LEDGERS, Find;
    NoReceiptYet(w, id);
    GuardsAlone(w, id, amount, currency, answers);
    var wallet := w.intents[id].wallet;
    if wallet in w.wallets && Agrees(currency, w.wallets[wallet].currency) {
      AgreesIsSupported(currency, w.wallets[wallet].currency);
      LedgerAlone(w, id, CURRENCY_LEDGERS[w.wallets[wallet].currency], answers);
    }
  }

  lemma AgreesIsSupported(settled: string, currency: string)
    requires Agrees(settled, currency)
    ensures currency in CURRENCY_LEDGERS
  {
  }
}
