/** In runs where every wallet keeps its currency, deposits are posted on the ledger of that currency. */
module DepositCurrencies {
  import opened Common
  import opened LedgerModel
  import opened LedgerSafety
  import opened DepositMachine
  import opened DepositSafety
  import opened WalletModel
  import opened Currencies
  import LedgerTheorems

  /** Wallets come and change under the currency they were opened in, and so does other traffic. */
  predicate KeepsCurrencies(currencies: map<Id, string>, events: seq<Event>) {
    forall i :: 0 <= i < |events| ==>
      match events[i]
      case WalletChanges(wallet, row) => Names(currencies, wallet, row.currency)
      case OtherTraffic(call, _) => NamesWallets(currencies, call)
      case _ => true
  }

  /** A task opens an account on the wallet's own ledger. */
  predicate TaskAgrees(currencies: map<Id, string>, stage: Stage) {
    match stage
    case OpenAccount(seen, ledger) =>
      seen.wallet in currencies && LedgerForCurrency(currencies[seen.wallet]) == Some(ledger)
    case _ => true
  }

  ghost predicate WorldAgrees(currencies: map<Id, string>, w: World) {
    OnOwnLedgers(w.cluster, currencies) && WalletsAgree(currencies, w.wallets)
  }

  ghost predicate RunAgrees(currencies: map<Id, string>, c: Config) {
    WorldAgrees(currencies, c.world) && forall k :: 0 <= k < |c.tasks| ==> TaskAgrees(currencies, c.tasks[k].stage)
  }

  lemma StepLeavesWallets(w: World, t: Task, a: Answer)
    ensures Step(w, t, a).0.wallets == w.wallets
  {
    hide EnsureAccounts, Submit, AfterWallet, AfterIntent, MoveIntent, IssueRefund;
    match t.stage
    case CloseSucceeded => ClosingLeaves(w, t.id, {PENDING, FAILED}, SUCCESS);
    case BeginRefund(_) => ClosingLeaves(w, t.id, {FAILED, REFUNDING}, REFUNDING);
    case SendRefund(seen) => RefundLeaves(w, t.id, Units(seen.amount));
    case CloseRefunded => ClosingLeaves(w, t.id, {REFUNDING}, REFUNDED);
    case CloseFailed => ClosingLeaves(w, t.id, {PENDING}, FAILED);
    case _ =>
  }

  lemma StepOpensOnLedger(currencies: map<Id, string>, w: World, t: Task, a: Answer)
    requires WalletsAgree(currencies, w.wallets)
    ensures TaskAgrees(currencies, Step(w, t, a).1)
  {
    hide EnsureAccounts, Submit, CURRENCY_LEDGERS, EqualFold, MoveIntent, IssueRefund;
  }

  lemma StepOnOwnLedgers(currencies: map<Id, string>, w: World, t: Task, a: Answer)
    requires OnOwnLedgers(w.cluster, currencies) && TaskAgrees(currencies, t.stage)
    ensures OnOwnLedgers(Step(w, t, a).0.cluster, currencies)
  {
    hide OnOwnLedgers, LedgerForCurrency, EnsureAccounts, Submit, AfterWallet, AfterIntent, MoveIntent, IssueRefund;
    match t.stage
    case OpenAccount(seen, ledger) => EnsureOnOwnLedger(w.cluster, currencies, ledger, seen.wallet, a.delivery);
    case PostDeposit(seen, ledger) =>
      SubmitOnOwnLedgers(w.cluster, currencies, EntryFor(t.id, seen, ledger), Rejected, PostWeather(a));
    case CloseSucceeded => ClosingLeaves(w, t.id, {PENDING, FAILED}, SUCCESS);
    case BeginRefund(_) => ClosingLeaves(w, t.id, {FAILED, REFUNDING}, REFUNDING);
    case SendRefund(seen) => RefundLeaves(w, t.id, Units(seen.amount));
    case CloseRefunded => ClosingLeaves(w, t.id, {REFUNDING}, REFUNDED);
    case CloseFailed => ClosingLeaves(w, t.id, {PENDING}, FAILED);
    case _ =>
  }

  lemma ClosingLeaves(w: World, id: Id, from: set<Status>, to: Status)
    ensures MoveIntent(w, id, from, to).0.cluster == w.cluster && MoveIntent(w, id, from, to).0.wallets == w.wallets
  {
  }

  lemma RefundLeaves(w: World, id: Id, amount: nat)
    ensures IssueRefund(w, id, amount).0.cluster == w.cluster && IssueRefund(w, id, amount).0.wallets == w.wallets
  {
  }

  lemma EventAgrees(currencies: map<Id, string>, c: Config, e: Event)
    requires Supported(currencies) && RunAgrees(currencies, c) && KeepsCurrencies(currencies, [e])
    ensures RunAgrees(currencies, Exec(c, e))
  {
    hide OnOwnLedgers, Step, Perform, LedgerForCurrency, Supported, NamesWallets;
    assert e == [e][0];
    if Enabled(c, e) {
      match e
      case Deliver(k, a) =>
        StepLeavesWallets(c.world, c.tasks[k], a);
        StepOpensOnLedger(currencies, c.world, c.tasks[k], a);
        StepOnOwnLedgers(currencies, c.world, c.tasks[k], a);
      case OtherTraffic(call, weather) => PerformOnOwnLedgers(c.world.cluster, currencies, call, weather);
      case _ =>
    }
  }

  lemma {:induction false} RunKeepsCurrencies(currencies: map<Id, string>, c: Config, events: seq<Event>)
    requires Supported(currencies) && RunAgrees(currencies, c) && KeepsCurrencies(currencies, events)
    ensures RunAgrees(currencies, Run(c, events))
    decreases |events|
  {
    hide RunAgrees, Exec, Supported;
    if events != [] {
      assert [events[0]][0] == events[0];
      EventAgrees(currencies, c, events[0]);
      RunKeepsCurrencies(currencies, Exec(c, events[0]), events[1..]);
    }
  }

  /** However tasks are interleaved: a deposit that says SUCCESS is credited to its wallet by an entry on the
      ledger of that wallet's currency, against that currency's settlement account. */
  lemma SuccessInItsCurrency(currencies: map<Id, string>, c: Config, events: seq<Event>, id: Id)
    requires Initial(c) && Supported(currencies) && WorldAgrees(currencies, c.world)
      && KeepsCurrencies(currencies, events)
    requires id in Run(c, events).world.intents && Run(c, events).world.intents[id].status == SUCCESS
    ensures var w := Run(c, events).world;
            var wallet := w.intents[id].wallet;
            && wallet in currencies && currencies[wallet] in CURRENCY_LEDGERS
            && Find(w.cluster.log, id).Some?
            && var t := Find(w.cluster.log, id).value;
               && t.ledger == CURRENCY_LEDGERS[currencies[wallet]]
               && t.debit == SettlementAccount(CURRENCY_LEDGERS[currencies[wallet]])
               && t.credit == WalletAccount(wallet) && t.amount == w.intents[id].amount
  {
    hide Run, Exec, OnOwnLedgers, CURRENCY_LEDGERS, ClusterOk, Supported, KeepsCurrencies, Find;
    RunKeeps(c, events);
    RunKeepsCurrencies(currencies, c, events);
    var w := Run(c, events).world;
    assert FileOk(id, FileOf(w, id));
    LedgerTheorems.EntryIsSettled(w.cluster, id);
    EntryFollowsAccounts(w.cluster, currencies, Find(w.cluster.log, id).value);
  }
}
