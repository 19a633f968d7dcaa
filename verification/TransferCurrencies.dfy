/** In runs where every wallet keeps its currency, transfers stay on the ledger of that currency. */
module TransferCurrencies {
  import opened Common
  import opened LedgerModel
  import opened LedgerSafety
  import opened TransferMachine
  import opened WalletModel
  import opened Currencies
  import LedgerTheorems
  import TransferSafety

  predicate KeepsCurrencies(currencies: map<Id, string>, events: seq<Event>) {
    forall i :: 0 <= i < |events| ==>
      match events[i]
      case WalletChanges(wallet, attributes) =>
        attributes.Some? ==> Names(currencies, wallet, attributes.value.currency)
      case OtherTraffic(call, _) => NamesWallets(currencies, call)
      case _ => true
  }

  predicate OnLedger(currencies: map<Id, string>, wallet: Id, ledger: nat) {
    wallet in currencies && LedgerForCurrency(currencies[wallet]) == Some(ledger)
  }

  /** A task opens both accounts on the wallets' own ledger. */
  predicate TaskAgrees(currencies: map<Id, string>, stage: Stage) {
    match stage
    case ReadRecipient(seen, sender) => Names(currencies, seen.sender, sender.currency)
    case OpenSender(seen, ledger) =>
      OnLedger(currencies, seen.sender, ledger) && OnLedger(currencies, seen.recipient, ledger)
    case OpenRecipient(seen, ledger) => OnLedger(currencies, seen.recipient, ledger)
    case _ => true
  }

  ghost predicate WorldAgrees(currencies: map<Id, string>, w: World) {
    OnOwnLedgers(w.cluster, currencies) && WalletsAgree(currencies, w.wallets)
  }

  ghost predicate RunAgrees(currencies: map<Id, string>, c: Config) {
    WorldAgrees(currencies, c.world) && forall k :: 0 <= k < |c.tasks| ==> TaskAgrees(currencies, c.tasks[k].stage)
  }

  lemma StepLeavesWallets(w: World, t: Task, a: Answer)
    ensures Step(w, t, a).0.wallets == w.wallets
  {
    hide EnsureAccounts, Submit, AfterWallets;
  }

  lemma WalletsOpenOnLedger(currencies: map<Id, string>, id: Id, seen: TransferRow, sender: Wallet, recipient: Wallet)
    requires Supported(currencies)
    requires Names(currencies, seen.sender, sender.currency) && Names(currencies, seen.recipient, recipient.currency)
    ensures TaskAgrees(currencies, AfterWallets(id, seen, sender, recipient))
  {
    SupportedFoldsToItself(sender.currency, recipient.currency);
    hide CURRENCY_LEDGERS, EqualFold;
  }

  lemma StepOpensOnLedger(currencies: map<Id, string>, w: World, t: Task, a: Answer)
    requires Supported(currencies) && WalletsAgree(currencies, w.wallets) && TaskAgrees(currencies, t.stage)
    ensures TaskAgrees(currencies, Step(w, t, a).1)
  {
    hide EnsureAccounts, Submit, LedgerForCurrency, AfterWallets, Supported, Find;
    if t.stage.ReadRecipient? && Heard(a) && t.stage.seen.recipient in w.wallets {
      WalletsOpenOnLedger(currencies, t.id, t.stage.seen, t.stage.sender, w.wallets[t.stage.seen.recipient]);
    }
  }

  lemma StepOnOwnLedgers(currencies: map<Id, string>, w: World, t: Task, a: Answer)
    requires OnOwnLedgers(w.cluster, currencies) && TaskAgrees(currencies, t.stage)
    ensures OnOwnLedgers(Step(w, t, a).0.cluster, currencies)
  {
    hide OnOwnLedgers, LedgerForCurrency, EnsureAccounts, Submit, AfterWallets;
    match t.stage
    case OpenSender(seen, ledger) => EnsureOnOwnLedger(w.cluster, currencies, ledger, seen.sender, a.delivery);
    case OpenRecipient(seen, ledger) => EnsureOnOwnLedger(w.cluster, currencies, ledger, seen.recipient, a.delivery);
    case PostTransfer(seen, ledger) =>
      SubmitOnOwnLedgers(w.cluster, currencies, EntryFor(t.id, seen, ledger), InsufficientFunds, PostWeather(a));
    case _ =>
  }

  lemma EventAgrees(currencies: map<Id, string>, c: Config, e: Event)
    requires Supported(currencies) && RunAgrees(currencies, c) && KeepsCurrencies(currencies, [e])
    ensures RunAgrees(currencies, Exec(c, e))
  {
    hide OnOwnLedgers, Step, Perform, OnLedger, Supported, NamesWallets;
    assert e == [e][0];
    if Enabled(c, e) {
      match e
      case Deliver(k, a) =>
        StepLeavesWallets(c.world, c.tasks[k], a);
        StepOpensOnLedger(currencies, c.world, c.tasks[k], a);
        StepOnOwnLedgers(currencies, c.world, c.tasks[k], a);
      case OtherTraffic(call, weather) => PerformOnOwnLedgers(c.world.cluster, currencies, call, weather);
      case _ =>
    }
  }

  lemma {:induction false} RunKeepsCurrencies(currencies: map<Id, string>, c: Config, events: seq<Event>)
    requires Supported(currencies) && RunAgrees(currencies, c) && KeepsCurrencies(currencies, events)
    ensures RunAgrees(currencies, Run(c, events))
    decreases |events|
  {
    hide RunAgrees, Exec, Supported;
    if events != [] {
      assert [events[0]][0] == events[0];
      EventAgrees(currencies, c, events[0]);
      RunKeepsCurrencies(currencies, Exec(c, events[0]), events[1..]);
    }
  }

  /** However tasks are interleaved: a transfer that says SUCCESS moved its amount between its two wallets by an
      entry on the ledger of the one currency both are in. */
  lemma SuccessInOneCurrency(currencies: map<Id, string>, c: Config, events: seq<Event>, id: Id)
    requires Initial(c) && Supported(currencies) && WorldAgrees(currencies, c.world)
      && KeepsCurrencies(currencies, events)
    requires id in Run(c, events).world.transfers && Run(c, events).world.transfers[id].status == SUCCESS
    ensures var w := Run(c, events).world;
            var row := w.transfers[id];
            && row.sender in currencies && row.recipient in currencies
            && currencies[row.sender] == currencies[row.recipient] && currencies[row.sender] in CURRENCY_LEDGERS
            && Find(w.cluster.log, id).Some?
            && var t := Find(w.cluster.log, id).value;
               && t.ledger == CURRENCY_LEDGERS[currencies[row.sender]]
               && t.debit == WalletAccount(row.sender) && t.credit == WalletAccount(row.recipient)
               && t.amount == row.amount
  {
    hide Run, Exec, OnOwnLedgers, CURRENCY_LEDGERS, ClusterOk, Supported, KeepsCurrencies, Find;
    TransferSafety.RunKeeps(c, events);
    RunKeepsCurrencies(currencies, c, events);
    var w := Run(c, events).world;
    TransferSafety.SuccessMeansMoved(c, events, id);
    LedgerTheorems.EntryIsSettled(w.cluster, id);
    EntryFollowsAccounts(w.cluster, currencies, Find(w.cluster.log, id).value);
  }
}
