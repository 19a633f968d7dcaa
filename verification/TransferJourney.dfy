/** A transfer from the guards that let it in to the row that closes it. */
module TransferJourney {
  import opened Common
  import opened LedgerModel
  import opened LedgerTheorems
  import opened TransferMachine
  import opened WalletModel
  import TransferCalm
  import opened TransferResults
  import TransferWorker
  import WalletService

  /** What InitiateTransfer let in: a row between two wallets opened by CreateWallet. */
  ghost predicate LetIn(wallets: WalletService.Wallets, row: TransferRow) {
    && WalletService.InSupportedCurrencies(wallets)
    && row.sender in wallets && wallets[row.sender].active
    && WalletService.MayReceive(wallets, row.sender, row.recipient)
    && WalletService.InRange(row.amount) && row.status == PENDING
  }

  /** The worker still finds the two wallets as they were. */
  predicate Unchanged(wallets: WalletService.Wallets, row: TransferRow, w: World)
    requires row.sender in wallets && row.recipient in wallets
  {
    && row.sender in w.wallets && row.recipient in w.wallets
    && w.wallets[row.sender] == Wallet(wallets[row.sender].currency, wallets[row.sender].active)
    && w.wallets[row.recipient] == Wallet(wallets[row.recipient].currency, wallets[row.recipient].active)
  }

  function Currencies(wallets: WalletService.Wallets): map<Id, string> {
    map w | w in wallets :: wallets[w].currency
  }

  lemma PassesWalletGuards(wallets: WalletService.Wallets, id: Id, row: TransferRow, w: World)
    requires LetIn(wallets, row) && Unchanged(wallets, row, w)
    ensures var p := ParamFor(id, row, w.wallets[row.sender], w.wallets[row.recipient]);
            && NamesWallets(Currencies(wallets), TransferCall(p)) && Supported(Currencies(wallets))
            && p.amount > 0 && p.sender != p.recipient && EqualFold(p.senderCurrency, p.recipientCurrency)
            && (TransferRequest(p).1.Some? ==>
                  AfterWallets(id, row, w.wallets[row.sender], w.wallets[row.recipient])
                  == OpenSender(row, TransferRequest(p).1.value.ledger))
  {
    hide CURRENCY_LEDGERS, TransferRequest;
  }

  lemma ReachesTheLedger(wallets: WalletService.Wallets, id: Id, w: World, answers: Call -> Answer)
    requires id in w.transfers && LetIn(wallets, w.transfers[id]) && Unchanged(wallets, w.transfers[id], w)
    requires TransferCalm.AllHeard(answers) && TransferRequest(Asked(id, w)).1.Some?
    ensures RunAlone(w, Task(id, ReadTransfer), answers)
            == RunAlone(w, Task(id, OpenSender(w.transfers[id], TransferRequest(Asked(id, w)).1.value.ledger)), answers)
  {
    hide RunAlone, TransferRequest, AfterWallets, EqualFold, NamesWallets;
    TransferCalm.RereadAlone(w, id, answers);
    PassesWalletGuards(wallets, id, w.transfers[id], w);
  }

  lemma LedgerDecides(id: Id, w: World, answers: Call -> Answer, e: LedgerError)
    requires id in w.transfers && w.transfers[id].sender in w.wallets && w.transfers[id].recipient in w.wallets
    requires w.transfers[id].status == PENDING
    requires TransferCalm.AllHeard(answers) && TransferRequest(Asked(id, w)).1.Some?
    requires InternalTransfer(w.cluster, Asked(id, w), TransferWorker.TransferWeather(answers)).1 == e
    requires e == NoError || e == InsufficientFunds
    ensures var cluster := InternalTransfer(w.cluster, Asked(id, w), TransferWorker.TransferWeather(answers)).0;
            var w1 := w.(cluster := cluster);
            RunAlone(w, Task(id, OpenSender(w.transfers[id], TransferRequest(Asked(id, w)).1.value.ledger)), answers)
            == (if e == NoError then TransferCalm.Marked(w1, id, SUCCESS, "")
                else TransferCalm.Marked(w1, id, FAILED, INSUFFICIENT), Ok)
  {
    hide RunAlone, InternalTransfer, TransferRequest;
    TransferWorker.TransferAlone(w, id, w.transfers[id], TransferRequest(Asked(id, w)).1.value, Asked(id, w), answers);
    var w1 := w.(cluster := InternalTransfer(w.cluster, Asked(id, w), TransferWorker.TransferWeather(answers)).0);
    TransferCalm.CloseAlone(w1, id, INSUFFICIENT, Ok, answers);
  }

  /** Whatever the ledger has been through, each wallet named with its own currency: a transfer let in
      between wallets that have not changed since, its calls answered, ends SUCCESS if its entry is
      already posted or the sender has the funds, and otherwise FAILED for insufficient funds. */
  lemma LetInEndsByFunds(wallets: WalletService.Wallets, calls: seq<(Command, Weather)>, id: Id, w: World,
      answers: Call -> Answer)
    requires id in w.transfers && LetIn(wallets, w.transfers[id]) && Unchanged(wallets, w.transfers[id], w)
    requires w.cluster == PerformAll(EMPTY, calls) && forall i :: 0 <= i < |calls| ==>
      NamesWallets(Currencies(wallets), calls[i].0)
    requires TransferCalm.AllHeard(answers) && !answers(CreateTransfers).refused
    requires NotMistaken(w.cluster, Asked(id, w))
    ensures var paid := HasMoved(w, id) || Funds(w.cluster, w.transfers[id].sender) >= w.transfers[id].amount;
            var cluster := InternalTransfer(w.cluster, Asked(id, w), TransferWorker.TransferWeather(answers)).0;
            var w1 := w.(cluster := cluster);
            RunAlone(w, Task(id, ReadTransfer), answers)
            == (TransferCalm.Marked(w1, id, if paid then SUCCESS else FAILED, if paid then "" else INSUFFICIENT), Ok)
  {
    hide RunAlone, PerformAll, InternalTransfer, TransferRequest, Find, Funds, EqualFold, NotMistaken, NamesWallets,
      CURRENCY_LEDGERS;
    var p, weather := Asked(id, w), TransferWorker.TransferWeather(answers);
    PassesWalletGuards(wallets, id, w.transfers[id], w);
    FailsOnlyForFunds(calls, Currencies(wallets), p, weather);
    RequestMade(Currencies(wallets), p);
    ReachesTheLedger(wallets, id, w, answers);
    LedgerDecides(id, w, answers, InternalTransfer(w.cluster, p, weather).1);
  }

  lemma RequestMade(currencies: map<Id, string>, p: TransferParam)
    requires Supported(currencies) && NamesWallets(currencies, TransferCall(p))
    requires p.amount > 0 && p.sender != p.recipient && EqualFold(p.senderCurrency, p.recipientCurrency)
    ensures TransferRequest(p).1.Some?
  {
    hide CURRENCY_LEDGERS;
  }
}
