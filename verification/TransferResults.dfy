/** What one uninterrupted transfer:execute attempt or exhaustion hook leaves and returns, whichever of its
    replies are lost. */
module TransferResults {
  import opened Common
  import opened LedgerModel
  import opened LedgerOutcomes
  import opened TransferMachine
  import opened TransferCalm
  import opened TransferWorker
  import opened WalletModel

  /** A lost reply ends an execute attempt with an error that is retried, whichever call it was. */
  lemma LostReplyRetries(w: World, t: Task, a: Answer)
    requires !t.stage.Finished? && !t.stage.ReadExhausted? && !t.stage.LookUpEntry? && !Heard(a)
    ensures Step(w, t, a).1 == Finished(Transient)
  {
    hide CreateAccount, CreateTransfer;
  }

  /** The row or a wallet is gone, or a rejection is being written down. */
  predicate IsHopeless(w: World, t: Task) {
    match t.stage
    case ReadTransfer => t.id !in w.transfers
    case ReadSender(seen) => seen.sender !in w.wallets
    case ReadRecipient(seen, _) => seen.recipient !in w.wallets
    case CloseFailed(_, after) => after == SkipRetry
    case _ => false
  }

  /** When an execute attempt ends with its call: an error to retry means a lost reply and nothing else; it is not
      retried without its row, without a wallet, or after a rejection was written down. */
  lemma StepErrs(w: World, t: Task, a: Answer)
    requires !t.stage.Finished? && !t.stage.ReadExhausted? && !t.stage.LookUpEntry?
    requires t.stage.CloseFailed? ==> t.stage.after in {Ok, SkipRetry}
    ensures var s' := Step(w, t, a).1;
            && (s' == Finished(Transient) <==> !Heard(a))
            && (s' == Finished(SkipRetry) <==> Heard(a) && IsHopeless(w, t))
            && s' != Finished(RetryLater)
  {
    hide CreateAccount, CreateTransfer, EqualFold, CURRENCY_LEDGERS;
  }

  /** A row is closed if the update takes effect, and the attempt returns what it means to if that is heard. */
  function Closed(w: World, id: Id, status: Status, reason: string, d: Delivery, e: TaskError): (World, TaskError)
    requires id in w.transfers
  {
    (if d == LostBefore then w else Marked(w, id, status, reason), if d == Replied then e else Transient)
  }

  lemma ClosesAlone(w: World, id: Id, reason: string, after: TaskError, answers: Call -> Answer)
    requires id in w.transfers && w.transfers[id].status == PENDING
    ensures RunAlone(w, Task(id, CloseSucceeded), answers)
            == Closed(w, id, SUCCESS, "", answers(UpdateSucceeded).delivery, Ok)
    ensures RunAlone(w, Task(id, CloseFailed(reason, after)), answers)
            == Closed(w, id, FAILED, reason, answers(UpdateFailed).delivery, after)
  {
    hide RunAlone, Find, EnsureAccounts, Submit;
    Onward(w, Task(id, CloseSucceeded), answers);
    var (w1, s1) := DoClose(w, id, SUCCESS, "", Ok, answers(UpdateSucceeded));
    Over(w1, id, s1.error, answers);
    Onward(w, Task(id, CloseFailed(reason, after)), answers);
    var (w2, s2) := DoClose(w, id, FAILED, reason, after, answers(UpdateFailed));
    Over(w2, id, s2.error, answers);
  }

  /** A row that is missing or resolved, or was not read, is not worked on. */
  lemma NothingToExecute(w: World, id: Id, answers: Call -> Answer)
    requires Heard(answers(GetTransfer)) && id in w.transfers ==> w.transfers[id].status != PENDING
    ensures RunAlone(w, Task(id, ReadTransfer), answers)
            == (w, if !Heard(answers(GetTransfer)) then Transient else if id !in w.transfers then SkipRetry else Ok)
  {
    hide RunAlone, Find, EnsureAccounts, Submit;
    Onward(w, Task(id, ReadTransfer), answers);
    Over(w, id, AfterTransfer(w, id, answers(GetTransfer)).error, answers);
  }

  predicate Loaded(w: World, row: TransferRow, answers: Call -> Answer) {
    && Heard(answers(GetTransfer)) && Heard(answers(GetSender)) && Heard(answers(GetRecipient))
    && row.sender in w.wallets && row.recipient in w.wallets
  }

  lemma LoadsAlone(w: World, id: Id, answers: Call -> Answer)
    requires id in w.transfers && w.transfers[id].status == PENDING
    ensures var row := w.transfers[id];
            var gone := Heard(answers(GetTransfer)) && Heard(answers(GetSender))
              && (row.sender !in w.wallets || (Heard(answers(GetRecipient)) && row.recipient !in w.wallets));
            RunAlone(w, Task(id, ReadTransfer), answers)
            == if Loaded(w, row, answers)
               then RunAlone(w, Task(id, AfterWallets(id, row, w.wallets[row.sender], w.wallets[row.recipient])),
                             answers)
               else (w, if gone then SkipRetry else Transient)
  {
    hide RunAlone, AfterWallets, Find, EnsureAccounts, Submit;
    var row := w.transfers[id];
    Over(w, id, SkipRetry, answers);
    Over(w, id, Transient, answers);
    Onward(w, Task(id, ReadTransfer), answers);
    if Heard(answers(GetTransfer)) {
      Onward(w, Task(id, ReadSender(row)), answers);
      if Heard(answers(GetSender)) && row.sender in w.wallets {
        Onward(w, Task(id, ReadRecipient(row, w.wallets[row.sender])), answers);
      }
    }
  }

  /** What the attempt asks of the ledger. */
  function Asked(id: Id, w: World): TransferParam
    requires id in w.transfers && w.transfers[id].sender in w.wallets && w.transfers[id].recipient in w.wallets
  {
    var row := w.transfers[id];
    TransferParam(id, row.sender, row.recipient, w.wallets[row.sender].currency, w.wallets[row.recipient].currency,
                  row.amount)
  }

  /** The ledger's answer decides the row, its reason and the attempt's error. */
  lemma SubmitsAlone(w: World, id: Id, answers: Call -> Answer)
    requires id in w.transfers && w.transfers[id].status == PENDING && Loaded(w, w.transfers[id], answers)
    requires var row := w.transfers[id]; w.wallets[row.sender].active && w.wallets[row.recipient].active
    requires EqualFold(Asked(id, w).senderCurrency, Asked(id, w).recipientCurrency)
    ensures var row := w.transfers[id];
            var (cluster, e) := InternalTransfer(w.cluster, Asked(id, w), TransferWeather(answers));
            var w1 := w.(cluster := cluster);
            var failed := answers(UpdateFailed).delivery;
            RunAlone(w, Task(id, AfterWallets(id, row, w.wallets[row.sender], w.wallets[row.recipient])), answers)
            == match e
               case NoError => Closed(w1, id, SUCCESS, "", answers(UpdateSucceeded).delivery, Ok)
               case InsufficientFunds => Closed(w1, id, FAILED, "Insufficient funds", failed, Ok)
               case Unavailable => (w1, Transient)
               case _ => Closed(w1, id, FAILED, "Rejected by the ledger", failed, SkipRetry)
  {
    hide RunAlone, InternalTransfer, TransferRequest, EqualFold;
    var row, p := w.transfers[id], Asked(id, w);
    var (cluster, e) := InternalTransfer(w.cluster, p, TransferWeather(answers));
    var w1 := w.(cluster := cluster);
    TransferGuards(w.cluster, p, TransferWeather(answers));
    if TransferRequest(p).1.Some? {
      TransferAlone(w, id, row, TransferRequest(p).1.value, p, answers);
    }
    ClosesAlone(w1, id, INSUFFICIENT, Ok, answers);
    ClosesAlone(w1, id, REJECTED, SkipRetry, answers);
    Over(w1, id, Transient, answers);
  }

  /** An attempt at a pending transfer: without both wallets nothing happens; an inactive one, or two currencies,
      fail the row at once; otherwise the ledger decides. */
  lemma ExecuteOutcome(w: World, id: Id, answers: Call -> Answer)
    requires id in w.transfers && w.transfers[id].status == PENDING
    ensures var row := w.transfers[id];
            var gone := Heard(answers(GetTransfer)) && Heard(answers(GetSender))
              && (row.sender !in w.wallets || (Heard(answers(GetRecipient)) && row.recipient !in w.wallets));
            var failed := answers(UpdateFailed).delivery;
            RunAlone(w, Task(id, ReadTransfer), answers)
            == if !Loaded(w, row, answers) then (w, if gone then SkipRetry else Transient)
               else if !w.wallets[row.sender].active || !w.wallets[row.recipient].active
               then Closed(w, id, FAILED, "An account involved is not active", failed, Ok)
               else if !EqualFold(w.wallets[row.sender].currency, w.wallets[row.recipient].currency)
               then Closed(w, id, FAILED, "Cross-currency transfers are not supported", failed, Ok)
               else
                 var (cluster, e) := InternalTransfer(w.cluster, Asked(id, w), TransferWeather(answers));
                 var w1 := w.(cluster := cluster);
                 match e
                 case NoError => Closed(w1, id, SUCCESS, "", answers(UpdateSucceeded).delivery, Ok)
                 case InsufficientFunds => Closed(w1, id, FAILED, "Insufficient funds", failed, Ok)
                 case Unavailable => (w1, Transient)
                 case _ => Closed(w1, id, FAILED, "Rejected by the ledger", failed, SkipRetry)
  {
    hide RunAlone, InternalTransfer, TransferRequest, EqualFold, Closed;
    LoadsAlone(w, id, answers);
    var row := w.transfers[id];
    if Loaded(w, row, answers) {
      var sender, recipient := w.wallets[row.sender], w.wallets[row.recipient];
      if !sender.active || !recipient.active {
        ClosesAlone(w, id, INACTIVE, Ok, answers);
      } else if !EqualFold(sender.currency, recipient.currency) {
        ClosesAlone(w, id, CROSS, Ok, answers);
      } else {
        SubmitsAlone(w, id, answers);
      }
    }
  }

  /** The hook: a pending row, if it and the ledger's answer are heard of, says SUCCESS if its entry is posted and
      FAILED if not, unless the update is lost; nothing else changes. */
  lemma HookOutcome(w: World, id: Id, answers: Call -> Answer)
    ensures RunAlone(w, Task(id, ReadExhausted), answers).0
            == if !Heard(answers(GetExhausted)) || id !in w.transfers || w.transfers[id].status != PENDING
                  || !Heard(answers(LookupTransfers)) then w
               else if HasMoved(w, id) then
                 if answers(UpdateSucceeded).delivery == LostBefore then w else Marked(w, id, SUCCESS, "")
               else if answers(UpdateFailed).delivery == LostBefore then w
               else Marked(w, id, FAILED, "The transfer could not be completed")
  {
    hide RunAlone, Find, EnsureAccounts, Submit;
    Onward(w, Task(id, ReadExhausted), answers);
    Over(w, id, Ok, answers);
    if Heard(answers(GetExhausted)) && id in w.transfers && w.transfers[id].status == PENDING {
      Onward(w, Task(id, LookUpEntry), answers);
      ClosesAlone(w, id, EXHAUSTED, Ok, answers);
    }
  }

  /** With every call answered, a pending transfer between two wallets that are there succeeds if and only if both
      are active, in one known currency and on its ledger, and its entry is posted already or the sender has
      the money; and money moves only then. */
  lemma AnsweredTransferExactly(w: World, id: Id, t: Transfer, answers: Call -> Answer)
    requires ClusterOk(w.cluster) && id in w.transfers && w.transfers[id].status == PENDING && AllHeard(answers)
    requires !answers(CreateTransfers).refused
    requires Loaded(w, w.transfers[id], answers)
    requires MayTransfer(Asked(id, w)) ==> IsTransferOf(t, Asked(id, w))
    ensures var row := w.transfers[id];
            var (w', e) := RunAlone(w, Task(id, ReadTransfer), answers);
            var known := Find(w.cluster.log, id);
            var succeeds :=
              && w.wallets[row.sender].active && w.wallets[row.recipient].active
              && MayTransfer(Asked(id, w))
              && Openable(w.cluster, t.ledger, row.sender) && Openable(w.cluster, t.ledger, row.recipient)
              && (if known.Some? then known.value == t else Funds(w.cluster, row.sender) >= row.amount);
            && id in w'.transfers && w'.transfers[id].status == (if succeeds then SUCCESS else FAILED)
            && w'.transfers
               == w.transfers[id := row.(status := w'.transfers[id].status, reason := w'.transfers[id].reason)]
            && w'.wallets == w.wallets
            && (if succeeds && known.None? then MovedOnly(w.cluster, w'.cluster, t)
                else MovedNothing(w.cluster, w'.cluster))
  {
    hide RunAlone, InternalTransfer, TransferRequest, EqualFold, MovedOnly, MovedNothing, ClusterOk, Funds, Openable,
      Find, CURRENCY_LEDGERS;
    ExecuteOutcome(w, id, answers);
    var row := w.transfers[id];
    TransferExactly(w.cluster, Asked(id, w), t, TransferWeather(answers));
    NothingAtAll(w.cluster);
  }
}
