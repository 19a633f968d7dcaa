/** The transfer tasks as they are written: rows and ledger change in place, one call at a time, with
    early returns. Each is one uninterrupted run of the step machine. */
module TransferWorker {
  import opened Common
  import opened LedgerModel
  import opened TransferMachine
  import LedgerAdapter

  class TransactionRepository {
    var transfers: map<Id, TransferRow>
    var wallets: map<Id, Wallet>

    constructor (wallets: map<Id, Wallet>)
      ensures transfers == map[] && this.wallets == wallets
    {
      transfers, this.wallets := map[], wallets;
    }

    method GetTransferByID(id: Id, d: Delivery) returns (heard: bool, found: Option<TransferRow>)
      ensures heard == (d == Replied)
      ensures found == if heard && id in transfers then Some(transfers[id]) else None
    {
      heard, found := d == Replied, None;
      if heard && id in transfers {
        found := Some(transfers[id]);
      }
    }

    method GetWalletByID(id: Id, d: Delivery) returns (heard: bool, found: Option<Wallet>)
      ensures heard == (d == Replied)
      ensures found == if heard && id in wallets then Some(wallets[id]) else None
    {
      heard, found := d == Replied, None;
      if heard && id in wallets {
        found := Some(wallets[id]);
      }
    }

    /** UPDATE ... SET status, failure_reason WHERE id = ? AND status = PENDING. */
    method markTransfer(id: Id, status: Status, reason: string, d: Delivery) returns (heard: bool, moved: bool)
      modifies this`transfers
      ensures heard == (d == Replied)
      ensures var matches := id in old(transfers) && old(transfers)[id].status == PENDING;
              && (heard ==> moved == matches)
              && transfers == if matches && d != LostBefore
                              then old(transfers)[id := old(transfers)[id].(status := status, reason := reason)]
                              else old(transfers)
    {
      heard, moved := d == Replied, false;
      if d != LostBefore && id in transfers && transfers[id].status == PENDING {
        transfers := transfers[id := transfers[id].(status := status, reason := reason)];
        moved := true;
      }
    }
  }

  function TransferWeather(answers: Call -> Answer): Weather {
    var post := answers(CreateTransfers);
    Weather(answers(CreateSender).delivery, answers(CreateRecipient).delivery, post.delivery, post.refused, post.clock)
  }

  /** Ledger.Transfer is the machine's three ledger calls, one after the other. */
  lemma TransferAlone(w: World, id: Id, seen: TransferRow, t: LedgerModel.Transfer, p: TransferParam,
      answers: Call -> Answer)
    requires p.id == id && p.sender == seen.sender && p.recipient == seen.recipient && p.amount == seen.amount
    requires TransferRequest(p).1 == Some(t)
    ensures var (cluster, e) := InternalTransfer(w.cluster, p, TransferWeather(answers));
            RunAlone(w, Task(id, OpenSender(seen, t.ledger)), answers)
            == RunAlone(w.(cluster := cluster), Task(id, AfterLedger(e, CloseSucceeded)), answers)
  {
    hide RunAlone, EnsureAccounts, CreateTransfer;
    Onward(w, Task(id, OpenSender(seen, t.ledger)), answers);
    var (c1, e1) := EnsureAccounts(w.cluster, t.ledger, seen.sender, answers(CreateSender).delivery);
    EnsureErrors(w.cluster, t.ledger, seen.sender, answers(CreateSender).delivery);
    if e1 == NoError {
      Onward(w.(cluster := c1), Task(id, OpenRecipient(seen, t.ledger)), answers);
      var (c2, e2) := EnsureAccounts(c1, t.ledger, seen.recipient, answers(CreateRecipient).delivery);
      EnsureErrors(c1, t.ledger, seen.recipient, answers(CreateRecipient).delivery);
      if e2 == NoError {
        Onward(w.(cluster := c2), Task(id, PostTransfer(seen, t.ledger)), answers);
      }
    }
  }

  lemma EnsureErrors(c: Cluster, ledger: nat, wallet: Id, d: Delivery)
    ensures EnsureAccounts(c, ledger, wallet, d).1 in {NoError, Rejected, Unavailable}
  {
  }

  lemma TransferGuards(c: Cluster, p: TransferParam, w: Weather)
    ensures TransferRequest(p).1.None? ==>
              InternalTransfer(c, p, w) == (c, TransferRequest(p).0)
                && TransferRequest(p).0 in {Rejected, CrossCurrency}
    ensures TransferRequest(p).0 == CrossCurrency ==> !EqualFold(p.senderCurrency, p.recipientCurrency)
  {
  }

  class TransferWorker {
    const repository: TransactionRepository
    const ledger: LedgerAdapter.Ledger

    constructor (repository: TransactionRepository, ledger: LedgerAdapter.Ledger)
      ensures this.repository == repository && this.ledger == ledger
    {
      this.repository, this.ledger := repository, ledger;
    }

    function State(): World
      reads repository, ledger.client
    {
      World(repository.transfers, repository.wallets, ledger.client.State())
    }

    /** `after` is what the caller returns once the row says FAILED. */
    method finalizeFailed(id: Id, reason: string, ghost after: TaskError, answers: Call -> Answer)
        returns (e: TaskError)
      modifies repository`transfers
      ensures e == Ok || e == Transient
      ensures (State(), if e == Ok then after else Transient)
              == RunAlone(old(State()), Task(id, CloseFailed(reason, after)), answers)
    {
      hide RunAlone, EnsureAccounts, CreateTransfer;
      Onward(State(), Task(id, CloseFailed(reason, after)), answers);
      var heard, moved := repository.markTransfer(id, FAILED, reason, answers(UpdateFailed).delivery);
      e := if heard then Ok else Transient;
      Over(State(), id, if heard then after else Transient, answers);
    }

    method closeSucceeded(id: Id, answers: Call -> Answer) returns (e: TaskError)
      modifies repository`transfers
      ensures (State(), e) == RunAlone(old(State()), Task(id, CloseSucceeded), answers)
    {
      hide RunAlone, EnsureAccounts, CreateTransfer;
      Onward(State(), Task(id, CloseSucceeded), answers);
      var heard, moved := repository.markTransfer(id, SUCCESS, "", answers(UpdateSucceeded).delivery);
      e := if heard then Ok else Transient;
      Over(State(), id, e, answers);
    }

    /** The two wallets, or nothing and what the task returns. */
    method loadWallets(id: Id, transfer: TransferRow, answers: Call -> Answer)
      returns (wallets: Option<(Wallet, Wallet)>, e: TaskError)
      modifies repository`transfers
      ensures wallets.None? ==>
                (State(), e) == RunAlone(old(State()), Task(id, ReadSender(transfer)), answers)
      ensures wallets.Some? ==>
                && State() == old(State())
                && RunAlone(State(), Task(id, ReadSender(transfer)), answers)
                   == RunAlone(State(), Task(id, AfterWallets(id, transfer, wallets.value.0, wallets.value.1)), answers)
                && wallets.value.0.active && wallets.value.1.active
                && EqualFold(wallets.value.0.currency, wallets.value.1.currency)
    {
      hide RunAlone, EnsureAccounts, CreateTransfer, TransferRequest;
      Onward(State(), Task(id, ReadSender(transfer)), answers);
      var heard, sender := repository.GetWalletByID(transfer.sender, answers(GetSender).delivery);
      if sender.None? {
        e := if heard then SkipRetry else Transient;
        Over(State(), id, e, answers);
        return None, e;
      }
      Onward(State(), Task(id, ReadRecipient(transfer, sender.value)), answers);
      var heardToo, recipient := repository.GetWalletByID(transfer.recipient, answers(GetRecipient).delivery);
      if recipient.None? {
        e := if heardToo then SkipRetry else Transient;
        Over(State(), id, e, answers);
        return None, e;
      }
      if !sender.value.active || !recipient.value.active {
        e := finalizeFailed(id, INACTIVE, Ok, answers);
        return None, e;
      }
      if !EqualFold(sender.value.currency, recipient.value.currency) {
        e := finalizeFailed(id, CROSS, Ok, answers);
        return None, e;
      }
      return Some((sender.value, recipient.value)), Ok;
    }

    method HandleTransferExecute(id: Id, answers: Call -> Answer) returns (e: TaskError)
      modifies repository`transfers, ledger.client
      ensures (State(), e) == RunAlone(old(State()), Task(id, ReadTransfer), answers)
    {
      hide RunAlone, EnsureAccounts, CreateTransfer, InternalTransfer;
      Onward(State(), Task(id, ReadTransfer), answers);
      var heard, found := repository.GetTransferByID(id, answers(GetTransfer).delivery);
      if found.None? || found.value.status != PENDING {
        e := if !heard then Transient else if found.None? then SkipRetry else Ok;
        Over(State(), id, e, answers);
        return e;
      }
      var wallets;
      wallets, e := loadWallets(id, found.value, answers);
      if wallets.None? {
        return e;
      }
      e := submit(id, found.value, wallets.value.0, wallets.value.1, answers);
    }

    method submit(id: Id, transfer: TransferRow, sender: Wallet, recipient: Wallet, answers: Call -> Answer)
      returns (e: TaskError)
      requires sender.active && recipient.active && EqualFold(sender.currency, recipient.currency)
      modifies repository`transfers, ledger.client
      ensures (State(), e) == RunAlone(old(State()), Task(id, AfterWallets(id, transfer, sender, recipient)), answers)
    {
      hide RunAlone, EnsureAccounts, CreateTransfer, InternalTransfer, TransferRequest;
      var p := ParamFor(id, transfer, sender, recipient);
      ghost var before := State();
      TransferGuards(before.cluster, p, TransferWeather(answers));
      var result := ledger.Transfer(p, TransferWeather(answers));
      if TransferRequest(p).1.Some? {
        TransferAlone(before, id, transfer, TransferRequest(p).1.value, p, answers);
      }
      match result
      case NoError =>
        e := closeSucceeded(id, answers);
      case InsufficientFunds =>
        e := finalizeFailed(id, INSUFFICIENT, Ok, answers);
      case Unavailable =>
        e := Transient;
        Over(State(), id, e, answers);
      case _ =>
        e := finalizeFailed(id, REJECTED, SkipRetry, answers);
        if e == Ok {
          e := SkipRetry;
        }
    }

    method HandleTransferExhausted(id: Id, answers: Call -> Answer)
      modifies repository`transfers
      ensures State() == RunAlone(old(State()), Task(id, ReadExhausted), answers).0
    {
      hide RunAlone, EnsureAccounts, CreateTransfer;
      Onward(State(), Task(id, ReadExhausted), answers);
      var heard, found := repository.GetTransferByID(id, answers(GetExhausted).delivery);
      if found.None? || found.value.status != PENDING {
        Over(State(), id, Ok, answers);
        return;
      }
      Onward(State(), Task(id, LookUpEntry), answers);
      var moved, lookup := ledger.TransferExists(id, answers(LookupTransfers).delivery);
      if lookup != NoError {
        Over(State(), id, Ok, answers);
        return;
      }
      if moved {
        var e := closeSucceeded(id, answers);
        return;
      }
      var e := finalizeFailed(id, EXHAUSTED, Ok, answers);
    }
  }
}
