/** The payment tasks as they are written: rows, ledger and refunds change in place, one call at a time,
    with early returns. Each is one uninterrupted run of the step machine. */
module DepositWorker {
  import opened Common
  import opened LedgerModel
  import opened DepositMachine
  import LedgerAdapter

  class TransactionRepository {
    var intents: map<Id, Intent>
    var wallets: map<Id, Wallet>

    constructor (wallets: map<Id, Wallet>)
      ensures intents == map[] && this.wallets == wallets
    {
      intents, this.wallets := map[], wallets;
    }

    method GetIntentByReference(id: Id, d: Delivery) returns (heard: bool, found: Option<Intent>)
      ensures heard == (d == Replied)
      ensures found == if heard && id in intents then Some(intents[id]) else None
    {
      heard, found := d == Replied, None;
      if heard && id in intents {
        found := Some(intents[id]);
      }
    }

    method GetWalletByID(id: Id, d: Delivery) returns (heard: bool, found: Option<Wallet>)
      ensures heard == (d == Replied)
      ensures found == if heard && id in wallets then Some(wallets[id]) else None
    {
      heard, found := d == Replied, None;
      if heard && id in wallets {
        found := Some(wallets[id]);
      }
    }

    /** UPDATE ... SET status = to WHERE id = ? AND status IN from. */
    method moveIntent(id: Id, from: set<Status>, to: Status, d: Delivery) returns (heard: bool, moved: bool)
      modifies this`intents
      ensures heard == (d == Replied)
      ensures var matches := id in old(intents) && old(intents)[id].status in from;
              && (heard ==> moved == matches)
              && intents == if matches && d != LostBefore
                            then old(intents)[id := old(intents)[id].(status := to)] else old(intents)
    {
      heard, moved := d == Replied, false;
      if d != LostBefore && id in intents && intents[id].status in from {
        intents := intents[id := intents[id].(status := to)];
        moved := true;
      }
    }
  }

  class PaymentProvider {
    var charged: map<Id, nat>
    var refunded: map<Id, nat>

    constructor ()
      ensures charged == map[] && refunded == map[]
    {
      charged, refunded := map[], map[];
    }

    /** Returns an amount of a charge, never more in all than was charged. */
    method Refund(id: Id, amount: nat, d: Delivery) returns (ok: bool)
      modifies this`refunded
      ensures var already := if id in old(refunded) then old(refunded)[id] else 0;
              var accepted := already + amount <= if id in charged then charged[id] else 0;
              && ok == (accepted && d == Replied)
              && refunded == if accepted && d != LostBefore then old(refunded)[id := already + amount]
                 else old(refunded)
    {
      var already := if id in refunded then refunded[id] else 0;
      var charge := if id in charged then charged[id] else 0;
      ok := false;
      if already + amount <= charge && d != LostBefore {
        refunded := refunded[id := already + amount];
        ok := d == Replied;
      }
    }
  }

  /** Where a signed webhook sends its task. */
  function WebhookStage(status: PaymentStatus, amount: Int64, currency: string): Stage {
    match status
    case PaymentSuccess => ReadIntent(amount, currency)
    case PaymentFailed => CloseFailed
    case PaymentAbandoned => Finished(Ok)
    case PaymentPending => Finished(Ok)
  }

  function DepositWeather(answers: Call -> Answer): Weather {
    var post := answers(PostTransfer);
    Weather(answers(CreateAccounts).delivery, Replied, post.delivery, post.refused, post.clock)
  }

  /** What settle makes of the ledger's answer. */
  function AfterDeposit(e: LedgerError): Stage {
    if e == NoError then CloseSucceeded else Finished(LedgerFailure(e))
  }

  /** Ledger.Deposit is the machine's two ledger calls, one after the other. */
  lemma DepositAlone(w: World, id: Id, seen: Intent, t: LedgerModel.Transfer, p: DepositParam, answers: Call -> Answer)
    requires p.id == id && p.wallet == seen.wallet && p.amount == seen.amount && DepositRequest(p) == Some(t)
    ensures var (cluster, e) := Deposit(w.cluster, p, DepositWeather(answers));
            RunAlone(w, Task(id, OpenAccount(seen, t.ledger)), answers)
            == RunAlone(w.(cluster := cluster), Task(id, AfterDeposit(e)), answers)
  {
    hide RunAlone, EnsureAccounts, CreateTransfer;
    Onward(w, Task(id, OpenAccount(seen, t.ledger)), answers);
    var (c1, e1) := EnsureAccounts(w.cluster, t.ledger, seen.wallet, answers(CreateAccounts).delivery);
    if e1 == NoError {
      Onward(w.(cluster := c1), Task(id, PostDeposit(seen, t.ledger)), answers);
    }
  }

  class PaymentWorker {
    const repository: TransactionRepository
    const provider: PaymentProvider
    const ledger: LedgerAdapter.Ledger
    var receipts: map<Id, nat>
    var polls: set<Id>  // the deposits whose poll task is waiting in the queue

    constructor (repository: TransactionRepository, provider: PaymentProvider, ledger: LedgerAdapter.Ledger)
      ensures this.repository == repository && this.provider == provider && this.ledger == ledger
      ensures receipts == map[] && polls == {}
    {
      this.repository, this.provider, this.ledger, receipts, polls := repository, provider, ledger, map[], {};
    }

    function State(): World
      reads this, repository, provider, ledger.client
    {
      World(repository.intents, repository.wallets, ledger.client.State(), provider.charged, provider.refunded,
        receipts)
    }

    method fail(id: Id, answers: Call -> Answer) returns (e: TaskError)
      modifies repository`intents
      ensures (State(), e) == RunAlone(old(State()), Task(id, CloseFailed), answers)
    {
      hide RunAlone, EnsureAccounts, CreateTransfer;
      Onward(State(), Task(id, CloseFailed), answers);
      var heard, moved := repository.moveIntent(id, {PENDING}, FAILED, answers(UpdateFailed).delivery);
      e := if heard then Ok else Transient;
      Over(State(), id, e, answers);
    }

    method closeSucceeded(id: Id, answers: Call -> Answer) returns (e: TaskError)
      modifies repository`intents, this`receipts
      ensures (State(), e) == RunAlone(old(State()), Task(id, CloseSucceeded), answers)
    {
      hide RunAlone, EnsureAccounts, CreateTransfer;
      Onward(State(), Task(id, CloseSucceeded), answers);
      var heard, moved := repository.moveIntent(id, {PENDING, FAILED}, SUCCESS, answers(UpdateSucceeded).delivery);
      e := if heard then Ok else Transient;
      if heard && moved {
        receipts := receipts[id := (if id in receipts then receipts[id] else 0) + 1];
      }
      Over(State(), id, e, answers);
    }

    method refundLatePayment(id: Id, intent: Intent, answers: Call -> Answer) returns (e: TaskError)
      requires intent.status == FAILED || intent.status == REFUNDING
      modifies repository`intents, provider`refunded, this`receipts
      ensures (State(), e) == RunAlone(old(State()),
                Task(id, if intent.status == FAILED then LookUpEntry(intent) else BeginRefund(intent)), answers)
    {
      hide RunAlone, EnsureAccounts, CreateTransfer;
      if intent.status == FAILED {
        Onward(State(), Task(id, LookUpEntry(intent)), answers);
        var credited, lookup := ledger.TransferExists(id, answers(LookupTransfers).delivery);
        if lookup != NoError {
          Over(State(), id, Transient, answers);
          return Transient;
        }
        if credited {
          e := closeSucceeded(id, answers);
          return e;
        }
      }
      e := refund(id, intent, answers);
    }

    method refund(id: Id, intent: Intent, answers: Call -> Answer) returns (e: TaskError)
      modifies repository`intents, provider`refunded
      ensures (State(), e) == RunAlone(old(State()), Task(id, BeginRefund(intent)), answers)
    {
      hide RunAlone, EnsureAccounts, CreateTransfer, Submit, Find, AfterWallet, AfterIntent, AfterVerdict, AfterPoll,
        AfterLookup;
      Onward(State(), Task(id, BeginRefund(intent)), answers);
      var heard, moved := repository.moveIntent(id, {FAILED, REFUNDING}, REFUNDING, answers(UpdateRefunding).delivery);
      if !heard || !moved {
        e := if heard then Ok else Transient;
        Over(State(), id, e, answers);
        return e;
      }
      e := sendRefund(id, intent, answers);
    }

    method sendRefund(id: Id, intent: Intent, answers: Call -> Answer) returns (e: TaskError)
      modifies repository`intents, provider`refunded
      ensures (State(), e) == RunAlone(old(State()), Task(id, SendRefund(intent)), answers)
    {
      hide RunAlone, EnsureAccounts, CreateTransfer, Submit, Find, AfterWallet, AfterIntent, AfterVerdict, AfterPoll,
        AfterLookup;
      Onward(State(), Task(id, SendRefund(intent)), answers);
      var ok := provider.Refund(id, Units(intent.amount), answers(RefundPayment).delivery);
      if !ok {
        Over(State(), id, Transient, answers);
        return Transient;
      }
      Onward(State(), Task(id, CloseRefunded), answers);
      var heard, moved := repository.moveIntent(id, {REFUNDING}, REFUNDED, answers(UpdateRefunded).delivery);
      e := if heard then Ok else Transient;
      Over(State(), id, e, answers);
    }

    method settle(id: Id, amount: Int64, currency: string, answers: Call -> Answer) returns (e: TaskError)
      modifies repository`intents, provider`refunded, this`receipts, ledger.client
      ensures (State(), e) == RunAlone(old(State()), Task(id, ReadIntent(amount, currency)), answers)
    {
      hide RunAlone, EnsureAccounts, CreateTransfer, Deposit;
      Onward(State(), Task(id, ReadIntent(amount, currency)), answers);
      var heard, found := repository.GetIntentByReference(id, answers(GetIntent).delivery);
      if found.None? {
        e := if heard then SkipRetry else Transient;
        Over(State(), id, e, answers);
        return e;
      }
      var intent := found.value;
      match intent.status {
        case PENDING =>
        case FAILED =>
          e := refundLatePayment(id, intent, answers);
          return e;
        case REFUNDING =>
          e := refundLatePayment(id, intent, answers);
          return e;
        case _ =>
          Over(State(), id, Ok, answers);
          return Ok;
      }
      if amount != intent.amount {
        Over(State(), id, SkipRetry, answers);
        return SkipRetry;
      }
      e := credit(id, intent, currency, answers);
    }

    method credit(id: Id, intent: Intent, currency: string, answers: Call -> Answer) returns (e: TaskError)
      modifies repository`intents, this`receipts, ledger.client
      ensures (State(), e) == RunAlone(old(State()), Task(id, ReadWallet(intent, currency)), answers)
    {
      hide RunAlone, EnsureAccounts, CreateTransfer, Deposit;
      Onward(State(), Task(id, ReadWallet(intent, currency)), answers);
      var heard, wallet := repository.GetWalletByID(intent.wallet, answers(GetWallet).delivery);
      if wallet.None? {
        e := if heard then SkipRetry else Transient;
        Over(State(), id, e, answers);
        return e;
      }
      if (currency != "" && !EqualFold(currency, wallet.value.currency)) || !wallet.value.active {
        Over(State(), id, SkipRetry, answers);
        return SkipRetry;
      }
      ghost var before := State();
      var p := DepositParam(id, intent.wallet, wallet.value.currency, intent.amount);
      DepositGuards(before.cluster, p, DepositWeather(answers));
      var result := ledger.Deposit(p, DepositWeather(answers));
      if DepositRequest(p).Some? {
        DepositAlone(before, id, intent, DepositRequest(p).value, p, answers);
      }
      if result != NoError {
        e := LedgerFailure(result);
        Over(State(), id, e, answers);
        return e;
      }
      e := closeSucceeded(id, answers);
    }

    /** A waiting poll is removed if the queue takes the request; one that is running is left alone. */
    method cancelPoll(id: Id, d: Delivery)
      modifies this`polls
      ensures polls == if d == LostBefore then old(polls) else old(polls) - {id}
    {
      if d != LostBefore {
        polls := polls - {id};
      }
    }

    /** `removal` is what becomes of the request to remove the poll; its failure is not the webhook's. */
    method HandlePaymentWebhook(id: Id, status: PaymentStatus, amount: Int64, currency: string,
        removal: Delivery, answers: Call -> Answer)
      returns (e: TaskError)
      modifies repository`intents, provider`refunded, this`receipts, this`polls, ledger.client
      ensures (State(), e) == RunAlone(old(State()), Task(id, WebhookStage(status, amount, currency)), answers)
      ensures polls == if status in {PaymentSuccess, PaymentFailed} && e == Ok && removal != LostBefore
                       then old(polls) - {id} else old(polls)
    {
      match status {
        case PaymentSuccess => e := settle(id, amount, currency, answers);
        case PaymentFailed => e := fail(id, answers);
        case _ =>
          return Ok;
      }
      if e != Ok {
        return e;
      }
      cancelPoll(id, removal);
    }

    method HandlePaymentPoll(id: Id, answers: Call -> Answer) returns (e: TaskError)
      modifies repository`intents, provider`refunded, this`receipts, ledger.client
      ensures (State(), e) == RunAlone(old(State()), Task(id, PollIntent), answers)
    {
      hide RunAlone, EnsureAccounts, CreateTransfer, Deposit;
      Onward(State(), Task(id, PollIntent), answers);
      var heard, found := repository.GetIntentByReference(id, answers(GetIntentForPoll).delivery);
      if found.None? || found.value.status != PENDING {
        e := if !heard then Transient else if found.None? then SkipRetry else Ok;
        Over(State(), id, e, answers);
        return e;
      }
      Onward(State(), Task(id, AskProvider), answers);
      var reply := answers(VerifyPayment);
      if reply.delivery != Replied || !reply.verdict.known {
        e := if reply.delivery != Replied then Transient else RetryLater;
        Over(State(), id, e, answers);
        return e;
      }
      match reply.verdict.status
      case PaymentSuccess => e := settle(id, reply.verdict.amount, reply.verdict.currency, answers);
      case PaymentFailed => e := fail(id, answers);
      case _ =>
        e := RetryLater;
        Over(State(), id, e, answers);
    }

    method HandlePollExhausted(id: Id, answers: Call -> Answer)
      modifies repository`intents
      ensures State() == RunAlone(old(State()), Task(id, CloseFailed), answers).0
    {
      var e := fail(id, answers);
    }
  }

  lemma DepositGuards(c: Cluster, p: DepositParam, w: Weather)
    ensures DepositRequest(p).None? ==> Deposit(c, p, w) == (c, Rejected)
  {
  }
}
