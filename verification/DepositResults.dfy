/** What one uninterrupted attempt leaves and returns, whichever of its replies are lost. */
module DepositResults {
  import opened Common
  import opened LedgerModel
  import opened LedgerSafety
  import opened DepositMachine
  import opened DepositSafety
  import opened DepositTheorems
  import opened DepositSettling
  import opened DepositWorker
  import DepositRace
  import LedgerTheorems

  function Delivered(answers: Call -> Answer, call: Call): Delivery { answers(call).delivery }

  predicate Hears(answers: Call -> Answer, calls: set<Call>) {
    forall call :: call in calls ==> Heard(answers(call))
  }

  // ---- Closing a row, of either kind

  function WithReceipt(w: World, id: Id): World {
    w.(receipts := w.receipts[id := Receipts(w, id) + 1])
  }

  /** From the update to SUCCESS on. */
  lemma ClosesAlone(w: World, id: Id, answers: Call -> Answer)
    requires id in w.intents && w.intents[id].status in {PENDING, FAILED}
    ensures var (w', e) := RunAlone(w, Task(id, CloseSucceeded), answers);
            match Delivered(answers, UpdateSucceeded)
            case LostBefore => w' == w && e == Transient
            case LostAfter => w' == WithStatus(w, id, SUCCESS) && e == Transient
            case Replied => w' == WithReceipt(WithStatus(w, id, SUCCESS), id) && e == Ok
  {
    hide RunAlone, Find, EnsureAccounts, Submit;
    Onward(w, Task(id, CloseSucceeded), answers);
    var (w1, s1) := DoCloseSucceeded(w, id, answers(UpdateSucceeded));
    Over(w1, id, s1.error, answers);
  }

  /** A failed payment: a PENDING row says FAILED, whether or not that is heard; any other row, and everything
      else, stays as it is. */
  lemma FailsAlone(w: World, id: Id, answers: Call -> Answer)
    ensures var (w', e) := RunAlone(w, Task(id, CloseFailed), answers);
            && w' == (if id in w.intents && w.intents[id].status == PENDING
                         && Delivered(answers, UpdateFailed) != LostBefore
                      then WithStatus(w, id, FAILED) else w)
            && e == (if Heard(answers(UpdateFailed)) then Ok else Transient)
  {
    hide RunAlone, Find, EnsureAccounts, Submit;
    Onward(w, Task(id, CloseFailed), answers);
    var (w1, s1) := DoCloseFailed(w, id, answers(UpdateFailed));
    Over(w1, id, s1.error, answers);
  }

  // ---- A pending deposit

  /** How far an attempt at this payment gets: to the posting, past it, and to the row. */
  predicate ReachesPosting(w: World, id: Id, amount: Int64, currency: string, answers: Call -> Answer)
    requires id in w.intents
  {
    Hears(answers, {GetIntent, GetWallet, CreateAccounts}) && Settleable(w, w.intents[id], amount, currency)
  }

  predicate PostsNow(w: World, id: Id, amount: Int64, currency: string, answers: Call -> Answer)
    requires id in w.intents
  {
    && ReachesPosting(w, id, amount, currency, answers) && !IsCredited(w, id)
    && Delivered(answers, PostTransfer) != LostBefore && !answers(PostTransfer).refused
  }

  predicate PassesPosting(w: World, id: Id, amount: Int64, currency: string, answers: Call -> Answer)
    requires id in w.intents
  {
    && ReachesPosting(w, id, amount, currency, answers) && Heard(answers(PostTransfer))
    && (IsCredited(w, id) || !answers(PostTransfer).refused)
  }

  /** Some call that was heard found a reason never to try this payment again. */
  predicate TurnedDown(w: World, id: Id, amount: Int64, currency: string, answers: Call -> Answer)
    requires id in w.intents
  {
    var i := w.intents[id];
    && Heard(answers(GetIntent))
    && (amount != i.amount ||
          (Heard(answers(GetWallet)) &&
             (i.wallet !in w.wallets || !w.wallets[i.wallet].active
              || !DepositRace.Agrees(currency, w.wallets[i.wallet].currency)
              || (Heard(answers(CreateAccounts)) &&
                    (!Openable(w.cluster, CURRENCY_LEDGERS[w.wallets[i.wallet].currency], i.wallet)
                     || (Heard(answers(PostTransfer)) && answers(PostTransfer).refused && !IsCredited(w, id)))))))
  }

  /** The ledger afterwards: at most accounts opened, or the deposit posted on its wallet's currency's ledger. */
  ghost predicate LedgerAfter(w: World, w': World, id: Id, posts: bool)
    requires id in w.intents
  {
    && (forall other :: other != id || !posts ==> Find(w'.cluster.log, other) == Find(w.cluster.log, other))
    && (posts ==>
          var i := w.intents[id];
          && i.wallet in w.wallets && w.wallets[i.wallet].currency in CURRENCY_LEDGERS && i.amount > 0
          && var ledger := CURRENCY_LEDGERS[w.wallets[i.wallet].currency];
             Find(w'.cluster.log, id) == Some(
               Transfer(id, SettlementAccount(ledger), WalletAccount(i.wallet), i.amount, ledger, TRANSFER_DEPOSIT)))
  }

  lemma OpenStep(w: World, id: Id, ledger: nat, a: Answer)
    requires WorldOk(w) && id in w.intents
    ensures var (w', s') := DoOpenAccount(w, w.intents[id], ledger, a);
            && w' == w.(cluster := w'.cluster) && w'.cluster.log == w.cluster.log
            && s' == (if !Heard(a) then Finished(Transient)
                      else if Openable(w.cluster, ledger, w.intents[id].wallet) then PostDeposit(w.intents[id], ledger)
                      else Finished(SkipRetry))
            && WorldOk(w') && (s'.PostDeposit? ==> AccountsOpen(w'.cluster, ledger, w.intents[id].wallet))
  {
    hide WorldOk, Evolves, AccountsOpen, Openable, DoOpenAccount;
    OpenAccountGood(w, id, w.intents[id], ledger, a);
    if Heard(a) {
      OpenOutcome(w, w.intents[id], ledger, a);
    } else {
      OpenUnheard(w, w.intents[id], ledger, a);
    }
  }

  lemma OpenUnheard(w: World, i: Intent, ledger: nat, a: Answer)
    requires !Heard(a)
    ensures var (w', s') := DoOpenAccount(w, i, ledger, a); NothingPaid(w, w') && s' == Finished(Transient)
  {
  }

  lemma PostedIsTheEntry(w: World, id: Id, ledger: nat)
    requires WorldOk(w) && id in w.intents && IsCredited(w, id)
    requires AccountsOpen(w.cluster, ledger, w.intents[id].wallet)
    ensures Find(w.cluster.log, id) == Some(EntryFor(id, w.intents[id], ledger))
  {
    assert FileOk(id, FileOf(w, id));
    LedgerTheorems.EntryIsSettled(w.cluster, id);
    hide FilesOk, ClusterOk, Find;
  }

  lemma PostStage(w: World, id: Id, ledger: nat, a: Answer)
    requires WorldOk(w) && id in w.intents && AccountsOpen(w.cluster, ledger, w.intents[id].wallet)
    ensures w.intents[id].amount > 0
    ensures DoPostDeposit(w, id, w.intents[id], ledger, a).1
            == if !Heard(a) then Finished(Transient)
               else if IsCredited(w, id) || !a.refused then CloseSucceeded
               else Finished(SkipRetry)
  {
    hide WorldOk, Find;
    AmountIsPositive(w, id);
    if IsCredited(w, id) {
      PostedIsTheEntry(w, id, ledger);
    }
  }

  lemma PostEntries(w: World, id: Id, ledger: nat, a: Answer)
    requires id in w.intents && AccountsOpen(w.cluster, ledger, w.intents[id].wallet)
    ensures var (w', s') := DoPostDeposit(w, id, w.intents[id], ledger, a);
            && w' == w.(cluster := w'.cluster)
            && forall other :: Find(w'.cluster.log, other)
                 == if !IsCredited(w, id) && a.delivery != LostBefore && !a.refused && other == id
                    then Some(EntryFor(id, w.intents[id], ledger)) else Find(w.cluster.log, other)
  {
    hide Find, Submit;
    var entry := EntryFor(id, w.intents[id], ledger);
    forall other {:trigger Find(DoPostDeposit(w, id, w.intents[id], ledger, a).0.cluster.log, other)}
      ensures Find(DoPostDeposit(w, id, w.intents[id], ledger, a).0.cluster.log, other)
              == if !IsCredited(w, id) && a.delivery != LostBefore && !a.refused && other == id then Some(entry)
                 else Find(w.cluster.log, other)
    {
      SubmittedEntries(w.cluster, entry, Rejected, PostWeather(a), other);
    }
  }

  /** From the posting on. */
  lemma PostsAlone(w: World, id: Id, ledger: nat, answers: Call -> Answer)
    requires WorldOk(w) && id in w.intents && w.intents[id].status == PENDING
    requires AccountsOpen(w.cluster, ledger, w.intents[id].wallet)
    ensures var (w', e) := RunAlone(w, Task(id, PostDeposit(w.intents[id], ledger)), answers);
            var a := answers(PostTransfer);
            var passes := Heard(a) && (IsCredited(w, id) || !a.refused);
            && RowAfter(w, w', id, passes, answers)
            && e == (if passes && Heard(answers(UpdateSucceeded)) then Ok
                     else if Heard(a) && !passes then SkipRetry else Transient)
            && forall other :: Find(w'.cluster.log, other)
                 == if other == id && !IsCredited(w, id) && a.delivery != LostBefore && !a.refused
                    then Some(EntryFor(id, w.intents[id], ledger)) else Find(w.cluster.log, other)
  {
    hide RunAlone, Find, DoPostDeposit, WorldOk, AccountsOpen, EntryFor;
    var i := w.intents[id];
    var (w1, s1) := DoPostDeposit(w, id, i, ledger, answers(PostTransfer));
    PostStage(w, id, ledger, answers(PostTransfer));
    PostEntries(w, id, ledger, answers(PostTransfer));
    Onward(w, Task(id, PostDeposit(i, ledger)), answers);
    if s1.Finished? {
      Over(w1, id, s1.error, answers);
    } else {
      ClosesAlone(w1, id, answers);
    }
  }

  /** The row says SUCCESS once the posting is passed and the update takes effect, and the receipt goes out if
      that is heard; charges, refunds, wallets and other rows stay as they are. */
  predicate RowAfter(w: World, w': World, id: Id, passes: bool, answers: Call -> Answer)
    requires id in w.intents
  {
    var d := Delivered(answers, UpdateSucceeded);
    && w'.intents == (if passes && d != LostBefore then w.intents[id := w.intents[id].(status := SUCCESS)]
                      else w.intents)
    && w'.receipts == (if passes && d == Replied then w.receipts[id := Receipts(w, id) + 1] else w.receipts)
    && w'.wallets == w.wallets && w'.charged == w.charged && w'.refunded == w.refunded
  }

  /** From the opening of the accounts on. */
  lemma OpensAlone(w: World, id: Id, ledger: nat, answers: Call -> Answer)
    requires WorldOk(w) && id in w.intents && w.intents[id].status == PENDING
    ensures var (w', e) := RunAlone(w, Task(id, OpenAccount(w.intents[id], ledger)), answers);
            var opens := Openable(w.cluster, ledger, w.intents[id].wallet);
            var a := answers(PostTransfer);
            var passes := Heard(answers(CreateAccounts)) && opens && Heard(a) && (IsCredited(w, id) || !a.refused);
            && RowAfter(w, w', id, passes, answers)
            && e == (if passes && Heard(answers(UpdateSucceeded)) then Ok
                     else if Heard(answers(CreateAccounts)) && (!opens || (Heard(a) && !passes)) then SkipRetry
                     else Transient)
            && forall other :: Find(w'.cluster.log, other)
                 == if other == id && Heard(answers(CreateAccounts)) && opens && !IsCredited(w, id)
                       && a.delivery != LostBefore && !a.refused
                    then Some(EntryFor(id, w.intents[id], ledger)) else Find(w.cluster.log, other)
  {
    hide RunAlone, Find, DoOpenAccount, WorldOk, AccountsOpen, Openable, EntryFor;
    var i := w.intents[id];
    var (w1, s1) := DoOpenAccount(w, i, ledger, answers(CreateAccounts));
    OpenStep(w, id, ledger, answers(CreateAccounts));
    Onward(w, Task(id, OpenAccount(i, ledger)), answers);
    if s1.Finished? {
      Over(w1, id, s1.error, answers);
    } else {
      PostsAlone(w1, id, ledger, answers);
    }
  }

  lemma AmountIsPositive(w: World, id: Id)
    requires WorldOk(w) && id in w.intents
    ensures w.intents[id].amount > 0
  {
    assert FileOk(id, FileOf(w, id));
  }

  /** The two reads of settle: on to the ledger, or over. */
  lemma GuardsAnswered(w: World, id: Id, amount: Int64, currency: string, answers: Call -> Answer)
    requires id in w.intents && w.intents[id].status == PENDING && w.intents[id].amount > 0
    ensures var i := w.intents[id];
            var fits := i.wallet in w.wallets && w.wallets[i.wallet].active
                        && DepositRace.Agrees(currency, w.wallets[i.wallet].currency);
            RunAlone(w, Task(id, ReadIntent(amount, currency)), answers)
            == if !Heard(answers(GetIntent)) then (w, Transient)
               else if amount != i.amount then (w, SkipRetry)
               else if !Heard(answers(GetWallet)) then (w, Transient)
               else if !fits then (w, SkipRetry)
               else RunAlone(w, Task(id, OpenAccount(i, CURRENCY_LEDGERS[w.wallets[i.wallet].currency])), answers)
  {
    hide RunAlone, EnsureAccounts, Submit, Find, EqualFold, CURRENCY_LEDGERS;
    var i := w.intents[id];
    Onward(w, Task(id, ReadIntent(amount, currency)), answers);
    if Heard(answers(GetIntent)) && amount == i.amount {
      Onward(w, Task(id, ReadWallet(i, currency)), answers);
    }
    Over(w, id, SkipRetry, answers);
    Over(w, id, Transient, answers);
  }

  /** settle of a pending deposit, credited before or not, whichever replies are lost: when it is credited, when
      the row closes and the receipt goes out, and what the queue is told. */
  lemma PendingOutcome(w: World, id: Id, amount: Int64, currency: string, answers: Call -> Answer)
    requires WorldOk(w) && id in w.intents && w.intents[id].status == PENDING
    ensures var (w', e) := RunAlone(w, Task(id, ReadIntent(amount, currency)), answers);
            var passes := PassesPosting(w, id, amount, currency, answers);
            && RowAfter(w, w', id, passes, answers)
            && LedgerAfter(w, w', id, PostsNow(w, id, amount, currency, answers))
            && (e == Ok <==> passes && Heard(answers(UpdateSucceeded)))
            && (e == SkipRetry <==> TurnedDown(w, id, amount, currency, answers))
            && e != RetryLater
  {
    hide RunAlone, WorldOk, DepositRace.Agrees, Openable, CURRENCY_LEDGERS, Find;
    AmountIsPositive(w, id);
    GuardsAnswered(w, id, amount, currency, answers);
    var wallet := w.intents[id].wallet;
    if wallet in w.wallets && DepositRace.Agrees(currency, w.wallets[wallet].currency) {
      AgreesIsSupported(currency, w.wallets[wallet].currency);
      OpensAlone(w, id, CURRENCY_LEDGERS[w.wallets[wallet].currency], answers);
    }
  }

  /** An answered retry of a deposit that is credited but still says PENDING closes it, with one receipt and no new
      entry, if and only if it would be credited now; if its wallet was deactivated or changed its currency in
      between, the row stays PENDING and the attempt is not retried, although the money is there. */
  lemma CreditedRetryExactly(w: World, id: Id, amount: Int64, currency: string, answers: Call -> Answer)
    requires WorldOk(w) && id in w.intents && w.intents[id].status == PENDING && IsCredited(w, id)
    requires AllHeard(answers)
    ensures var (w', e) := RunAlone(w, Task(id, ReadIntent(amount, currency)), answers);
            && (forall other :: Find(w'.cluster.log, other) == Find(w.cluster.log, other))
            && if Settleable(w, w.intents[id], amount, currency)
               then w'.intents == WithStatus(w, id, SUCCESS).intents && w'.receipts == w.receipts[id := 1] && e == Ok
               else w'.intents == w.intents && w'.receipts == w.receipts && e == SkipRetry
  {
    hide RunAlone, WorldOk, Find, Openable, DepositRace.Agrees;
    PendingOutcome(w, id, amount, currency, answers);
    NoReceiptYet(w, id);
  }

  // ---- A payment for a row that was given up on

  /** Whether such a payment may go back in full. */
  predicate Accepted(w: World, id: Id)
    requires id in w.intents
  {
    Refunded(w, id) + Units(w.intents[id].amount) <= Charged(w, id)
  }

  /** From the update to REFUNDING on: each thing happens only after the one before was heard. */
  lemma RefundsAlone(w: World, id: Id, answers: Call -> Answer)
    requires id in w.intents && w.intents[id].status in {FAILED, REFUNDING}
    ensures var i := w.intents[id];
            var (w', e) := RunAlone(w, Task(id, BeginRefund(i)), answers);
            var sent := Heard(answers(UpdateRefunding)) && Accepted(w, id);
            var paid := if sent && Delivered(answers, RefundPayment) != LostBefore
                        then WithRefund(w, id, Units(i.amount)) else w;
            && w' == (if Delivered(answers, UpdateRefunding) == LostBefore then w
                      else if sent && Heard(answers(RefundPayment)) && Delivered(answers, UpdateRefunded) != LostBefore
                      then WithStatus(paid, id, REFUNDED)
                      else WithStatus(paid, id, REFUNDING))
            && e == (if sent && Hears(answers, {RefundPayment, UpdateRefunded}) then Ok else Transient)
  {
    hide RunAlone, DoBeginRefund, WithStatus, WithRefund, Accepted, Hears;
    var i := w.intents[id];
    Onward(w, Task(id, BeginRefund(i)), answers);
    BeginStep(w, id, i, answers(UpdateRefunding));
    var (w1, s1) := DoBeginRefund(w, id, i, answers(UpdateRefunding));
    if s1.Finished? {
      Over(w1, id, s1.error, answers);
    } else {
      StatusThenRefund(w, id, Units(i.amount));
      SendsAlone(w1, id, i, answers);
      HearsBoth(answers, RefundPayment, UpdateRefunded);
    }
  }

  lemma BeginStep(w: World, id: Id, i: Intent, a: Answer)
    requires id in w.intents && w.intents[id].status in {FAILED, REFUNDING}
    ensures DoBeginRefund(w, id, i, a)
            == (if a.delivery == LostBefore then w else WithStatus(w, id, REFUNDING),
                if Heard(a) then SendRefund(i) else Finished(Transient))
  {
  }

  /** Sending money back and marking the row do not get in each other's way. */
  lemma StatusThenRefund(w: World, id: Id, amount: nat)
    requires id in w.intents
    ensures var w1 := WithStatus(w, id, REFUNDING);
            && id in w1.intents && w1.intents[id] == w.intents[id].(status := REFUNDING)
            && Accepted(w1, id) == Accepted(w, id)
            && WithRefund(w1, id, amount) == WithStatus(WithRefund(w, id, amount), id, REFUNDING)
            && WithStatus(w1, id, REFUNDED) == WithStatus(w, id, REFUNDED)
            && WithStatus(WithRefund(w1, id, amount), id, REFUNDED)
               == WithStatus(WithRefund(w, id, amount), id, REFUNDED)
  {
  }

  lemma HearsBoth(answers: Call -> Answer, a: Call, b: Call)
    ensures Hears(answers, {a, b}) <==> Heard(answers(a)) && Heard(answers(b))
  {
  }

  lemma SendsAlone(w: World, id: Id, i: Intent, answers: Call -> Answer)
    requires id in w.intents && w.intents[id].status == REFUNDING && i.amount == w.intents[id].amount
    ensures var (w', e) := RunAlone(w, Task(id, SendRefund(i)), answers);
            var paid := if Accepted(w, id) && Delivered(answers, RefundPayment) != LostBefore
                        then WithRefund(w, id, Units(i.amount)) else w;
            var closes := Accepted(w, id) && Heard(answers(RefundPayment));
            && w' == (if closes && Delivered(answers, UpdateRefunded) != LostBefore
                      then WithStatus(paid, id, REFUNDED) else paid)
            && e == (if closes && Heard(answers(UpdateRefunded)) then Ok else Transient)
  {
    hide RunAlone, Find, EnsureAccounts, Submit;
    Onward(w, Task(id, SendRefund(i)), answers);
    var (w1, s1) := DoSendRefund(w, id, i, answers(RefundPayment));
    if s1.Finished? {
      Over(w1, id, s1.error, answers);
    } else {
      Onward(w1, Task(id, CloseRefunded), answers);
      var (w2, s2) := DoCloseRefunded(w1, id, answers(UpdateRefunded));
      Over(w2, id, s2.error, answers);
    }
  }

  /** The ledger has the money of a FAILED row: it is put right. Otherwise the payment goes back. */
  predicate GoesBack(w: World, id: Id, answers: Call -> Answer)
    requires id in w.intents
  {
    && Heard(answers(GetIntent))
    && (w.intents[id].status == REFUNDING || (Heard(answers(LookupTransfers)) && !IsCredited(w, id)))
  }

  predicate PutRight(w: World, id: Id, answers: Call -> Answer)
    requires id in w.intents
  {
    w.intents[id].status == FAILED && Hears(answers, {GetIntent, LookupTransfers}) && IsCredited(w, id)
  }

  /** The status a late payment leaves. */
  function LateStatus(w: World, id: Id, answers: Call -> Answer): Status
    requires id in w.intents
  {
    if PutRight(w, id, answers) && Delivered(answers, UpdateSucceeded) != LostBefore then SUCCESS
    else if GoesBack(w, id, answers) && Delivered(answers, UpdateRefunding) != LostBefore then
      if Hears(answers, {UpdateRefunding, RefundPayment}) && Accepted(w, id)
         && Delivered(answers, UpdateRefunded) != LostBefore then REFUNDED else REFUNDING
    else w.intents[id].status
  }

  lemma LateGuards(w: World, id: Id, amount: Int64, currency: string, answers: Call -> Answer)
    requires id in w.intents && w.intents[id].status in {FAILED, REFUNDING}
    ensures RunAlone(w, Task(id, ReadIntent(amount, currency)), answers)
            == if PutRight(w, id, answers) then RunAlone(w, Task(id, CloseSucceeded), answers)
               else if GoesBack(w, id, answers) then RunAlone(w, Task(id, BeginRefund(w.intents[id])), answers)
               else (w, Transient)
  {
    hide RunAlone, Find, EnsureAccounts, Submit;
    var i := w.intents[id];
    Onward(w, Task(id, ReadIntent(amount, currency)), answers);
    if Heard(answers(GetIntent)) && i.status == FAILED {
      Onward(w, Task(id, LookUpEntry(i)), answers);
    }
    Over(w, id, Transient, answers);
  }

  /** What a late payment leaves and what the queue is told. */
  predicate LateLeaves(w: World, w': World, e: TaskError, id: Id, answers: Call -> Answer)
    requires id in w.intents
  {
    var refunds := GoesBack(w, id, answers) && Heard(answers(UpdateRefunding)) && Accepted(w, id);
    && w'.intents == w.intents[id := w.intents[id].(status := LateStatus(w, id, answers))]
    && w'.refunded == (if refunds && Delivered(answers, RefundPayment) != LostBefore
                       then w.refunded[id := Refunded(w, id) + Units(w.intents[id].amount)] else w.refunded)
    && w'.receipts == (if PutRight(w, id, answers) && Heard(answers(UpdateSucceeded))
                       then w.receipts[id := Receipts(w, id) + 1] else w.receipts)
    && w'.cluster == w.cluster && w'.wallets == w.wallets && w'.charged == w.charged
    && e == (if (PutRight(w, id, answers) && Heard(answers(UpdateSucceeded)))
                || (refunds && Hears(answers, {RefundPayment, UpdateRefunded})) then Ok else Transient)
  }

  lemma PutsRight(w: World, id: Id, answers: Call -> Answer)
    requires id in w.intents && w.intents[id].status in {FAILED, REFUNDING} && PutRight(w, id, answers)
    ensures var (w', e) := RunAlone(w, Task(id, CloseSucceeded), answers); LateLeaves(w, w', e, id, answers)
  {
    hide RunAlone, IsCredited, Accepted;
    ClosesAlone(w, id, answers);
    assert w.intents == w.intents[id := w.intents[id]];
  }

  lemma Returns(w: World, id: Id, answers: Call -> Answer)
    requires id in w.intents && w.intents[id].status in {FAILED, REFUNDING} && GoesBack(w, id, answers)
    requires !PutRight(w, id, answers)
    ensures var (w', e) := RunAlone(w, Task(id, BeginRefund(w.intents[id])), answers); LateLeaves(w, w', e, id, answers)
  {
    hide RunAlone, IsCredited, Accepted, GoesBack, PutRight, Hears;
    RefundsAlone(w, id, answers);
    HearsBoth(answers, RefundPayment, UpdateRefunded);
    HearsBoth(answers, UpdateRefunding, RefundPayment);
    assert w.intents == w.intents[id := w.intents[id]];
  }

  /** settle of a row given up on, whichever replies are lost: its status, what goes back and what is told. */
  lemma LateOutcome(w: World, id: Id, amount: Int64, currency: string, answers: Call -> Answer)
    requires id in w.intents && w.intents[id].status in {FAILED, REFUNDING}
    ensures var (w', e) := RunAlone(w, Task(id, ReadIntent(amount, currency)), answers);
            LateLeaves(w, w', e, id, answers)
  {
    hide RunAlone;
    LateGuards(w, id, amount, currency, answers);
    if PutRight(w, id, answers) {
      hide LateLeaves;
      PutsRight(w, id, answers);
    } else if GoesBack(w, id, answers) {
      hide LateLeaves;
      Returns(w, id, answers);
    } else {
      assert w.intents == w.intents[id := w.intents[id]];
    }
  }

  /** settle without a row to work on: an intent unheard of is retried, a missing one is not, and one that is
      SUCCESS or REFUNDED is done. Nothing changes. */
  lemma NothingToSettle(w: World, id: Id, amount: Int64, currency: string, answers: Call -> Answer)
    requires Heard(answers(GetIntent)) && id in w.intents ==> w.intents[id].status in {SUCCESS, REFUNDED}
    ensures RunAlone(w, Task(id, ReadIntent(amount, currency)), answers)
            == (w, if !Heard(answers(GetIntent)) then Transient else if id !in w.intents then SkipRetry else Ok)
  {
    hide RunAlone, Find, EnsureAccounts, Submit;
    Onward(w, Task(id, ReadIntent(amount, currency)), answers);
    Over(w, id, AfterIntent(w, id, amount, currency, answers(GetIntent)).error, answers);
  }

  // ---- Polls

  /** A poll goes on to the provider's verdict. */
  predicate Asks(w: World, id: Id, answers: Call -> Answer) {
    && Heard(answers(GetIntentForPoll)) && id in w.intents && w.intents[id].status == PENDING
    && Heard(answers(VerifyPayment)) && answers(VerifyPayment).verdict.known
  }

  /** Without a verdict, or with one that leaves the payment open, a poll changes nothing; only a row that is
      missing or not PENDING stops it, anything else is tried again. */
  lemma PollWaits(w: World, id: Id, answers: Call -> Answer)
    requires !Asks(w, id, answers) || answers(VerifyPayment).verdict.status in {PaymentAbandoned, PaymentPending}
    ensures RunAlone(w, Task(id, PollIntent), answers)
            == (w, if !Heard(answers(GetIntentForPoll)) then Transient
                   else if id !in w.intents then SkipRetry
                   else if w.intents[id].status != PENDING then Ok
                   else if !Heard(answers(VerifyPayment)) then Transient
                   else RetryLater)
  {
    hide RunAlone, Find, EnsureAccounts, Submit;
    Onward(w, Task(id, PollIntent), answers);
    var s1 := AfterPoll(w, id, answers(GetIntentForPoll));
    if s1.Finished? {
      Over(w, id, s1.error, answers);
    } else {
      Onward(w, Task(id, AskProvider), answers);
      Over(w, id, AfterVerdict(answers(VerifyPayment)).error, answers);
    }
  }

  /** A verdict that the payment failed fails the PENDING row, and does nothing else. */
  lemma PollFails(w: World, id: Id, answers: Call -> Answer)
    requires Asks(w, id, answers) && answers(VerifyPayment).verdict.status == PaymentFailed
    ensures RunAlone(w, Task(id, PollIntent), answers)
            == (if Delivered(answers, UpdateFailed) == LostBefore then w else WithStatus(w, id, FAILED),
                if Heard(answers(UpdateFailed)) then Ok else Transient)
  {
    hide RunAlone, Find, EnsureAccounts, Submit;
    Onward(w, Task(id, PollIntent), answers);
    Onward(w, Task(id, AskProvider), answers);
    FailsAlone(w, id, answers);
  }

  lemma PollSettles(w: World, id: Id, answers: Call -> Answer)
    requires Asks(w, id, answers) && answers(VerifyPayment).verdict.status == PaymentSuccess
    ensures var v := answers(VerifyPayment).verdict;
            RunAlone(w, Task(id, PollIntent), answers)
            == RunAlone(w, Task(id, ReadIntent(v.amount, v.currency)), answers)
  {
    hide RunAlone, Find, EnsureAccounts, Submit;
    Onward(w, Task(id, PollIntent), answers);
    Onward(w, Task(id, AskProvider), answers);
  }

  /** A verdict that the payment succeeded credits and closes the deposit, its calls being answered, exactly when
      the verdict's own amount and currency are those asked for and the wallet can take it; otherwise nothing
      is paid. */
  lemma PollCredits(w: World, id: Id, answers: Call -> Answer)
    requires WorldOk(w) && Asks(w, id, answers) && answers(VerifyPayment).verdict.status == PaymentSuccess
    requires AllHeard(answers) && !answers(PostTransfer).refused && !IsCredited(w, id)
    ensures var v := answers(VerifyPayment).verdict;
            var (w', e) := RunAlone(w, Task(id, PollIntent), answers);
            if Settleable(w, w.intents[id], v.amount, v.currency) then JustPaid(w, w', id) && e == Ok
            else NothingPaid(w, w') && e == SkipRetry
  {
    hide RunAlone, WorldOk, Settleable, JustPaid, NothingPaid, Find;
    var v := answers(VerifyPayment).verdict;
    PollSettles(w, id, answers);
    PendingSettlesExactly(w, id, v.amount, v.currency, answers);
  }

  /** A poll changes anything only for a PENDING row of which it heard that the payment succeeded or failed. */
  lemma PollChangesOnlyOnVerdict(w: World, id: Id, answers: Call -> Answer)
    ensures RunAlone(w, Task(id, PollIntent), answers).0 != w ==>
              Asks(w, id, answers) && answers(VerifyPayment).verdict.status in {PaymentSuccess, PaymentFailed}
  {
    hide RunAlone, Asks;
    match answers(VerifyPayment).verdict.status
    case PaymentSuccess => if !Asks(w, id, answers) { PollWaits(w, id, answers); }
    case PaymentFailed => if !Asks(w, id, answers) { PollWaits(w, id, answers); }
    case _ => PollWaits(w, id, answers);
  }

  // ---- Webhooks

  /** A webhook that resolves nothing changes nothing. */
  lemma WebhookIgnores(w: World, id: Id, status: PaymentStatus, amount: Int64, currency: string,
      answers: Call -> Answer)
    requires status in {PaymentAbandoned, PaymentPending}
    ensures RunAlone(w, Task(id, WebhookStage(status, amount, currency)), answers) == (w, Ok)
  {
    Over(w, id, Ok, answers);
  }

  /** A webhook's failure fails a PENDING row, and does nothing else. */
  lemma WebhookFails(w: World, id: Id, amount: Int64, currency: string, answers: Call -> Answer)
    ensures RunAlone(w, Task(id, WebhookStage(PaymentFailed, amount, currency)), answers)
            == (if id in w.intents && w.intents[id].status == PENDING && Delivered(answers, UpdateFailed) != LostBefore
                then WithStatus(w, id, FAILED) else w,
                if Heard(answers(UpdateFailed)) then Ok else Transient)
  {
    hide RunAlone;
    FailsAlone(w, id, answers);
  }

  /** A webhook's success credits and closes a pending deposit exactly when the webhook's own amount and currency
      are those asked for and the wallet can take it. */
  lemma WebhookCredits(w: World, id: Id, amount: Int64, currency: string, answers: Call -> Answer)
    requires WorldOk(w) && id in w.intents && w.intents[id].status == PENDING && !IsCredited(w, id)
    requires AllHeard(answers) && !answers(PostTransfer).refused
    ensures var (w', e) := RunAlone(w, Task(id, WebhookStage(PaymentSuccess, amount, currency)), answers);
            if Settleable(w, w.intents[id], amount, currency) then JustPaid(w, w', id) && e == Ok
            else NothingPaid(w, w') && e == SkipRetry
  {
    hide RunAlone, WorldOk, Settleable, JustPaid, NothingPaid, Find;
    PendingSettlesExactly(w, id, amount, currency, answers);
  }
}
