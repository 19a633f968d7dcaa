/** What a payment task's error says, however its calls are answered and whatever others do between them. */
module DepositOutcomes {
  import opened Common
  import opened LedgerModel
  import opened DepositMachine
  import opened DepositRace

  /** What others do to the world just before one of a task's calls. */
  type Others = Call -> World -> World

  /** A task's calls, with others acting before each of them. */
  function RunAmid(w: World, t: Task, answers: Call -> Answer, others: Others): (World, TaskError)
    decreases Ahead(t.stage)
  {
    if t.stage.Finished? then (w, t.stage.error)
    else
      var call := CallOf(t.stage);
      StepAdvances(others(call)(w), t, answers(call));
      var (w', stage) := Step(others(call)(w), t, answers(call));
      RunAmid(w', Task(t.id, stage), answers, others)
  }

  /** A call, and the world it found. */
  datatype Asked = Asked(call: Call, world: World)

  /** The calls an attempt makes, in order. */
  function Calls(w: World, t: Task, answers: Call -> Answer, others: Others): seq<Asked>
    decreases Ahead(t.stage)
  {
    if t.stage.Finished? then []
    else
      var call := CallOf(t.stage);
      StepAdvances(others(call)(w), t, answers(call));
      var (w', stage) := Step(others(call)(w), t, answers(call));
      [Asked(call, others(call)(w))] + Calls(w', Task(t.id, stage), answers, others)
  }

  /** Nobody else acts. */
  ghost predicate Quiet(others: Others) {
    forall call, w :: others(call)(w) == w
  }

  /** Undisturbed, the calls are one uninterrupted run of the machine. */
  lemma {:induction false} QuietIsAlone(w: World, t: Task, answers: Call -> Answer, others: Others)
    requires Quiet(others)
    ensures RunAmid(w, t, answers, others) == RunAlone(w, t, answers)
    decreases Ahead(t.stage)
  {
    hide Step;
    if !t.stage.Finished? {
      var a := answers(CallOf(t.stage));
      StepAdvances(w, t, a);
      var (w', s') := Step(w, t, a);
      QuietIsAlone(w', Task(t.id, s'), answers, others);
    }
  }

  predicate IsPending(w: World, id: Id) { id in w.intents && w.intents[id].status == PENDING }

  predicate Given(w: World, id: Id) { id in w.intents && w.intents[id].status != PENDING }

  /** Others may do anything to other rows, to wallets, to the ledger and to the provider; they keep this row, its
      wallet and its amount, and do not make it PENDING again. */
  predicate Gentle(id: Id, w: World, w': World) {
    id in w.intents ==>
      && id in w'.intents
      && w'.intents[id].wallet == w.intents[id].wallet && w'.intents[id].amount == w.intents[id].amount
      && (Given(w, id) ==> Given(w', id))
  }

  ghost predicate AllMild(id: Id, others: Others) {
    forall call, w :: Gentle(id, w, others(call)(w))
  }

  // ---- Why an attempt is not retried

  /** The wallet cannot be credited with such a payment. */
  predicate WalletUnfit(w: World, i: Intent, currency: string) {
    || i.wallet !in w.wallets || !w.wallets[i.wallet].active || i.amount <= 0
    || !Agrees(currency, w.wallets[i.wallet].currency)
  }

  /** One of a deposit's two accounts is open on other terms. */
  predicate Conflicts(c: Cluster, ledger: nat, wallet: Id) {
    || (SettlementAccount(ledger) in c.accounts
        && c.accounts[SettlementAccount(ledger)].spec != AccountSpec(ledger, ACCOUNT_SETTLEMENT, false))
    || (WalletAccount(wallet) in c.accounts
        && c.accounts[WalletAccount(wallet)].spec != AccountSpec(ledger, ACCOUNT_WALLET, true))
  }

  /** Something else is posted under the id, or nothing is and the cluster will not post this. */
  predicate Unpostable(c: Cluster, t: Transfer, refused: bool) {
    if Find(c.log, t.id).Some? then Find(c.log, t.id).value != t
    else refused || !Postable(c, t) || Overdraws(c, t)
  }

  /** The currency of the wallet as the attempt read it. */
  function CurrencyRead(asked: seq<Asked>, wallet: Id): Option<string> {
    if asked == [] then None
    else
      var last := asked[|asked| - 1];
      if last.call != GetWallet then CurrencyRead(asked[..|asked| - 1], wallet)
      else if wallet in last.world.wallets then Some(last.world.wallets[wallet].currency)
      else None
  }

  /** The ledger of that currency. */
  function LedgerRead(asked: seq<Asked>, wallet: Id): Option<nat> {
    match CurrencyRead(asked, wallet)
    case None => None
    case Some(code) => if code in CURRENCY_LEDGERS then Some(CURRENCY_LEDGERS[code]) else None
  }

  /** What the last of these calls finds is no payment for this intent, or one the wallet or the ledger will not
      take. */
  predicate Refuses(asked: seq<Asked>, id: Id, amount: Int64, currency: string, refused: bool)
    requires asked != []
  {
    var last := asked[|asked| - 1];
    var w := last.world;
    match last.call
    case GetIntentForPoll => id !in w.intents
    case GetIntent => id !in w.intents || (IsPending(w, id) && amount != w.intents[id].amount)
    case GetWallet => id in w.intents && WalletUnfit(w, w.intents[id], currency)
    case CreateAccounts =>
      && id in w.intents
      && var ledger := LedgerRead(asked, w.intents[id].wallet);
         ledger.Some? && Conflicts(w.cluster, ledger.value, w.intents[id].wallet)
    case PostTransfer =>
      && id in w.intents
      && var i := w.intents[id];
         var ledger := LedgerRead(asked, i.wallet);
         ledger.Some? && Unpostable(w.cluster, Transfer(id, SettlementAccount(ledger.value), WalletAccount(i.wallet),
                                                        Units(i.amount), ledger.value, TRANSFER_DEPOSIT), refused)
    case _ => false
  }

  /** The provider takes back no more than it was paid. */
  predicate RefundRefused(w: World, id: Id) {
    id in w.intents && Refunded(w, id) + Units(w.intents[id].amount) > Charged(w, id)
  }

  /** The provider does not know yet how the payment ends. */
  predicate Undecided(v: Verdict) {
    !v.known || v.status in {PaymentAbandoned, PaymentPending}
  }

  // ---- One call

  /** A lost reply ends the attempt with an error that is retried, whichever call it was. */
  lemma LostReplyRetries(w: World, t: Task, a: Answer)
    requires !t.stage.Finished? && !Heard(a)
    ensures Step(w, t, a).1 == Finished(Transient)
  {
    hide CreateAccount, CreateTransfer, Find;
  }

  /** What a task carries from the calls it has made. */
  predicate Carries(w: World, t: Task, asked: seq<Asked>, amount: Int64, currency: string, answers: Call -> Answer) {
    match t.stage
    case PollIntent => amount == answers(VerifyPayment).verdict.amount
        && currency == answers(VerifyPayment).verdict.currency
    case AskProvider => amount == answers(VerifyPayment).verdict.amount
        && currency == answers(VerifyPayment).verdict.currency
    case ReadIntent(a, c) => a == amount && c == currency
    case ReadWallet(seen, c) => c == currency && SameRow(w, t.id, seen)
    case OpenAccount(seen, ledger) => SameRow(w, t.id, seen) && LedgerRead(asked, seen.wallet) == Some(ledger)
    case PostDeposit(seen, ledger) => SameRow(w, t.id, seen) && LedgerRead(asked, seen.wallet) == Some(ledger)
    case LookUpEntry(seen) => SameRow(w, t.id, seen) && Given(w, t.id)
    case BeginRefund(seen) => SameRow(w, t.id, seen) && Given(w, t.id)
    case SendRefund(seen) => SameRow(w, t.id, seen) && Given(w, t.id)
    case CloseRefunded => Given(w, t.id)
    case _ => true
  }

  predicate SameRow(w: World, id: Id, seen: Intent) {
    id in w.intents && seen.wallet == w.intents[id].wallet && seen.amount == w.intents[id].amount
  }

  lemma GentleCarries(w: World, w': World, t: Task, asked: seq<Asked>, amount: Int64, currency: string,
      answers: Call -> Answer)
    requires Carries(w, t, asked, amount, currency, answers) && Gentle(t.id, w, w')
    ensures Carries(w', t, asked, amount, currency, answers)
  {
    hide LedgerRead;
  }

  lemma ReadMore(asked: seq<Asked>, next: Asked, wallet: Id)
    ensures CurrencyRead(asked + [next], wallet)
            == if next.call != GetWallet then CurrencyRead(asked, wallet)
               else if wallet in next.world.wallets then Some(next.world.wallets[wallet].currency) else None
  {
    assert (asked + [next])[..|asked|] == asked;
  }

  lemma LedgerReadMore(asked: seq<Asked>, next: Asked, wallet: Id)
    ensures next.call != GetWallet ==> LedgerRead(asked + [next], wallet) == LedgerRead(asked, wallet)
    ensures next.call == GetWallet && wallet in next.world.wallets ==>
              LedgerRead(asked + [next], wallet) == LedgerForCurrency(next.world.wallets[wallet].currency)
  {
    ReadMore(asked, next, wallet);
    hide CurrencyRead, CURRENCY_LEDGERS;
  }

  /** A call ends the attempt for good exactly when what it finds is refused. */
  lemma StepRefuses(w: World, t: Task, asked: seq<Asked>, amount: Int64, currency: string, answers: Call -> Answer)
    requires !t.stage.Finished? && Carries(w, t, asked, amount, currency, answers)
    requires Heard(answers(CallOf(t.stage)))
    ensures Step(w, t, answers(CallOf(t.stage))).1 == Finished(SkipRetry) <==>
              Refuses(asked + [Asked(CallOf(t.stage), w)], t.id, amount, currency, answers(PostTransfer).refused)
  {
    hide CURRENCY_LEDGERS, EqualFold, Find, LedgerRead, CreateTransfer;
    var a, next := answers(CallOf(t.stage)), Asked(CallOf(t.stage), w);
    match t.stage
    case OpenAccount(seen, ledger) =>
      LedgerReadMore(asked, next, seen.wallet);
      OpeningRefuses(w.cluster, ledger, seen.wallet);
    case PostDeposit(seen, ledger) =>
      LedgerReadMore(asked, next, seen.wallet);
      PostingRefuses(w.cluster, EntryFor(t.id, seen, ledger), PostWeather(a));
    case _ =>
  }

  lemma OpeningRefuses(c: Cluster, ledger: nat, wallet: Id)
    ensures EnsureAccounts(c, ledger, wallet, Replied).1 == (if Conflicts(c, ledger, wallet) then Rejected else NoError)
  {
  }

  lemma PostingRefuses(c: Cluster, t: Transfer, w: Weather)
    requires w.post == Replied
    ensures Submit(c, t, Rejected, w).1 == (if Unpostable(c, t, w.refused) then Rejected else NoError)
  {
    hide Find;
  }

  lemma OpeningErrs(c: Cluster, ledger: nat, wallet: Id, d: Delivery)
    ensures var e := EnsureAccounts(c, ledger, wallet, d).1;
            e in {NoError, Rejected, Unavailable} && (e == Unavailable <==> d != Replied)
  {
  }

  lemma PostingErrs(c: Cluster, t: Transfer, w: Weather)
    ensures var e := Submit(c, t, Rejected, w).1;
            e in {NoError, Rejected, Unavailable} && (e == Unavailable <==> w.post != Replied)
  {
    hide CreateTransfer;
  }

  /** Apart from the refused ones, the errors of one call. */
  lemma StepErrs(w: World, t: Task, asked: seq<Asked>, amount: Int64, currency: string, answers: Call -> Answer)
    requires !t.stage.Finished? && Carries(w, t, asked, amount, currency, answers)
    ensures var a := answers(CallOf(t.stage));
            var (w', s') := Step(w, t, a);
            && (s' == Finished(Transient) <==> !Heard(a) || (t.stage.SendRefund? && RefundRefused(w, t.id)))
            && (s' == Finished(RetryLater) <==> Heard(a) && t.stage.AskProvider? && Undecided(a.verdict))
            && (s' == Finished(Ok) ==> !IsPending(w', t.id))
  {
    hide CURRENCY_LEDGERS, EqualFold, Find, EnsureAccounts, Submit, LedgerRead, IsCredited;
    var a := answers(CallOf(t.stage));
    match t.stage
    case OpenAccount(seen, ledger) => OpeningErrs(w.cluster, ledger, seen.wallet, a.delivery);
    case PostDeposit(seen, ledger) => PostingErrs(w.cluster, EntryFor(t.id, seen, ledger), PostWeather(a));
    case _ =>
  }

  lemma StepCarries(w: World, t: Task, asked: seq<Asked>, amount: Int64, currency: string, answers: Call -> Answer)
    requires !t.stage.Finished? && Carries(w, t, asked, amount, currency, answers)
    ensures var (w', s') := Step(w, t, answers(CallOf(t.stage)));
            Carries(w', Task(t.id, s'), asked + [Asked(CallOf(t.stage), w)], amount, currency, answers)
  {
    hide CURRENCY_LEDGERS, EqualFold, Find, EnsureAccounts, Submit, LedgerRead;
    var next := Asked(CallOf(t.stage), w);
    match t.stage
    case ReadWallet(seen, _) => LedgerReadMore(asked, next, seen.wallet);
    case OpenAccount(seen, _) => LedgerReadMore(asked, next, seen.wallet);
    case _ =>
  }

  // ---- A whole attempt

  /** How an attempt that made these calls ended: its last call decides, and every other one was heard. */
  predicate Explained(w': World, e: TaskError, id: Id, asked: seq<Asked>, amount: Int64, currency: string,
      answers: Call -> Answer)
    requires asked != []
  {
    var last := asked[|asked| - 1];
    var a := answers(last.call);
    && (forall i :: 0 <= i < |asked| - 1 ==> Heard(answers(asked[i].call)))
    && (e == Transient <==> !Heard(a) || (last.call == RefundPayment && RefundRefused(last.world, id)))
    && (e == RetryLater <==> Heard(a) && last.call == VerifyPayment && Undecided(a.verdict))
    && (e == SkipRetry <==> Heard(a) && Refuses(asked, id, amount, currency, answers(PostTransfer).refused))
    && (e == Ok ==> !IsPending(w', id))
  }

  predicate AllAnswered(asked: seq<Asked>, answers: Call -> Answer) {
    forall i :: 0 <= i < |asked| ==> Heard(answers(asked[i].call))
  }

  lemma OneCall(w: World, t: Task, asked: seq<Asked>, amount: Int64, currency: string, answers: Call -> Answer)
    requires !t.stage.Finished? && Carries(w, t, asked, amount, currency, answers) && AllAnswered(asked, answers)
    requires Step(w, t, answers(CallOf(t.stage))).1.Finished?
    ensures var (w', s') := Step(w, t, answers(CallOf(t.stage)));
            Explained(w', s'.error, t.id, asked + [Asked(CallOf(t.stage), w)], amount, currency, answers)
  {
    hide Step, Carries, Refuses, RefundRefused;
    StepErrs(w, t, asked, amount, currency, answers);
    if Heard(answers(CallOf(t.stage))) {
      StepRefuses(w, t, asked, amount, currency, answers);
    } else {
      LostReplyRetries(w, t, answers(CallOf(t.stage)));
    }
  }

  lemma AmidUnfolds(w: World, t: Task, answers: Call -> Answer, others: Others)
    requires !t.stage.Finished?
    ensures var call := CallOf(t.stage);
            var (w', s') := Step(others(call)(w), t, answers(call));
            && RunAmid(w, t, answers, others) == RunAmid(w', Task(t.id, s'), answers, others)
            && Calls(w, t, answers, others)
               == [Asked(call, others(call)(w))] + Calls(w', Task(t.id, s'), answers, others)
  {
    hide Step;
  }

  lemma AmidOver(w: World, id: Id, e: TaskError, answers: Call -> Answer, others: Others)
    ensures RunAmid(w, Task(id, Finished(e)), answers, others) == (w, e)
    ensures Calls(w, Task(id, Finished(e)), answers, others) == []
  {
  }

  /** With others acting before every call and any answers: the last call decides. An error to retry means that it
      was not heard, or that the provider refused to refund; the attempt is not retried exactly when it found no
      such intent or wallet, another amount or currency, an inactive wallet or a refusing ledger; and Ok is said
      only of a row that is not PENDING any more. `asked` are the calls already made. */
  lemma {:induction false} AttemptExplained(w: World, t: Task, asked: seq<Asked>, amount: Int64, currency: string,
      answers: Call -> Answer, others: Others)
    requires !t.stage.Finished? && AllMild(t.id, others) && AllAnswered(asked, answers)
    requires Carries(w, t, asked, amount, currency, answers)
    ensures var (w', e) := RunAmid(w, t, answers, others);
            var calls := asked + Calls(w, t, answers, others);
            calls != [] && Explained(w', e, t.id, calls, amount, currency, answers)
    decreases Ahead(t.stage)
  {
    hide Step, Carries, Explained, Gentle, RunAmid, Calls;
    var call := CallOf(t.stage);
    var w1 := others(call)(w);
    var (w2, s2) := Step(w1, t, answers(call));
    var next := Asked(call, w1);
    GentleCarries(w, w1, t, asked, amount, currency, answers);
    AmidUnfolds(w, t, answers, others);
    var rest := Calls(w2, Task(t.id, s2), answers, others);
    assert asked + ([next] + rest) == (asked + [next]) + rest;
    if s2.Finished? {
      AmidOver(w2, t.id, s2.error, answers, others);
      assert (asked + [next]) + [] == asked + [next];
      OneCall(w1, t, asked, amount, currency, answers);
    } else {
      if !Heard(answers(call)) {
        LostReplyRetries(w1, t, answers(call));
      }
      StepCarries(w1, t, asked, amount, currency, answers);
      StepAdvances(w1, t, answers(call));
      AttemptExplained(w2, Task(t.id, s2), asked + [next], amount, currency, answers, others);
    }
  }

  /** settle, from its beginning. */
  lemma SettleExplained(w: World, id: Id, amount: Int64, currency: string, answers: Call -> Answer, others: Others)
    requires AllMild(id, others)
    ensures var t := Task(id, ReadIntent(amount, currency));
            var (w', e) := RunAmid(w, t, answers, others);
            var asked := Calls(w, t, answers, others);
            asked != [] && Explained(w', e, id, asked, amount, currency, answers) && e != RetryLater
  {
    hide Step, RunAmid, Calls, Refuses, RefundRefused, AllMild;
    var t := Task(id, ReadIntent(amount, currency));
    AttemptExplained(w, t, [], amount, currency, answers, others);
    assert [] + Calls(w, t, answers, others) == Calls(w, t, answers, others);
    NoPollFrom(w, t, answers, others);
  }

  /** Only a poll asks the provider how a payment stands. */
  lemma {:induction false} NoPollFrom(w: World, t: Task, answers: Call -> Answer, others: Others)
    requires !t.stage.PollIntent? && !t.stage.AskProvider?
    ensures forall i :: 0 <= i < |Calls(w, t, answers, others)| ==>
                          Calls(w, t, answers, others)[i].call !in {GetIntentForPoll, VerifyPayment}
    decreases Ahead(t.stage)
  {
    hide RunAmid, EnsureAccounts, Submit, EqualFold, CURRENCY_LEDGERS, Find;
    if !t.stage.Finished? {
      var call := CallOf(t.stage);
      StepAdvances(others(call)(w), t, answers(call));
      var (w', s') := Step(others(call)(w), t, answers(call));
      NoPollFrom(w', Task(t.id, s'), answers, others);
    }
  }

  /** A poll, from its beginning, with the amount and currency the provider will name. */
  lemma PollExplained(w: World, id: Id, answers: Call -> Answer, others: Others)
    requires AllMild(id, others)
    ensures var t := Task(id, PollIntent);
            var (w', e) := RunAmid(w, t, answers, others);
            var asked := Calls(w, t, answers, others);
            var v := answers(VerifyPayment).verdict;
            asked != [] && Explained(w', e, id, asked, v.amount, v.currency, answers)
  {
    hide Step, RunAmid, Calls, Explained;
    var v := answers(VerifyPayment).verdict;
    AttemptExplained(w, Task(id, PollIntent), [], v.amount, v.currency, answers, others);
    assert [] + Calls(w, Task(id, PollIntent), answers, others) == Calls(w, Task(id, PollIntent), answers, others);
  }

  /** A row that has its money already, or has sent it back, is left as it is. */
  lemma ResolvedIsLeftAlone(w: World, id: Id, amount: Int64, currency: string, answers: Call -> Answer,
      others: Others)
    requires var w1 := others(GetIntent)(w); id in w1.intents && w1.intents[id].status in {SUCCESS, REFUNDED}
    requires Heard(answers(GetIntent))
    ensures RunAmid(w, Task(id, ReadIntent(amount, currency)), answers, others) == (others(GetIntent)(w), Ok)
  {
    hide RunAmid, Calls;
    AmidUnfolds(w, Task(id, ReadIntent(amount, currency)), answers, others);
    AmidOver(others(GetIntent)(w), id, Ok, answers, others);
  }
}
