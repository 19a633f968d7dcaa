/** What the deposit saga promises of its rows, receipts, refunds and retries. */
module DepositTheorems {
  import opened Common
  import opened LedgerModel
  import opened LedgerSafety
  import opened DepositMachine
  import opened DepositSafety
  import opened DepositRace

  // ---- Every run, no hypothesis

  /** Whatever the schedule: SUCCESS means the ledger credited exactly this amount to exactly this
      wallet; at most one receipt goes out, and only for a SUCCESS; refunds stay within the charge;
      REFUNDED means the customer has at least the intent's amount back. */
  lemma EveryRun(c: Config, events: seq<Event>, id: Id)
    requires Initial(c) && id in Run(c, events).world.intents
    ensures var w := Run(c, events).world;
            var i := w.intents[id];
            && (i.status == SUCCESS ==> IsCredited(w, id) && Honours(Find(w.cluster.log, id).value, id, i))
            && Receipts(w, id) <= 1 && (Receipts(w, id) == 1 ==> i.status == SUCCESS)
            && Refunded(w, id) <= Charged(w, id)
            && (i.status == REFUNDED ==> Refunded(w, id) >= i.amount)
            && (Refunded(w, id) > 0 ==> Returning(i.status))
  {
    RunKeeps(c, events);
    assert FileOk(id, FileOf(Run(c, events).world, id));
    hide Find, Exec, ClusterOk;
  }

  // ---- Statuses

  lemma StatusFollowsEdges(c: Config, e: Event, id: Id)
    requires ConfigOk(c) && id in c.world.intents
    ensures id in Exec(c, e).world.intents
    ensures var s, s' := c.world.intents[id].status, Exec(c, e).world.intents[id].status;
            s' == s || Edge(s, s')
  {
    EventWorld(c, e);
    hide Exec, ConfigOk, Extends;
  }

  function Rank(s: Status): nat {
    match s
    case PENDING => 0
    case FAILED => 1
    case SUCCESS => 2
    case REFUNDING => 2
    case REFUNDED => 3
  }

  /** How often an intent's status changes along a run. */
  ghost function StatusChanges(c: Config, events: seq<Event>, id: Id): nat
    decreases |events|
  {
    if events == [] then 0
    else
      var c' := Exec(c, events[0]);
      (if id in c.world.intents && id in c'.world.intents && c.world.intents[id].status != c'.world.intents[id].status
       then 1 else 0)
      + StatusChanges(c', events[1..], id)
  }

  /** However long the run, a row's status changes at most three times, and once SUCCESS or
      REFUNDED never again. */
  lemma {:induction false} StatusesSettle(c: Config, events: seq<Event>, id: Id)
    requires ConfigOk(c) && id in c.world.intents
    ensures id in Run(c, events).world.intents
    ensures StatusChanges(c, events, id)
      + Rank(c.world.intents[id].status) <= Rank(Run(c, events).world.intents[id].status)
    ensures StatusChanges(c, events, id) <= 3
    ensures c.world.intents[id].status in {SUCCESS, REFUNDED} ==>
              Run(c, events).world.intents[id].status == c.world.intents[id].status
    decreases |events|
  {
    hide Exec, ConfigOk;
    if events != [] {
      StatusFollowsEdges(c, events[0], id);
      ExecKeeps(c, events[0]);
      StatusesSettle(Exec(c, events[0]), events[1..], id);
    }
  }

  // ---- Recovery: one attempt of settle, uninterrupted

  predicate AllHeard(answers: Call -> Answer) {
    forall call :: Heard(answers(call))
  }

  lemma RefundAlone(w: World, id: Id, seen: Intent, answers: Call -> Answer)
    requires id in w.intents && w.intents[id].status in {FAILED, REFUNDING} && seen.amount > 0
    requires AllHeard(answers)
    ensures var refunding := MarkRefunding(w, id).0;
            var (sent, accepted) := IssueRefund(refunding, id, seen.amount);
            RunAlone(w, Task(id, BeginRefund(seen)), answers)
            == if accepted then (MarkRefunded(sent, id).0, Ok) else (refunding, Transient)
  {
    var refunding := MarkRefunding(w, id).0;
    var (sent, accepted) := IssueRefund(refunding, id, seen.amount);
    Onward(w, Task(id, BeginRefund(seen)), answers);
    assert DoBeginRefund(w, id, seen, answers(UpdateRefunding)) == (refunding, SendRefund(seen));
    Onward(refunding, Task(id, SendRefund(seen)), answers);
    if accepted {
      assert DoSendRefund(refunding, id, seen, answers(RefundPayment)) == (sent, CloseRefunded);
      Onward(sent, Task(id, CloseRefunded), answers);
      assert DoCloseRefunded(sent, id, answers(UpdateRefunded)) == (MarkRefunded(sent, id).0, Finished(Ok));
      Over(MarkRefunded(sent, id).0, id, Ok, answers);
    } else {
      assert DoSendRefund(refunding, id, seen, answers(RefundPayment)) == (refunding, Finished(Transient));
      Over(refunding, id, Transient, answers);
    }
    hide RunAlone, MoveIntent, IssueRefund, Find;
  }

  /** settle turns a given-up row over to refundLatePayment, which looks at the ledger first
      unless a refund is already under way. */
  lemma LatePaymentAlone(w: World, id: Id, amount: Int64, currency: string, answers: Call -> Answer)
    requires id in w.intents && w.intents[id].status in {FAILED, REFUNDING}
    requires AllHeard(answers)
    ensures var i := w.intents[id];
            RunAlone(w, Task(id, ReadIntent(amount, currency)), answers)
            == RunAlone(w, Task(id, if i.status == FAILED && IsCredited(w, id) then CloseSucceeded else BeginRefund(i)),
               answers)
  {
    var i := w.intents[id];
    Onward(w, Task(id, ReadIntent(amount, currency)), answers);
    if i.status == FAILED {
      Onward(w, Task(id, LookUpEntry(i)), answers);
    }
    hide RunAlone, Find, EnsureAccounts, Submit;
  }

  lemma CloseAlone(w: World, id: Id, answers: Call -> Answer)
    requires id in w.intents && w.intents[id].status == FAILED && Receipts(w, id) == 0
    requires AllHeard(answers)
    ensures RunAlone(w, Task(id, CloseSucceeded), answers)
            == (w.(intents := w.intents[id := w.intents[id].(status := SUCCESS)], receipts := w.receipts[id := 1]), Ok)
  {
    Onward(w, Task(id, CloseSucceeded), answers);
    Over(DoCloseSucceeded(w, id, answers(UpdateSucceeded)).0, id, Ok, answers);
    hide RunAlone, Find, EnsureAccounts, Submit;
  }

  function WithStatus(w: World, id: Id, s: Status): World
    requires id in w.intents
  {
    w.(intents := w.intents[id := w.intents[id].(status := s)])
  }

  function WithRefund(w: World, id: Id, amount: nat): World {
    w.(refunded := w.refunded[id := Refunded(w, id) + amount])
  }

  lemma RefundedWorld(w: World, id: Id, amount: nat)
    requires id in w.intents && w.intents[id].status in {FAILED, REFUNDING}
    ensures var refunding := MarkRefunding(w, id).0;
            var (sent, accepted) := IssueRefund(refunding, id, amount);
            && refunding == WithStatus(w, id, REFUNDING)
            && accepted == (Refunded(w, id) + amount <= Charged(w, id))
            && (accepted ==> MarkRefunded(sent, id).0 == WithRefund(WithStatus(w, id, REFUNDED), id, amount))
  {
  }

  /** A row the poller failed after the wallet was credited is put right, with one receipt, and
      nothing is posted or refunded. */
  lemma FailedButCreditedRecovers(w: World, id: Id, amount: Int64, currency: string, answers: Call -> Answer)
    requires WorldOk(w) && id in w.intents && w.intents[id].status == FAILED && IsCredited(w, id)
    requires AllHeard(answers)
    ensures RunAlone(w, Task(id, ReadIntent(amount, currency)), answers)
            == (w.(intents := w.intents[id := w.intents[id].(status := SUCCESS)], receipts := w.receipts[id := 1]), Ok)
  {
    assert Receipts(w, id) == 0 by { assert FileOk(id, FileOf(w, id)); }
    LatePaymentAlone(w, id, amount, currency, answers);
    CloseAlone(w, id, answers);
    hide RunAlone, Find, WorldOk;
  }

  /** A late payment of an uncredited row goes back to the customer, exactly the intent's amount,
      if the provider still holds that much; if not, the row stays REFUNDING, the attempt fails and
      nothing is refunded. Either way the ledger and the receipts are untouched. */
  lemma LatePaymentReturnsExactly(w: World, id: Id, amount: Int64, currency: string, answers: Call -> Answer)
    requires WorldOk(w) && id in w.intents && w.intents[id].status in {FAILED, REFUNDING} && !IsCredited(w, id)
    requires AllHeard(answers)
    ensures var due := w.intents[id].amount;
            due > 0
            && RunAlone(w, Task(id, ReadIntent(amount, currency)), answers)
               == if Refunded(w, id) + due <= Charged(w, id)
                  then (WithRefund(WithStatus(w, id, REFUNDED), id, due), Ok)
                  else (WithStatus(w, id, REFUNDING), Transient)
  {
    assert w.intents[id].amount > 0 by { assert FileOk(id, FileOf(w, id)); }
    hide RunAlone, Find, WorldOk, MarkRefunding, MarkRefunded, IssueRefund, WithStatus, WithRefund;
    LatePaymentAlone(w, id, amount, currency, answers);
    RefundAlone(w, id, w.intents[id], answers);
    RefundedWorld(w, id, w.intents[id].amount);
  }

  /** An attempt running alone is one schedule of the machine: what holds of every run holds of it. */
  lemma {:induction false} AloneIsASchedule(w: World, t: Task, answers: Call -> Answer)
    returns (events: seq<Event>)
    ensures var (w', e) := RunAlone(w, t, answers);
            Run(Config(w, [t]), events) == Config(w', [Task(t.id, Finished(e))])
    decreases Ahead(t.stage)
  {
    if t.stage.Finished? {
      events := [];
    } else {
      var a := answers(CallOf(t.stage));
      StepAdvances(w, t, a);
      var (w1, s1) := Step(w, t, a);
      var rest := AloneIsASchedule(w1, Task(t.id, s1), answers);
      assert Exec(Config(w, [t]), Deliver(0, a)) == Config(w1, [Task(t.id, s1)]);
      RunFirst(Config(w, [t]), Deliver(0, a), rest);
      events := [Deliver(0, a)] + rest;
      hide Step;
    }
  }

  // ---- A refund whose reply was lost

  /** The provider has already paid the refund out, and no task knows. */
  ghost predicate RefundUnheard(c: Config, id: Id) {
    && id in c.world.intents && c.world.intents[id].status == REFUNDING && id in c.world.charged
    && Refunded(c.world, id) + c.world.intents[id].amount > Charged(c.world, id)
    && (forall k :: 0 <= k < |c.tasks| && c.tasks[k].id == id ==> !c.tasks[k].stage.CloseRefunded?)
  }

  /** A task reaches the last update only by sending a refund the provider accepts. */
  lemma OnlyAcceptedRefundsClose(w: World, t: Task, a: Answer)
    requires Step(w, t, a).1.CloseRefunded?
    ensures t.stage.SendRefund? && IssueRefund(w, t.id, Units(t.stage.seen.amount)).1
  {
    hide EnsureAccounts, Submit, Find;
  }

  lemma NoRefundIsAccepted(c: Config, e: Event, id: Id, k: nat)
    requires ConfigOk(c) && RefundUnheard(c, id)
    requires k < |Exec(c, e).tasks| && Exec(c, e).tasks[k].id == id
    ensures !Exec(c, e).tasks[k].stage.CloseRefunded?
  {
    hide Step, Perform;
    if Enabled(c, e) && e.Deliver? && e.k == k && Exec(c, e).tasks[k].stage.CloseRefunded? {
      assert TaskOk(c.world, c.tasks[k]);
      OnlyAcceptedRefundsClose(c.world, c.tasks[k], e.answer);
    }
  }

  lemma StaysRefunding(c: Config, e: Event, id: Id)
    requires ConfigOk(c) && RefundUnheard(c, id)
    ensures id in Exec(c, e).world.intents && Exec(c, e).world.intents[id].status == REFUNDING
  {
    hide Step, Perform, ConfigOk;
    StatusFollowsEdges(c, e, id);
    if Enabled(c, e) && e.Deliver? {
      StepOnIntents(c.world, c.tasks[e.k], e.answer);
    }
  }

  lemma RefundStaysUnheard(c: Config, e: Event, id: Id)
    requires ConfigOk(c) && RefundUnheard(c, id)
    ensures RefundUnheard(Exec(c, e), id)
  {
    EventWorld(c, e);
    ChargedOnce(c, e, id);
    StaysRefunding(c, e, id);
    forall k | 0 <= k < |Exec(c, e).tasks| && Exec(c, e).tasks[k].id == id
      ensures !Exec(c, e).tasks[k].stage.CloseRefunded?
    {
      NoRefundIsAccepted(c, e, id, k);
    }
    hide Exec, WorldOk, Extends, TaskOk;
  }

  lemma MoveKeepsCharges(w: World, id: Id, from: set<Status>, to: Status)
    ensures MoveIntent(w, id, from, to).0.charged == w.charged
  {
  }

  lemma RefundKeepsCharges(w: World, id: Id, amount: nat)
    ensures IssueRefund(w, id, amount).0.charged == w.charged
  {
  }

  lemma StepKeepsCharges(w: World, t: Task, a: Answer)
    ensures Step(w, t, a).0.charged == w.charged
  {
    hide EnsureAccounts, Submit, Find, MoveIntent, IssueRefund, AfterWallet, AfterIntent;
    match t.stage
    case OpenAccount(_, _) =>
    case PostDeposit(_, _) =>
    case CloseSucceeded => MoveKeepsCharges(w, t.id, {PENDING, FAILED}, SUCCESS);
    case BeginRefund(_) => MoveKeepsCharges(w, t.id, {FAILED, REFUNDING}, REFUNDING);
    case SendRefund(seen) => RefundKeepsCharges(w, t.id, Units(seen.amount));
    case CloseRefunded => MoveKeepsCharges(w, t.id, {REFUNDING}, REFUNDED);
    case CloseFailed => MoveKeepsCharges(w, t.id, {PENDING}, FAILED);
    case _ =>
  }

  lemma ChargedOnce(c: Config, e: Event, id: Id)
    requires id in c.world.charged
    ensures id in Exec(c, e).world.charged && Exec(c, e).world.charged[id] == c.world.charged[id]
  {
    if Enabled(c, e) && e.Deliver? {
      StepKeepsCharges(c.world, c.tasks[e.k], e.answer);
    }
    hide Step, Perform;
  }

  /** Once the provider's acceptance of a refund is lost, the row says REFUNDING for ever: no
      number of later attempts, webhooks or polls closes it. */
  lemma {:induction false} LostRefundNeverCloses(c: Config, events: seq<Event>, id: Id)
    requires ConfigOk(c) && RefundUnheard(c, id)
    ensures RefundUnheard(Run(c, events), id)
    ensures Run(c, events).world.intents[id].status == REFUNDING
    decreases |events|
  {
    if events != [] {
      ExecKeeps(c, events[0]);
      RefundStaysUnheard(c, events[0], id);
      LostRefundNeverCloses(Exec(c, events[0]), events[1..], id);
    }
    hide Exec, ConfigOk;
  }

  // ---- A refund sent twice

  lemma {:induction false} ChargeAndAmountStay(c: Config, events: seq<Event>, id: Id)
    requires ConfigOk(c) && id in c.world.intents && id in c.world.charged
    ensures var c' := Run(c, events);
            && ConfigOk(c') && id in c'.world.intents
            && c'.world.intents[id].amount == c.world.intents[id].amount
            && Charged(c'.world, id) == Charged(c.world, id)
    decreases |events|
  {
    if events != [] {
      ExecKeeps(c, events[0]);
      EventWorld(c, events[0]);
      ChargedOnce(c, events[0], id);
      ChargeAndAmountStay(Exec(c, events[0]), events[1..], id);
    }
    hide Exec, ConfigOk, WorldOk, Extends;
  }

  lemma RefundSentAgain(c: Config, id: Id)
    returns (events: seq<Event>)
    requires ConfigOk(c) && id in c.world.intents && c.world.intents[id].status == REFUNDING
    requires Refunded(c.world, id) + c.world.intents[id].amount <= Charged(c.world, id)
    ensures Refunded(Run(c, events).world, id) == Refunded(c.world, id) + c.world.intents[id].amount
  {
    assert c.world.intents[id].amount > 0 by { assert FileOk(id, FileOf(c.world, id)); }
    var k := |c.tasks|;
    var start := Start(id, ReadIntent(0, ""));
    var c1 := Exec(c, start);
    var c2 := Exec(c1, Deliver(k, CLEAN));
    assert c2.world == c.world && c2.tasks[k] == Task(id, BeginRefund(c.world.intents[id]));
    hide Exec, ConfigOk;
    RefundGoesOut(c2, k);
    var refund := [Deliver(k, CLEAN), Deliver(k, CLEAN)];
    RunFirst(c1, Deliver(k, CLEAN), refund);
    RunFirst(c, start, [Deliver(k, CLEAN)] + refund);
    events := [start] + ([Deliver(k, CLEAN)] + refund);
  }

  /** A row whose refund has been paid once, and is still REFUNDING because the reply was lost:
      some schedule of retries pays the customer again if and only if the charge was at least twice
      the intent's amount. The provider's cap alone is what prevents it. */
  lemma PaidBackTwiceExactly(c: Config, id: Id)
    requires ConfigOk(c) && id in c.world.intents && c.world.intents[id].status == REFUNDING
    requires Refunded(c.world, id) == c.world.intents[id].amount
    ensures (exists events :: Refunded(Run(c, events).world, id) > c.world.intents[id].amount)
            <==> Charged(c.world, id) >= 2 * c.world.intents[id].amount
  {
    assert FileOk(id, FileOf(c.world, id));
    if Charged(c.world, id) >= 2 * c.world.intents[id].amount {
      var events := RefundSentAgain(c, id);
    } else {
      forall events
        ensures Refunded(Run(c, events).world, id) <= c.world.intents[id].amount
      {
        ChargeAndAmountStay(c, events, id);
        assert FileOk(id, FileOf(Run(c, events).world, id));
      }
    }
  }
}
