/** The deposit saga's misfortunes, each reached from any beginning, and what can still end a refund. */
module DepositWitness {
  import opened Common
  import opened LedgerModel
  import opened LedgerSafety
  import opened DepositMachine
  import opened DepositSafety
  import opened DepositRace
  import opened DepositTheorems

  lemma {:induction false} RunLast(c: Config, events: seq<Event>, e: Event)
    ensures Run(c, events + [e]) == Exec(Run(c, events), e)
    decreases |events|
  {
    hide Exec;
    if events == [] {
      assert [] + [e] == [e] && [e][1..] == [];
    } else {
      assert (events + [e])[1..] == events[1..] + [e];
      RunLast(Exec(c, events[0]), events[1..], e);
    }
  }

  /** An id and a wallet the ledger has not seen, and an amount a checkout lets through. */
  predicate Unseen(c: Config, id: Id, wallet: Id, amount: Int64) {
    && !IsCredited(c.world, id) && WalletAccount(wallet) !in c.world.cluster.accounts
    && MIN_DEPOSIT_MINOR <= amount <= MAX_DEPOSIT_MINOR
  }

  function Checkout(c: Config, id: Id, wallet: Id, amount: Int64, status: Status, paid: nat): World {
    c.world.(intents := map[id := Intent(wallet, amount, status)], charged := map[id := paid])
  }

  /** A new intent, and the customer's payment. */
  lemma CheckoutBegins(c: Config, id: Id, wallet: Id, amount: Int64, paid: nat) returns (events: seq<Event>)
    requires Initial(c) && Unseen(c, id, wallet, amount)
    ensures Run(c, events) == Config(Checkout(c, id, wallet, amount, PENDING, paid), []) && ConfigOk(Run(c, events))
  {
    hide Find, ClusterOk;
    var e1, e2 := NewIntent(id, wallet, amount), CustomerPays(id, paid);
    var c1 := Exec(c, e1);
    assert c1 == Config(c.world.(intents := map[id := Intent(wallet, amount, PENDING)]), []);
    var c2 := Exec(c1, e2);
    assert c2 == Config(Checkout(c, id, wallet, amount, PENDING, paid), []);
    assert ConfigOk(c);
    hide Exec, ConfigOk;
    RunLast(c, [], e1);
    RunLast(c, [] + [e1], e2);
    events := [] + [e1] + [e2];
    RunKeeps(c, events);
  }

  /** A task reads the intent: what it does next depends on the status. */
  lemma TaskReads(c: Config, id: Id) returns (events: seq<Event>)
    requires id in c.world.intents && c.world.intents[id].status in {PENDING, FAILED, REFUNDING}
    ensures var i := c.world.intents[id];
            Run(c, events) == c.(tasks := c.tasks + [Task(id,
              match i.status case PENDING => ReadWallet(i, "") case FAILED => LookUpEntry(i) case _ => BeginRefund(i))])
  {
    hide Find;
    var i, k := c.world.intents[id], |c.tasks|;
    var e1, e2 := Start(id, ReadIntent(i.amount, "")), Deliver(k, CLEAN);
    var c1 := Exec(c, e1);
    assert c1 == c.(tasks := c.tasks + [Task(id, ReadIntent(i.amount, ""))]);
    var stage := AfterIntent(c.world, id, i.amount, "", CLEAN);
    assert Exec(c1, e2) == c.(tasks := c.tasks + [Task(id, stage)]);
    hide Exec;
    RunLast(c, [], e1);
    RunLast(c, [] + [e1], e2);
    events := [] + [e1] + [e2];
  }

  /** A poll gives up on the intent. */
  lemma PollGivesUp(c: Config, id: Id) returns (events: seq<Event>)
    requires id in c.world.intents && c.world.intents[id].status == PENDING
    ensures Run(c, events) == Config(WithStatus(c.world, id, FAILED), c.tasks + [Task(id, Finished(Ok))])
  {
    hide Find;
    var e1, e2 := Start(id, CloseFailed), Deliver(|c.tasks|, CLEAN);
    var c1 := Exec(c, e1);
    assert c1 == c.(tasks := c.tasks + [Task(id, CloseFailed)]);
    assert Exec(c1, e2) == Config(WithStatus(c.world, id, FAILED), c.tasks + [Task(id, Finished(Ok))]);
    hide Exec;
    RunLast(c, [], e1);
    RunLast(c, [] + [e1], e2);
    events := [] + [e1] + [e2];
  }

  /** From any beginning, some run credits a customer and refunds the same payment. */
  lemma RaceHappens(c: Config, id: Id, wallet: Id, amount: Int64) returns (events: seq<Event>)
    requires Initial(c) && Unseen(c, id, wallet, amount)
    ensures CreditedAndRefunded(Run(c, events).world, id)
  {
    hide Find, Exec, Run, ConfigOk, ClusterOk;
    var first := CheckoutBegins(c, id, wallet, amount, amount);
    var c1 := Run(c, first);
    var second := TaskReads(c1, id);
    var c2 := Run(c1, second);
    var third := PollGivesUp(c2, id);
    var c3 := Run(c2, third);
    var fourth := TaskReads(c3, id);
    var c4 := Run(c3, fourth);
    RunKeeps(c1, second);
    RunKeeps(c2, third);
    RunKeeps(c3, fourth);
    assert c4.tasks == [Task(id, ReadWallet(Intent(wallet, amount, PENDING), "")), Task(id, Finished(Ok)),
                        Task(id, LookUpEntry(Intent(wallet, amount, FAILED)))];
    assert Agrees("", "NGN") && Openable(c4.world.cluster, CURRENCY_LEDGERS["NGN"], wallet);
    assert MayCredit(c4.world, c4.tasks[0]);
    var fifth := RaceLost(c4, 2, 0);
    RunSplits(c3, fourth, fifth);
    RunSplits(c2, third, fourth + fifth);
    RunSplits(c1, second, third + (fourth + fifth));
    RunSplits(c, first, second + (third + (fourth + fifth)));
    events := first + (second + (third + (fourth + fifth)));
  }

  /** From any beginning, some run credits a deposit and has not marked it yet. */
  lemma CreditedStillPending(c: Config, id: Id, wallet: Id, amount: Int64) returns (events: seq<Event>)
    requires Initial(c) && Unseen(c, id, wallet, amount)
    ensures var w := Run(c, events).world;
            IsCredited(w, id) && w.intents == map[id := Intent(wallet, amount, PENDING)]
  {
    hide Find, Exec, Run, ConfigOk, ClusterOk;
    var first := CheckoutBegins(c, id, wallet, amount, amount);
    var c1 := Run(c, first);
    var second := TaskReads(c1, id);
    var c2 := Run(c1, second);
    RunKeeps(c1, second);
    assert c2.tasks == [Task(id, ReadWallet(Intent(wallet, amount, PENDING), ""))];
    assert Agrees("", "NGN") && Openable(c2.world.cluster, CURRENCY_LEDGERS["NGN"], wallet);
    assert MayCredit(c2.world, c2.tasks[0]);
    var third := CreditsInTheEnd(c2, 0);
    RunSplits(c1, second, third);
    RunSplits(c, first, second + third);
    events := first + (second + third);
  }

  const UNHEARD: Answer := CLEAN.(delivery := LostAfter)

  /** A task looks up a FAILED, uncredited intent and refunds it, and the provider's acceptance is lost. */
  lemma RefundGoesUnheard(c: Config, id: Id, k: nat) returns (events: seq<Event>)
    requires k < |c.tasks| && id in c.world.intents && c.world.intents[id].status == FAILED && !IsCredited(c.world, id)
    requires c.tasks[k] == Task(id, LookUpEntry(c.world.intents[id])) && c.world.intents[id].amount > 0
    requires Refunded(c.world, id) + c.world.intents[id].amount <= Charged(c.world, id)
    ensures var due := c.world.intents[id].amount;
            Run(c, events) == Config(WithRefund(WithStatus(c.world, id, REFUNDING), id, due),
                                     c.tasks[k := Task(id, Finished(Transient))])
  {
    hide Find;
    var i := c.world.intents[id];
    var e, lost := Deliver(k, CLEAN), Deliver(k, UNHEARD);
    var c1 := Exec(c, e);
    assert c1 == c.(tasks := c.tasks[k := Task(id, BeginRefund(i))]);
    var c2 := Exec(c1, e);
    assert c2 == Config(WithStatus(c.world, id, REFUNDING), c.tasks[k := Task(id, SendRefund(i))]);
    var c3 := Exec(c2, lost);
    assert c3 == Config(WithRefund(WithStatus(c.world, id, REFUNDING), id, i.amount),
      c.tasks[k := Task(id, Finished(Transient))]);
    hide Exec;
    RunLast(c, [], e);
    RunLast(c, [] + [e], e);
    RunLast(c, [] + [e] + [e], lost);
    events := [] + [e] + [e] + [lost];
  }

  /** From any beginning, some run pays a refund out and loses the provider's reply. */
  lemma RefundReplyLost(c: Config, id: Id, wallet: Id, amount: Int64, paid: nat) returns (events: seq<Event>)
    requires Initial(c) && Unseen(c, id, wallet, amount) && paid >= amount
    ensures var c' := Run(c, events);
            && ConfigOk(c') && c'.tasks == [Task(id, Finished(Ok)), Task(id, Finished(Transient))]
            && c'.world.intents == map[id := Intent(wallet, amount, REFUNDING)]
            && id in c'.world.charged && Charged(c'.world, id) == paid && Refunded(c'.world, id) == amount
  {
    hide Find, Exec, Run, ConfigOk, ClusterOk;
    var first := CheckoutBegins(c, id, wallet, amount, paid);
    var c1 := Run(c, first);
    var second := PollGivesUp(c1, id);
    var c2 := Run(c1, second);
    var third := TaskReads(c2, id);
    var c3 := Run(c2, third);
    var fourth := RefundGoesUnheard(c3, id, 1);
    RunSplits(c2, third, fourth);
    RunSplits(c1, second, third + fourth);
    RunSplits(c, first, second + (third + fourth));
    events := first + (second + (third + fourth));
    BeginsOk(c);
    RunKeeps(c, events);
  }

  lemma BeginsOk(c: Config)
    requires Initial(c)
    ensures ConfigOk(c)
  {
    hide ClusterOk;
  }

  /** From any beginning, some run leaves a paid refund that no later run closes. */
  lemma RefundStaysOpen(c: Config, id: Id, wallet: Id, amount: Int64) returns (events: seq<Event>)
    requires Initial(c) && Unseen(c, id, wallet, amount)
    ensures Refunded(Run(c, events).world, id) == amount
    ensures forall later :: id in Run(Run(c, events), later).world.intents
              && Run(Run(c, events), later).world.intents[id].status == REFUNDING
  {
    hide Exec, Run, ConfigOk;
    events := RefundReplyLost(c, id, wallet, amount, amount);
    forall later
      ensures id in Run(Run(c, events), later).world.intents
      ensures Run(Run(c, events), later).world.intents[id].status == REFUNDING
    {
      LostRefundNeverCloses(Run(c, events), later, id);
    }
  }

  /** From any beginning, some run pays a customer who was charged twice the amount back twice. */
  lemma PaidBackTwice(c: Config, id: Id, wallet: Id, amount: Int64) returns (events: seq<Event>)
    requires Initial(c) && Unseen(c, id, wallet, amount)
    ensures Refunded(Run(c, events).world, id) == 2 * amount
  {
    hide Exec, Run, ConfigOk;
    var first := RefundReplyLost(c, id, wallet, amount, 2 * amount);
    var again := RefundSentAgain(Run(c, first), id);
    RunSplits(c, first, again);
    events := first + again;
  }

  // ---- What can still close a refund

  predicate Closed(c: Config, id: Id) {
    id in c.world.intents && c.world.intents[id].status == REFUNDED
  }

  lemma CloseHeard(c: Config, id: Id, k: nat) returns (events: seq<Event>)
    requires k < |c.tasks| && c.tasks[k] == Task(id, CloseRefunded)
    requires id in c.world.intents && c.world.intents[id].status == REFUNDING
    ensures Closed(Run(c, events), id)
  {
    hide Find;
    var e := Deliver(k, CLEAN);
    assert Closed(Exec(c, e), id);
    hide Exec;
    RunLast(c, [], e);
    events := [] + [e];
  }

  lemma RefundAgain(c: Config, id: Id, k: nat) returns (events: seq<Event>)
    requires id in c.world.intents && c.world.intents[id].status == REFUNDING && c.world.intents[id].amount > 0
    requires k < |c.tasks| && c.tasks[k] == Task(id, BeginRefund(c.world.intents[id]))
    requires Refunded(c.world, id) + c.world.intents[id].amount <= Charged(c.world, id)
    ensures Closed(Run(c, events), id)
  {
    hide Find;
    var i := c.world.intents[id];
    var e := Deliver(k, CLEAN);
    var c1 := Exec(c, e);
    assert c1 == c.(tasks := c.tasks[k := Task(id, SendRefund(i))]) by {
      assert WithStatus(c.world, id, REFUNDING) == c.world;
    }
    var c2 := Exec(c1, e);
    assert c2 == Config(WithRefund(c.world, id, i.amount), c.tasks[k := Task(id, CloseRefunded)]);
    hide Exec;
    var last := CloseHeard(c2, id, k);
    RunLast(c, [], e);
    RunLast(c, [] + [e], e);
    RunSplits(c, [] + [e] + [e], last);
    events := [] + [e] + [e] + last;
  }

  lemma FundedCloses(c: Config, id: Id) returns (events: seq<Event>)
    requires id in c.world.intents && c.world.intents[id].status == REFUNDING && c.world.intents[id].amount > 0
    requires Refunded(c.world, id) + c.world.intents[id].amount <= Charged(c.world, id)
    ensures Closed(Run(c, events), id)
  {
    hide Run, Exec, Closed;
    var first := TaskReads(c, id);
    var rest := RefundAgain(Run(c, first), id, |c.tasks|);
    RunSplits(c, first, rest);
    events := first + rest;
  }

  lemma UnchargedCloses(c: Config, id: Id) returns (events: seq<Event>)
    requires ConfigOk(c) && id in c.world.intents && c.world.intents[id].status == REFUNDING && id !in c.world.charged
    ensures Closed(Run(c, events), id)
  {
    hide Find, ClusterOk;
    var due := c.world.intents[id].amount;
    assert FileOk(id, FileOf(c.world, id));
    var pay := CustomerPays(id, due);
    var c1 := Exec(c, pay);
    assert c1 == c.(world := c.world.(charged := c.world.charged[id := due]));
    hide Exec;
    var rest := FundedCloses(c1, id);
    RunFirst(c, pay, rest);
    events := [pay] + rest;
  }

  /** From REFUNDING some run closes the row as REFUNDED if and only if the provider can still pay the
      refund out, or a task has heard that it did. */
  lemma RefundClosesExactly(c: Config, id: Id)
    requires ConfigOk(c) && id in c.world.intents && c.world.intents[id].status == REFUNDING
    ensures (exists events :: Closed(Run(c, events), id)) <==> !RefundUnheard(c, id)
  {
    hide Run, Exec, WorldOk, TaskOk;
    if RefundUnheard(c, id) {
      forall events
        ensures !Closed(Run(c, events), id)
      {
        LostRefundNeverCloses(c, events, id);
      }
    } else if id !in c.world.charged {
      var events := UnchargedCloses(c, id);
    } else if Refunded(c.world, id) + c.world.intents[id].amount <= Charged(c.world, id) {
      AmountIsPositive(c, id);
      var events := FundedCloses(c, id);
    } else {
      var k :| 0 <= k < |c.tasks| && c.tasks[k].id == id && c.tasks[k].stage.CloseRefunded?;
      var events := CloseHeard(c, id, k);
    }
  }

  lemma AmountIsPositive(c: Config, id: Id)
    requires ConfigOk(c) && id in c.world.intents
    ensures c.world.intents[id].amount > 0
  {
    hide ClusterOk;
    assert FileOk(id, FileOf(c.world, id));
  }
}
