/** When a deposit can be both credited and refunded, and when it cannot. */
module DepositRace {
  import opened Common
  import opened LedgerModel
  import opened LedgerSafety
  import opened DepositMachine
  import opened DepositSafety

  // ---- Which tasks can still credit an intent

  /** A supported currency the provider's settled currency agrees with. */
  predicate Agrees(settled: string, currency: string) {
    currency in CURRENCY_LEDGERS && (settled == "" || EqualFold(settled, currency))
  }

  /** The task read the intent as PENDING and nothing irrevocable keeps it from posting the deposit. */
  ghost predicate MayCredit(w: World, t: Task) {
    match t.stage
    case ReadWallet(seen, settled) =>
      exists currency :: Agrees(settled, currency) && Openable(w.cluster, CURRENCY_LEDGERS[currency], seen.wallet)
    case OpenAccount(seen, ledger) => Openable(w.cluster, ledger, seen.wallet)
    case PostDeposit(_, _) => true
    case _ => false
  }

  /** The intent was given up on, is not credited, and no task can credit it any more. */
  ghost predicate Inert(c: Config, id: Id) {
    && Resolved(c.world, id)
    && !IsCredited(c.world, id)
    && (forall k :: 0 <= k < |c.tasks| && c.tasks[k].id == id ==> !MayCredit(c.world, c.tasks[k]))
  }

  // ---- An inert intent stays inert, whatever happens next

  lemma MayCreditShrinks(w: World, w': World, t: Task)
    requires Extends(w.cluster, w'.cluster) && MayCredit(w', t)
    ensures MayCredit(w, t)
  {
    if t.stage.ReadWallet? {
      var currency :| Agrees(t.stage.currency, currency)
        && Openable(w'.cluster, CURRENCY_LEDGERS[currency], t.stage.seen.wallet);
      assert Openable(w.cluster, CURRENCY_LEDGERS[currency], t.stage.seen.wallet);
    }
  }

  lemma WalletRead(w: World, id: Id, seen: Intent, settled: string, a: Answer)
    requires var s := AfterWallet(w, id, seen, settled, a);
             s.OpenAccount? && Openable(w.cluster, s.ledger, seen.wallet)
    ensures MayCredit(w, Task(id, ReadWallet(seen, settled)))
  {
    var currency := w.wallets[seen.wallet].currency;
    assert Agrees(settled, currency) && Openable(w.cluster, CURRENCY_LEDGERS[currency], seen.wallet);
  }

  lemma AccountOpened(w: World, seen: Intent, ledger: nat, a: Answer)
    requires DoOpenAccount(w, seen, ledger, a).1.PostDeposit?
    ensures Openable(w.cluster, ledger, seen.wallet)
  {
  }

  /** A task gains no power to credit by moving on, once the intent is resolved. */
  lemma MovingOnGainsNothing(w: World, t: Task, a: Answer)
    requires Resolved(w, t.id) && !MayCredit(w, t)
    requires Extends(w.cluster, Step(w, t, a).0.cluster)
    ensures !MayCredit(Step(w, t, a).0, Task(t.id, Step(w, t, a).1))
  {
    hide Extends;
    var (w', s') := Step(w, t, a);
    if MayCredit(w', Task(t.id, s')) {
      if t.stage.ReadWallet? {
        WalletRead(w, t.id, t.stage.seen, t.stage.currency, a);
      } else if t.stage.OpenAccount? {
        AccountOpened(w, t.stage.seen, t.stage.ledger, a);
      }
    }
  }

  /** Two calls reach the ledger; the others leave it alone. */
  lemma StepOnLedger(w: World, t: Task, a: Answer)
    ensures Step(w, t, a).0.cluster ==
            match t.stage
            case OpenAccount(seen, ledger) => EnsureAccounts(w.cluster, ledger, seen.wallet, a.delivery).0
            case PostDeposit(seen, ledger) =>
              Submit(w.cluster, EntryFor(t.id, seen, ledger), Rejected, PostWeather(a)).0
            case _ => w.cluster
  {
    hide EnsureAccounts, Submit, Find, AfterWallet, AfterIntent, AfterVerdict, AfterPoll, AfterLookup;
  }

  /** Only a task that may credit an intent posts under its id. */
  lemma StepPostsOwnEntry(w: World, t: Task, a: Answer, id: Id)
    requires t.id != id || !t.stage.PostDeposit?
    ensures IsCredited(Step(w, t, a).0, id) == IsCredited(w, id)
  {
    StepOnLedger(w, t, a);
    if t.stage.OpenAccount? {
      EnsureAccountsPostsNothing(w.cluster, t.stage.ledger, t.stage.seen.wallet, a.delivery);
    } else if t.stage.PostDeposit? {
      SubmittedEntries(w.cluster, EntryFor(t.id, t.stage.seen, t.stage.ledger), Rejected, PostWeather(a), id);
    }
    hide Find, Submit, EnsureAccounts, Step;
  }

  lemma EventCreditsNothing(c: Config, e: Event, id: Id)
    requires ConfigOk(c) && Inert(c, id)
    ensures !IsCredited(Exec(c, e).world, id)
  {
    hide ConfigOk, Step, Perform, Find;
    if Enabled(c, e) {
      match e
      case Deliver(k, a) => StepPostsOwnEntry(c.world, c.tasks[k], a, id);
      case OtherTraffic(call, weather) => PerformPostsUnderItsId(c.world.cluster, call, weather, id);
      case _ =>
    }
  }

  lemma InertTasks(c: Config, e: Event, id: Id, k: nat)
    requires ConfigOk(c) && Inert(c, id)
    requires k < |Exec(c, e).tasks| && Exec(c, e).tasks[k].id == id
    ensures !MayCredit(Exec(c, e).world, Exec(c, e).tasks[k])
  {
    EventWorld(c, e);
    hide Extends, WorldOk, RowsEvolve, Step, Perform, TaskOk, MayCredit;
    if Enabled(c, e) && e.Deliver? && e.k == k {
      MovingOnGainsNothing(c.world, c.tasks[k], e.answer);
    } else if MayCredit(Exec(c, e).world, Exec(c, e).tasks[k]) {
      MayCreditShrinks(c.world, Exec(c, e).world, Exec(c, e).tasks[k]);
      FreshTasksMayNotCredit(c, e, k);
    }
  }

  lemma FreshTasksMayNotCredit(c: Config, e: Event, k: nat)
    requires k < |Exec(c, e).tasks| && !(Enabled(c, e) && e.Deliver? && e.k == k)
    requires MayCredit(c.world, Exec(c, e).tasks[k])
    ensures k < |c.tasks| && c.tasks[k] == Exec(c, e).tasks[k]
  {
    hide Step, Perform;
  }

  lemma InertLasts(c: Config, e: Event, id: Id)
    requires ConfigOk(c) && Inert(c, id)
    ensures Inert(Exec(c, e), id)
  {
    EventWorld(c, e);
    EventCreditsNothing(c, e, id);
    forall k | 0 <= k < |Exec(c, e).tasks| && Exec(c, e).tasks[k].id == id
      ensures !MayCredit(Exec(c, e).world, Exec(c, e).tasks[k])
    {
      InertTasks(c, e, id, k);
    }
    hide Extends, WorldOk, Exec, TaskOk, MayCredit, IsCredited;
  }

  lemma {:induction false} InertForGood(c: Config, events: seq<Event>, id: Id)
    requires ConfigOk(c) && Inert(c, id)
    ensures Inert(Run(c, events), id)
    decreases |events|
  {
    hide Inert, ConfigOk, Exec;
    if events != [] {
      ExecKeeps(c, events[0]);
      InertLasts(c, events[0], id);
      InertForGood(Exec(c, events[0]), events[1..], id);
    }
  }

  // ---- The hypothesis, and safety under it

  /** No ledger lookup comes back empty while another task may still credit the same intent. */
  ghost predicate Permitted(c: Config, e: Event) {
    Enabled(c, e) && e.Deliver? && c.tasks[e.k].stage.LookUpEntry? && !IsCredited(c.world, c.tasks[e.k].id) ==>
      forall j :: 0 <= j < |c.tasks| && j != e.k && c.tasks[j].id == c.tasks[e.k].id ==> !MayCredit(c.world, c.tasks[j])
  }

  ghost predicate Obeys(c: Config, events: seq<Event>)
    decreases |events|
  {
    events == [] || (Permitted(c, events[0]) && Obeys(Exec(c, events[0]), events[1..]))
  }

  predicate Refunding(stage: Stage) {
    stage.BeginRefund? || stage.SendRefund? || stage.CloseRefunded?
  }

  /** Whatever is being returned, or is about to be, can no longer be credited. */
  ghost predicate ReturnsAreInert(c: Config) {
    && (forall id :: id in c.world.intents && Returning(c.world.intents[id].status) ==> Inert(c, id))
    && (forall k :: 0 <= k < |c.tasks| && Refunding(c.tasks[k].stage) ==> Inert(c, c.tasks[k].id))
  }

  /** A task turns to refunding only after an empty lookup, or on reading REFUNDING. */
  lemma TurnsToRefunding(w: World, t: Task, a: Answer)
    requires Refunding(Step(w, t, a).1)
    ensures || Refunding(t.stage)
            || (t.stage.LookUpEntry? && !IsCredited(w, t.id))
            || (t.stage.ReadIntent? && t.id in w.intents && Returning(w.intents[t.id].status))
  {
    hide Find, EnsureAccounts, Submit;
  }

  /** The guarded update a stage stands before. */
  function Update(stage: Stage): Option<(set<Status>, Status)> {
    match stage
    case CloseSucceeded => Some(({PENDING, FAILED}, SUCCESS))
    case BeginRefund(_) => Some(({FAILED, REFUNDING}, REFUNDING))
    case CloseRefunded => Some(({REFUNDING}, REFUNDED))
    case CloseFailed => Some(({PENDING}, FAILED))
    case _ => None
  }

  lemma RefundLeavesIntents(w: World, id: Id, amount: nat)
    ensures IssueRefund(w, id, amount).0.intents == w.intents
  {
  }

  /** A call changes no intent but the task's own, and that only by its guarded update. */
  lemma StepOnIntents(w: World, t: Task, a: Answer)
    ensures var w' := Step(w, t, a).0;
            || w'.intents == w.intents
            || (Update(t.stage).Some? &&
                w'.intents == MoveIntent(w, t.id, Update(t.stage).value.0, Update(t.stage).value.1).0.intents)
  {
    hide EnsureAccounts, Submit, MoveIntent, IssueRefund;
    match t.stage
    case OpenAccount(seen, ledger) =>
    case PostDeposit(seen, ledger) =>
    case SendRefund(seen) => RefundLeavesIntents(w, t.id, Units(seen.amount));
    case CloseSucceeded =>
    case BeginRefund(seen) =>
    case CloseRefunded =>
    case CloseFailed =>
    case _ =>
  }

  /** An intent starts being returned only by a task that is refunding it. */
  lemma TurnsToReturning(w: World, t: Task, a: Answer, id: Id)
    requires id in w.intents && !Returning(w.intents[id].status)
    requires id in Step(w, t, a).0.intents && Returning(Step(w, t, a).0.intents[id].status)
    ensures t.id == id && Refunding(t.stage)
  {
    StepOnIntents(w, t, a);
    hide Step;
  }

  lemma RefundersStayInert(c: Config, e: Event, k: nat)
    requires ConfigOk(c) && ReturnsAreInert(c) && Permitted(c, e)
    requires k < |Exec(c, e).tasks| && Refunding(Exec(c, e).tasks[k].stage)
    ensures Inert(Exec(c, e), Exec(c, e).tasks[k].id)
  {
    hide Step, Perform;
    if Enabled(c, e) && e.Deliver? && e.k == k {
      TurnsToRefunding(c.world, c.tasks[k], e.answer);
      assert TaskOk(c.world, c.tasks[k]);
    } else {
      assert k < |c.tasks| && c.tasks[k] == Exec(c, e).tasks[k];
    }
    InertLasts(c, e, Exec(c, e).tasks[k].id);
  }

  lemma ReturnedStayInert(c: Config, e: Event, id: Id)
    requires ConfigOk(c) && ReturnsAreInert(c)
    requires id in Exec(c, e).world.intents && Returning(Exec(c, e).world.intents[id].status)
    ensures Inert(Exec(c, e), id)
  {
    hide Step, Perform, Inert, WorldOk, TaskOk;
    if id !in c.world.intents {
      IntentsComeFromCheckout(c, e, id);
    } else if !Returning(c.world.intents[id].status) {
      TurnsToReturning(c.world, c.tasks[e.k], e.answer, id);
    }
    InertLasts(c, e, id);
  }

  lemma StepAddsNoIntent(w: World, t: Task, a: Answer)
    ensures Step(w, t, a).0.intents.Keys == w.intents.Keys
  {
    StepOnIntents(w, t, a);
    hide Step;
  }

  lemma IntentsComeFromCheckout(c: Config, e: Event, id: Id)
    requires id in Exec(c, e).world.intents && id !in c.world.intents
    ensures Exec(c, e).world.intents[id].status == PENDING
  {
    hide Step, Perform;
    if Enabled(c, e) && e.Deliver? {
      StepAddsNoIntent(c.world, c.tasks[e.k], e.answer);
    }
  }

  lemma SafetyStep(c: Config, e: Event)
    requires ConfigOk(c) && ReturnsAreInert(c) && Permitted(c, e)
    ensures ReturnsAreInert(Exec(c, e))
  {
    forall id | id in Exec(c, e).world.intents && Returning(Exec(c, e).world.intents[id].status)
      ensures Inert(Exec(c, e), id)
    {
      ReturnedStayInert(c, e, id);
    }
    forall k | 0 <= k < |Exec(c, e).tasks| && Refunding(Exec(c, e).tasks[k].stage)
      ensures Inert(Exec(c, e), Exec(c, e).tasks[k].id)
    {
      RefundersStayInert(c, e, k);
    }
    hide Exec, Inert, ConfigOk;
  }

  lemma {:induction false} SafetyRun(c: Config, events: seq<Event>)
    requires ConfigOk(c) && ReturnsAreInert(c) && Obeys(c, events)
    ensures ConfigOk(Run(c, events)) && ReturnsAreInert(Run(c, events))
    decreases |events|
  {
    hide ConfigOk, ReturnsAreInert, Exec, Permitted;
    if events != [] {
      ExecKeeps(c, events[0]);
      SafetyStep(c, events[0]);
      SafetyRun(Exec(c, events[0]), events[1..]);
    }
  }

  ghost predicate CreditedAndRefunded(w: World, id: Id) {
    IsCredited(w, id) && Refunded(w, id) > 0
  }

  /** Under the hypothesis no deposit is ever both credited and refunded, and a row that says
      REFUNDING or REFUNDED has no ledger entry: its lookup may be skipped. */
  lemma NeverCreditedAndRefunded(c: Config, events: seq<Event>, id: Id)
    requires Initial(c) && Obeys(c, events)
    requires id in Run(c, events).world.intents
    ensures !CreditedAndRefunded(Run(c, events).world, id)
    ensures Returning(Run(c, events).world.intents[id].status) ==> !IsCredited(Run(c, events).world, id)
  {
    SafetyRun(c, events);
    assert FileOk(id, FileOf(Run(c, events).world, id));
    hide Find, Exec, Obeys, Run, ClusterOk;
  }

  // ---- The hypothesis is exact

  const CLEAN: Answer := Answer(Replied, Verdict(false, PaymentPending, 0, ""), false, 0)

  /** `c'` differs from `c` only in task j's stage, the wallets and the ledger. */
  ghost predicate OnlyTaskMoved(c: Config, c': Config, j: nat) {
    && c'.world.intents == c.world.intents && c'.world.charged == c.world.charged
    && c'.world.refunded == c.world.refunded
    && |c'.tasks| == |c.tasks|
    && (forall k :: 0 <= k < |c.tasks| && k != j ==> c'.tasks[k] == c.tasks[k])
    && (j < |c.tasks| ==> c'.tasks[j].id == c.tasks[j].id)
  }

  /** What is left for a task to do before it has posted its deposit. */
  lemma FreshDepositPosts(w: World, id: Id, seen: Intent, ledger: nat)
    requires WorldOk(w) && !IsCredited(w, id) && Remembers(w, id, seen) && AccountsOpen(w.cluster, ledger, seen.wallet)
    ensures DoPostDeposit(w, id, seen, ledger, CLEAN).1 == CloseSucceeded
    ensures var w' := DoPostDeposit(w, id, seen, ledger, CLEAN).0; w' == w.(cluster := w'.cluster)
    ensures IsCredited(DoPostDeposit(w, id, seen, ledger, CLEAN).0, id)
  {
    var t := EntryFor(id, seen, ledger);
    SubmittedEntries(w.cluster, t, Rejected, PostWeather(CLEAN), id);
  }

  lemma FreshAccountOpens(w: World, seen: Intent, ledger: nat)
    requires WorldOk(w) && Openable(w.cluster, ledger, seen.wallet)
    ensures DoOpenAccount(w, seen, ledger, CLEAN).1 == PostDeposit(seen, ledger)
    ensures var w' := DoOpenAccount(w, seen, ledger, CLEAN).0;
            w' == w.(cluster := w'.cluster) && w'.cluster.log == w.cluster.log
  {
    assert SpecOk(SettlementAccount(ledger), SettlementSpec(ledger));
  }

  lemma RunFirst(c: Config, e: Event, rest: seq<Event>)
    ensures Run(c, [e] + rest) == Run(Exec(c, e), rest)
  {
    assert ([e] + rest)[1..] == rest;
  }

  /** Events after which task j has credited its intent and nothing else has moved. */
  ghost predicate Credits(c: Config, events: seq<Event>, j: nat)
    requires j < |c.tasks|
  {
    OnlyTaskMoved(c, Run(c, events), j) && IsCredited(Run(c, events).world, c.tasks[j].id)
  }

  lemma CreditsLater(c: Config, e: Event, rest: seq<Event>, j: nat)
    requires j < |c.tasks| && OnlyTaskMoved(c, Exec(c, e), j) && Credits(Exec(c, e), rest, j)
    ensures Credits(c, [e] + rest, j)
  {
    hide Run, Exec, IsCredited;
    RunFirst(c, e, rest);
  }

  lemma CreditsFromPost(c: Config, j: nat)
    requires ConfigOk(c) && j < |c.tasks| && c.tasks[j].stage.PostDeposit? && !IsCredited(c.world, c.tasks[j].id)
    ensures Credits(c, [Deliver(j, CLEAN)], j)
  {
    var t := c.tasks[j];
    assert TaskOk(c.world, t);
    FreshDepositPosts(c.world, t.id, t.stage.seen, t.stage.ledger);
    hide WorldOk, DoPostDeposit, IsCredited;
    RunFirst(c, Deliver(j, CLEAN), []);
    assert [Deliver(j, CLEAN)] + [] == [Deliver(j, CLEAN)];
  }

  lemma CreditsFromAccount(c: Config, j: nat)
    returns (events: seq<Event>)
    requires ConfigOk(c) && j < |c.tasks| && c.tasks[j].stage.OpenAccount? && !IsCredited(c.world, c.tasks[j].id)
    requires MayCredit(c.world, c.tasks[j])
    ensures Credits(c, events, j)
  {
    hide DoOpenAccount, Find, TaskOk, ClusterOk;
    var t := c.tasks[j];
    FreshAccountOpens(c.world, t.stage.seen, t.stage.ledger);
    ExecKeeps(c, Deliver(j, CLEAN));
    CreditsFromPost(Exec(c, Deliver(j, CLEAN)), j);
    CreditsLater(c, Deliver(j, CLEAN), [Deliver(j, CLEAN)], j);
    events := [Deliver(j, CLEAN)] + [Deliver(j, CLEAN)];
  }

  lemma MendedWalletPasses(w: World, id: Id, seen: Intent, settled: string, currency: string)
    requires Agrees(settled, currency) && seen.amount > 0
    ensures AfterWallet(w.(wallets := w.wallets[seen.wallet := Wallet(currency, true)]), id, seen, settled, CLEAN)
            == OpenAccount(seen, CURRENCY_LEDGERS[currency])
  {
  }

  lemma SeenIsPositive(c: Config, j: nat)
    requires ConfigOk(c) && j < |c.tasks| && c.tasks[j].stage.ReadWallet?
    ensures c.tasks[j].stage.seen.amount > 0
  {
    hide ClusterOk;
    assert TaskOk(c.world, c.tasks[j]) && FileOk(c.tasks[j].id, FileOf(c.world, c.tasks[j].id));
  }

  lemma CreditsFromWallet(c: Config, j: nat)
    returns (events: seq<Event>)
    requires ConfigOk(c) && j < |c.tasks| && c.tasks[j].stage.ReadWallet? && !IsCredited(c.world, c.tasks[j].id)
    requires MayCredit(c.world, c.tasks[j])
    ensures Credits(c, events, j)
  {
    hide ConfigOk, AfterWallet, Find, FileOk, TaskOk, WorldOk;
    var t := c.tasks[j];
    var seen := t.stage.seen;
    SeenIsPositive(c, j);
    var currency :| Agrees(t.stage.currency, currency)
      && Openable(c.world.cluster, CURRENCY_LEDGERS[currency], seen.wallet);
    MendedWalletPasses(c.world, t.id, seen, t.stage.currency, currency);
    var mend := WalletChanges(seen.wallet, Wallet(currency, true));
    var c1 := Exec(c, mend);
    ExecKeeps(c, mend);
    ExecKeeps(c1, Deliver(j, CLEAN));
    var rest := CreditsFromAccount(Exec(c1, Deliver(j, CLEAN)), j);
    CreditsLater(c1, Deliver(j, CLEAN), rest, j);
    CreditsLater(c, mend, [Deliver(j, CLEAN)] + rest, j);
    events := [mend] + ([Deliver(j, CLEAN)] + rest);
  }

  /** A task that may credit does, if the wallet is put right and its calls are answered. */
  lemma CreditsInTheEnd(c: Config, j: nat)
    returns (events: seq<Event>)
    requires ConfigOk(c) && j < |c.tasks| && MayCredit(c.world, c.tasks[j]) && !IsCredited(c.world, c.tasks[j].id)
    ensures Credits(c, events, j)
  {
    hide ConfigOk, Credits, IsCredited;
    match c.tasks[j].stage
    case PostDeposit(_, _) =>
      CreditsFromPost(c, j);
      events := [Deliver(j, CLEAN)];
    case OpenAccount(_, _) => events := CreditsFromAccount(c, j);
    case ReadWallet(_, _) => events := CreditsFromWallet(c, j);
  }

  /** The refund goes out: REFUNDING is written and the provider accepts. */
  lemma RefundGoesOut(c: Config, k: nat)
    requires k < |c.tasks| && c.tasks[k].stage.BeginRefund?
    requires var t := c.tasks[k];
             && Remembers(c.world, t.id, t.stage.seen) && t.stage.seen.amount > 0
             && c.world.intents[t.id].status in {FAILED, REFUNDING}
             && Refunded(c.world, t.id) + t.stage.seen.amount <= Charged(c.world, t.id)
    ensures var c' := Run(c, [Deliver(k, CLEAN), Deliver(k, CLEAN)]);
            var t := c.tasks[k];
            c'.world.cluster == c.world.cluster
              && Refunded(c'.world, t.id) == Refunded(c.world, t.id) + t.stage.seen.amount
  {
    hide CreateTransfer, EnsureAccounts;
    var c1 := Exec(c, Deliver(k, CLEAN));
    assert c1.tasks[k].stage == SendRefund(c.tasks[k].stage.seen);
    RunFirst(c, Deliver(k, CLEAN), [Deliver(k, CLEAN)]);
    RunFirst(c1, Deliver(k, CLEAN), []);
  }

  lemma {:induction false} RunSplits(c: Config, a: seq<Event>, b: seq<Event>)
    ensures Run(c, a + b) == Run(Run(c, a), b)
    decreases |a|
  {
    hide Exec;
    if a == [] {
      assert a + b == b;
    } else {
      assert (a + b)[1..] == a[1..] + b;
      RunSplits(Exec(c, a[0]), a[1..], b);
    }
  }

  /** An empty lookup turns its task to refunding what it remembers, and changes nothing else. */
  lemma EmptyLookup(c: Config, k: nat)
    requires ConfigOk(c) && k < |c.tasks| && c.tasks[k].stage.LookUpEntry? && !IsCredited(c.world, c.tasks[k].id)
    ensures var t := c.tasks[k];
            && Exec(c, Deliver(k, CLEAN)) == c.(tasks := c.tasks[k := Task(t.id, BeginRefund(t.stage.seen))])
            && Remembers(c.world, t.id, t.stage.seen) && t.stage.seen.amount > 0
            && (c.world.intents[t.id].status == FAILED ==> Refunded(c.world, t.id) == 0)
  {
    hide ClusterOk, Find;
    var t := c.tasks[k];
    assert TaskOk(c.world, t) && FileOk(t.id, FileOf(c.world, t.id));
  }

  lemma LookupMayNotCredit(w: World, t: Task)
    requires t.stage.LookUpEntry?
    ensures !MayCredit(w, t)
  {
  }

  /** A refund task meeting a task that may credit: the schedule on which the customer gets both. */
  lemma RaceLost(c: Config, k: nat, j: nat)
    returns (events: seq<Event>)
    requires ConfigOk(c) && k < |c.tasks| && c.tasks[k].stage.LookUpEntry?
    requires var id := c.tasks[k].id;
             && !IsCredited(c.world, id) && c.world.intents[id].status == FAILED
             && c.world.intents[id].amount <= Charged(c.world, id)
    requires j < |c.tasks| && c.tasks[j].id == c.tasks[k].id && MayCredit(c.world, c.tasks[j])
    ensures CreditedAndRefunded(Run(c, events).world, c.tasks[k].id)
  {
    hide ConfigOk, Find, Exec, TaskOk, MayCredit;
    var t := c.tasks[k];
    var lookup := Deliver(k, CLEAN);
    var c1 := Exec(c, lookup);
    ExecKeeps(c, lookup);
    EmptyLookup(c, k);
    LookupMayNotCredit(c.world, t);
    var crediting := CreditsInTheEnd(c1, j);
    var c2 := Run(c1, crediting);
    RefundGoesOut(c2, k);
    RunSplits(c1, crediting, [Deliver(k, CLEAN), Deliver(k, CLEAN)]);
    RunFirst(c, lookup, crediting + [Deliver(k, CLEAN), Deliver(k, CLEAN)]);
    events := [lookup] + (crediting + [Deliver(k, CLEAN), Deliver(k, CLEAN)]);
  }

  /** At an empty lookup of a charged, given-up intent: it can never end up both credited and
      refunded if and only if no task may still credit it. The hypothesis above asks for nothing
      that can be spared. */
  lemma LookupIsSafeExactly(c: Config, k: nat)
    requires ConfigOk(c) && k < |c.tasks| && c.tasks[k].stage.LookUpEntry?
    requires var id := c.tasks[k].id;
             && !IsCredited(c.world, id) && c.world.intents[id].status == FAILED
             && c.world.intents[id].amount <= Charged(c.world, id)
    ensures (forall events :: !CreditedAndRefunded(Run(c, events).world, c.tasks[k].id))
            <==> (forall j :: 0 <= j < |c.tasks| && c.tasks[j].id == c.tasks[k].id ==> !MayCredit(c.world, c.tasks[j]))
  {
    var id := c.tasks[k].id;
    if j :| 0 <= j < |c.tasks| && c.tasks[j].id == id && MayCredit(c.world, c.tasks[j]) {
      var events := RaceLost(c, k, j);
    } else {
      assert Inert(c, id);
      forall events
        ensures !CreditedAndRefunded(Run(c, events).world, id)
      {
        InertForGood(c, events, id);
      }
    }
  }
}
