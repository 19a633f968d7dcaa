/** When FAILED means the money never moved, and when it does not. */
module TransferCalm {
  import opened Common
  import opened LedgerModel
  import opened LedgerSafety
  import opened LedgerTheorems
  import opened TransferMachine
  import opened TransferSafety

  // ---- The hypothesis: runs of one transfer do not overlap, and its wallets hold still

  predicate Active(t: Task) { !t.stage.Finished? }

  predicate Busy(c: Config, id: Id) {
    exists k :: 0 <= k < |c.tasks| && c.tasks[k].id == id && Active(c.tasks[k])
  }

  /** The transfer is unresolved, and posted or being worked on. */
  predicate InFlight(c: Config, id: Id) {
    id in c.world.transfers && c.world.transfers[id].status == PENDING && (HasMoved(c.world, id) || Busy(c, id))
  }

  ghost predicate Permitted(c: Config, e: Event) {
    match e
    case Start(id, _) => !Busy(c, id)
    case WalletChanges(wallet, _) =>
      forall id :: InFlight(c, id) ==>
        c.world.transfers[id].sender != wallet && c.world.transfers[id].recipient != wallet
    case _ => true
  }

  ghost predicate Obeys(c: Config, events: seq<Event>)
    decreases |events|
  {
    events == [] || (Permitted(c, events[0]) && Obeys(Exec(c, events[0]), events[1..]))
  }

  // ---- What it buys

  /** Both wallets are there, active and in one currency, which `ledger` keeps. */
  predicate Aligned(w: World, row: TransferRow, ledger: nat) {
    && row.sender in w.wallets && row.recipient in w.wallets
    && w.wallets[row.sender].active && w.wallets[row.recipient].active
    && EqualFold(w.wallets[row.sender].currency, w.wallets[row.recipient].currency)
    && LedgerForCurrency(w.wallets[row.sender].currency) == Some(ledger)
  }

  /** FAILED rows never moved; a pending row that moved would be accepted again. */
  predicate RowCalm(w: World, id: Id)
    requires id in w.transfers
  {
    && (w.transfers[id].status == FAILED ==> !HasMoved(w, id))
    && (w.transfers[id].status == PENDING && HasMoved(w, id) ==>
          Aligned(w, w.transfers[id], Find(w.cluster.log, id).value.ledger))
  }

  predicate Waiting(stage: Stage) {
    stage.ReadTransfer? || stage.ReadExhausted? || stage.Finished?
  }

  /** A task past its first read has the row to itself, still PENDING; what it has read of the
      wallets still stands; and it fails the row only if nothing moved. */
  predicate TaskCalm(w: World, t: Task) {
    && (!Waiting(t.stage) ==> t.id in w.transfers && w.transfers[t.id].status == PENDING)
    && match t.stage
       case ReadRecipient(seen, sender) => seen.sender in w.wallets && w.wallets[seen.sender] == sender
       case OpenSender(seen, ledger) => Aligned(w, seen, ledger)
       case OpenRecipient(seen, ledger) => Aligned(w, seen, ledger)
       case PostTransfer(seen, ledger) => Aligned(w, seen, ledger)
       case CloseFailed(_, _) => !HasMoved(w, t.id)
       case _ => true
  }

  ghost predicate Alone(c: Config) {
    forall j, k :: 0 <= j < k < |c.tasks| && Active(c.tasks[j]) && Active(c.tasks[k]) ==> c.tasks[j].id != c.tasks[k].id
  }

  ghost predicate Calm(c: Config) {
    && Alone(c)
    && (forall id :: id in c.world.transfers ==> RowCalm(c.world, id))
    && (forall k :: 0 <= k < |c.tasks| ==> TaskCalm(c.world, c.tasks[k]))
  }

  // ---- A task's own steps

  /** For a transfer that has moved, nothing between here and the ledger refuses it again. */
  lemma MovedIsReadyAgain(w: World, id: Id, seen: TransferRow)
    requires WorldOk(w) && Remembers(w, id, seen) && HasMoved(w, id)
    ensures var t := Find(w.cluster.log, id).value;
            && Sendable(seen) && t == EntryFor(id, seen, t.ledger)
            && AccountsOpen(w.cluster, t.ledger, seen.sender) && AccountsOpen(w.cluster, t.ledger, seen.recipient)
  {
    assert FileOk(id, w.transfers[id], Find(w.cluster.log, id));
    EntryIsSettled(w.cluster, id);
  }

  lemma WalletsReadCalm(w: World, id: Id, seen: TransferRow, sender: Wallet, a: Answer)
    requires WorldOk(w) && Remembers(w, id, seen) && w.transfers[id].status == PENDING && RowCalm(w, id)
    requires seen.sender in w.wallets && w.wallets[seen.sender] == sender
    ensures TaskCalm(w, Task(id, AfterRecipient(w, id, seen, sender, a)))
  {
    if HasMoved(w, id) {
      MovedIsReadyAgain(w, id, seen);
    }
    hide WorldOk, Find;
  }

  lemma OpenedCalm(w: World, id: Id, seen: TransferRow, wallet: Id, ledger: nat, d: Delivery)
    requires WorldOk(w) && Remembers(w, id, seen) && (wallet == seen.sender || wallet == seen.recipient)
    requires RowCalm(w, id) && w.transfers[id].status == PENDING && Aligned(w, seen, ledger)
    ensures HasMoved(w, id) ==> EnsureAccounts(w.cluster, ledger, wallet, d).1 in {NoError, Unavailable}
  {
    if HasMoved(w, id) {
      MovedIsReadyAgain(w, id, seen);
      assert Find(w.cluster.log, id).value.ledger == ledger;
    }
    hide WorldOk, Find;
  }

  lemma PostedCalm(w: World, id: Id, seen: TransferRow, ledger: nat, weather: Weather)
    requires WorldOk(w) && TaskOk(w, Task(id, PostTransfer(seen, ledger)))
    requires RowCalm(w, id) && w.transfers[id].status == PENDING && Aligned(w, seen, ledger)
    ensures var (cluster, e) := Submit(w.cluster, EntryFor(id, seen, ledger), InsufficientFunds, weather);
            && (Find(cluster.log, id).Some? ==>
               e in {NoError, Unavailable} && Find(cluster.log, id).value.ledger == ledger)
  {
    if HasMoved(w, id) {
      MovedIsReadyAgain(w, id, seen);
    }
    hide WorldOk, Find;
    SubmittedEntries(w.cluster, EntryFor(id, seen, ledger), InsufficientFunds, weather, id);
  }

  /** After the step, the task and its own row are calm. */
  ghost predicate CalmAfter(w': World, id: Id, stage: Stage) {
    TaskCalm(w', Task(id, stage)) && (id in w'.transfers ==> RowCalm(w', id))
  }

  lemma OpenSenderCalm(w: World, id: Id, seen: TransferRow, ledger: nat, a: Answer)
    requires WorldOk(w) && TaskOk(w, Task(id, OpenSender(seen, ledger)))
    requires TaskCalm(w, Task(id, OpenSender(seen, ledger))) && RowCalm(w, id)
    ensures var (w', s') := DoOpenSender(w, seen, ledger, a); CalmAfter(w', id, s')
  {
    hide WorldOk, Find;
    OpenedCalm(w, id, seen, seen.sender, ledger, a.delivery);
    EnsureAccountsPostsNothing(w.cluster, ledger, seen.sender, a.delivery);
  }

  lemma OpenRecipientCalm(w: World, id: Id, seen: TransferRow, ledger: nat, a: Answer)
    requires WorldOk(w) && TaskOk(w, Task(id, OpenRecipient(seen, ledger)))
    requires TaskCalm(w, Task(id, OpenRecipient(seen, ledger))) && RowCalm(w, id)
    ensures var (w', s') := DoOpenRecipient(w, seen, ledger, a); CalmAfter(w', id, s')
  {
    hide WorldOk, Find;
    OpenedCalm(w, id, seen, seen.recipient, ledger, a.delivery);
    EnsureAccountsPostsNothing(w.cluster, ledger, seen.recipient, a.delivery);
  }

  lemma PostTransferCalm(w: World, id: Id, seen: TransferRow, ledger: nat, a: Answer)
    requires WorldOk(w) && TaskOk(w, Task(id, PostTransfer(seen, ledger)))
    requires TaskCalm(w, Task(id, PostTransfer(seen, ledger))) && RowCalm(w, id)
    ensures var (w', s') := DoPostTransfer(w, id, seen, ledger, a); CalmAfter(w', id, s')
  {
    hide WorldOk, Find, Submit;
    PostedCalm(w, id, seen, ledger, PostWeather(a));
  }

  lemma CloseCalm(w: World, id: Id, status: Status, reason: string, after: TaskError, a: Answer)
    requires id in w.transfers && RowCalm(w, id) && status != PENDING && (status == FAILED ==> !HasMoved(w, id))
    ensures var (w', s') := DoClose(w, id, status, reason, after, a); CalmAfter(w', id, s')
  {
    hide Find;
  }

  lemma ReadsCalm(w: World, t: Task, a: Answer)
    requires TaskCalm(w, t) && (t.id in w.transfers ==> RowCalm(w, t.id))
    ensures t.stage.ReadTransfer? ==> CalmAfter(w, t.id, AfterTransfer(w, t.id, a))
    ensures t.stage.ReadSender? ==> CalmAfter(w, t.id, AfterSender(w, t.stage.seen, a))
    ensures t.stage.ReadExhausted? ==> CalmAfter(w, t.id, AfterExhausted(w, t.id, a))
    ensures t.stage.LookUpEntry? ==> CalmAfter(w, t.id, AfterLookup(w, t.id, a))
  {
    hide Find;
  }

  lemma StepCalm(w: World, t: Task, a: Answer)
    requires WorldOk(w) && TaskOk(w, t)
    requires TaskCalm(w, t) && (t.id in w.transfers ==> RowCalm(w, t.id))
    ensures var (w', s') := Step(w, t, a); CalmAfter(w', t.id, s')
  {
    hide WorldOk, Find, EnsureAccounts, Submit, AfterWallets, RowCalm, Aligned;
    match t.stage
    case ReadRecipient(seen, sender) => WalletsReadCalm(w, t.id, seen, sender, a);
    case OpenSender(seen, ledger) => OpenSenderCalm(w, t.id, seen, ledger, a);
    case OpenRecipient(seen, ledger) => OpenRecipientCalm(w, t.id, seen, ledger, a);
    case PostTransfer(seen, ledger) => PostTransferCalm(w, t.id, seen, ledger, a);
    case CloseSucceeded => CloseCalm(w, t.id, SUCCESS, "", Ok, a);
    case CloseFailed(reason, after) => CloseCalm(w, t.id, FAILED, reason, after, a);
    case Finished(_) =>
    case _ => ReadsCalm(w, t, a);
  }

  // ---- What a task's steps leave alone

  /** Everything the calm of transfer `id` depends on is as it was. */
  ghost predicate SameFor(w: World, w': World, id: Id) {
    && w'.wallets == w.wallets
    && (id in w'.transfers <==> id in w.transfers)
    && (id in w.transfers ==> w'.transfers[id] == w.transfers[id])
    && Find(w'.cluster.log, id) == Find(w.cluster.log, id)
  }

  lemma StepMindsItsOwn(w: World, t: Task, a: Answer, id: Id)
    requires t.id != id
    ensures SameFor(w, Step(w, t, a).0, id)
  {
    hide Find, EnsureAccounts, Submit;
    match t.stage
    case OpenSender(seen, ledger) => EnsureAccountsPostsNothing(w.cluster, ledger, seen.sender, a.delivery);
    case OpenRecipient(seen, ledger) => EnsureAccountsPostsNothing(w.cluster, ledger, seen.recipient, a.delivery);
    case PostTransfer(seen, ledger) =>
      SubmittedEntries(w.cluster, EntryFor(t.id, seen, ledger), InsufficientFunds, PostWeather(a), id);
    case _ =>
  }

  lemma SameForRow(w: World, w': World, id: Id)
    requires SameFor(w, w', id) && id in w.transfers && RowCalm(w, id)
    ensures RowCalm(w', id)
  {
    hide Find;
  }

  lemma SameForTask(w: World, w': World, t: Task)
    requires SameFor(w, w', t.id) && TaskCalm(w, t)
    ensures TaskCalm(w', t)
  {
    hide Find;
  }

  // ---- Each permitted event

  lemma AloneStays(c: Config, e: Event)
    requires Alone(c) && Permitted(c, e)
    ensures Alone(Exec(c, e))
  {
    hide Step, Perform;
    var c' := Exec(c, e);
    forall j, k | 0 <= j < k < |c'.tasks| && Active(c'.tasks[j]) && Active(c'.tasks[k])
      ensures c'.tasks[j].id != c'.tasks[k].id
    {
      if Enabled(c, e) && e.Deliver? {
        FinishedStays(c, e.k, e.answer);
      }
      assert j < |c.tasks| && Active(c.tasks[j]) && c.tasks[j].id == c'.tasks[j].id;
      if k < |c.tasks| {
        assert Active(c.tasks[k]) && c.tasks[k].id == c'.tasks[k].id;
      }
    }
  }

  lemma FinishedStays(c: Config, k: nat, a: Answer)
    requires k < |c.tasks|
    ensures !Active(c.tasks[k]) ==> Step(c.world, c.tasks[k], a).1 == c.tasks[k].stage
  {
  }

  lemma DeliverCalm(c: Config, k: nat, a: Answer)
    requires ConfigOk(c) && Calm(c) && k < |c.tasks|
    ensures var c' := Exec(c, Deliver(k, a));
            && (forall id :: id in c'.world.transfers ==> RowCalm(c'.world, id))
            && (forall j :: 0 <= j < |c'.tasks| ==> TaskCalm(c'.world, c'.tasks[j]))
  {
    var w, t := c.world, c.tasks[k];
    var w' := Step(w, t, a).0;
    StepCalm(w, t, a);
    hide WorldOk, Find, Step, RowCalm, TaskCalm;
    forall id | id in w'.transfers
      ensures RowCalm(w', id)
    {
      if id != t.id {
        StepMindsItsOwn(w, t, a, id);
        SameForRow(w, w', id);
      }
    }
    forall j | 0 <= j < |c.tasks| && j != k
      ensures TaskCalm(w', c.tasks[j])
    {
      OthersCalm(c, k, a, j);
    }
  }

  lemma OthersCalm(c: Config, k: nat, a: Answer, j: nat)
    requires Calm(c) && k < |c.tasks| && j < |c.tasks| && j != k
    ensures TaskCalm(Step(c.world, c.tasks[k], a).0, c.tasks[j])
  {
    hide Find, Step;
    if c.tasks[j].id != c.tasks[k].id {
      StepMindsItsOwn(c.world, c.tasks[k], a, c.tasks[j].id);
      SameForTask(c.world, Step(c.world, c.tasks[k], a).0, c.tasks[j]);
    } else if Active(c.tasks[k]) {
      assert !Active(c.tasks[j]);
    } else {
      FinishedWorld(c.world, c.tasks[k], a);
    }
  }

  lemma FinishedWorld(w: World, t: Task, a: Answer)
    requires !Active(t)
    ensures Step(w, t, a).0 == w
  {
  }

  /** Rows and tasks of a configuration are calm. */
  ghost predicate CalmParts(c: Config) {
    && (forall id :: id in c.world.transfers ==> RowCalm(c.world, id))
    && (forall k :: 0 <= k < |c.tasks| ==> TaskCalm(c.world, c.tasks[k]))
  }

  lemma RowOutlivesWalletChange(c: Config, wallet: Id, attributes: Option<Wallet>, id: Id)
    requires Permitted(c, WalletChanges(wallet, attributes)) && id in c.world.transfers && RowCalm(c.world, id)
    ensures RowCalm(Exec(c, WalletChanges(wallet, attributes)).world, id)
  {
    hide Find, Busy, EqualFold;
    if c.world.transfers[id].status == PENDING && HasMoved(c.world, id) {
      assert InFlight(c, id);
    }
  }

  lemma TaskOutlivesWalletChange(c: Config, wallet: Id, attributes: Option<Wallet>, k: nat)
    requires Permitted(c, WalletChanges(wallet, attributes)) && k < |c.tasks|
    requires TaskOk(c.world, c.tasks[k]) && TaskCalm(c.world, c.tasks[k])
    ensures TaskCalm(Exec(c, WalletChanges(wallet, attributes)).world, c.tasks[k])
  {
    hide Find, EqualFold, AccountsOpen;
    var t := c.tasks[k];
    if !Waiting(t.stage) {
      assert Active(t);
      assert InFlight(c, t.id);
    }
  }

  lemma WalletChangeCalm(c: Config, wallet: Id, attributes: Option<Wallet>)
    requires ConfigOk(c) && Calm(c) && Permitted(c, WalletChanges(wallet, attributes))
    ensures CalmParts(Exec(c, WalletChanges(wallet, attributes)))
  {
    hide WorldOk, RowCalm, TaskCalm, TaskOk, Permitted;
    var c' := Exec(c, WalletChanges(wallet, attributes));
    forall id | id in c'.world.transfers
      ensures RowCalm(c'.world, id)
    {
      RowOutlivesWalletChange(c, wallet, attributes, id);
    }
    forall k | 0 <= k < |c'.tasks|
      ensures TaskCalm(c'.world, c'.tasks[k])
    {
      TaskOutlivesWalletChange(c, wallet, attributes, k);
    }
  }

  lemma TrafficCalm(c: Config, call: Command, weather: Weather)
    requires Calm(c) && Enabled(c, OtherTraffic(call, weather))
    ensures CalmParts(Exec(c, OtherTraffic(call, weather)))
  {
    hide Find, Perform;
    var w, w' := c.world, Exec(c, OtherTraffic(call, weather)).world;
    forall id | id in w'.transfers
      ensures RowCalm(w', id)
    {
      PerformPostsUnderItsId(w.cluster, call, weather, id);
      SameForRow(w, w', id);
    }
    forall k | 0 <= k < |c.tasks|
      ensures TaskCalm(w', c.tasks[k])
    {
      assert TaskCalm(w, c.tasks[k]);
      if c.tasks[k].id in w.transfers {
        PerformPostsUnderItsId(w.cluster, call, weather, c.tasks[k].id);
      }
    }
  }

  lemma NewTransferCalm(c: Config, id: Id, row: TransferRow)
    requires Calm(c) && Enabled(c, NewTransfer(id, row))
    ensures CalmParts(Exec(c, NewTransfer(id, row)))
  {
    hide Find;
    var w, w' := c.world, Exec(c, NewTransfer(id, row)).world;
    forall j | j in w'.transfers
      ensures RowCalm(w', j)
    {
      assert j != id ==> RowCalm(w, j);
    }
    forall k | 0 <= k < |c.tasks|
      ensures TaskCalm(w', c.tasks[k])
    {
      assert TaskCalm(w, c.tasks[k]);
    }
  }

  lemma ExecCalm(c: Config, e: Event)
    requires ConfigOk(c) && Calm(c) && Permitted(c, e)
    ensures Calm(Exec(c, e))
  {
    AloneStays(c, e);
    if Enabled(c, e) {
      hide ConfigOk, Alone, RowCalm, Permitted, Step, Perform;
      match e
      case Deliver(k, a) => DeliverCalm(c, k, a);
      case WalletChanges(wallet, attributes) => WalletChangeCalm(c, wallet, attributes);
      case OtherTraffic(call, weather) => TrafficCalm(c, call, weather);
      case NewTransfer(id, row) => NewTransferCalm(c, id, row);
      case _ =>
    }
  }

  lemma {:induction false} RunCalm(c: Config, events: seq<Event>)
    requires ConfigOk(c) && Calm(c) && Obeys(c, events)
    ensures ConfigOk(Run(c, events)) && Calm(Run(c, events))
    decreases |events|
  {
    hide ConfigOk, Calm, Exec, Permitted;
    if events != [] {
      ExecKeeps(c, events[0]);
      ExecCalm(c, events[0]);
      RunCalm(Exec(c, events[0]), events[1..]);
    }
  }

  /** If runs of a transfer do not overlap and its wallets hold still while it is in flight, then a
      row's status tells what the ledger did, through lost replies, retries, crashes and the
      exhaustion hook: SUCCESS moved exactly this amount, FAILED moved nothing. */
  lemma StatusTellsTheTruth(c: Config, events: seq<Event>, id: Id)
    requires Initial(c) && Obeys(c, events) && id in Run(c, events).world.transfers
    ensures var w := Run(c, events).world;
            && (w.transfers[id].status == FAILED ==> !HasMoved(w, id))
            && (w.transfers[id].status == SUCCESS ==>
               HasMoved(w, id) && Honours(Find(w.cluster.log, id).value, id, w.transfers[id]))
  {
    hide Exec, Run, ClusterOk, Find, Obeys;
    assert ConfigOk(c) && Calm(c);
    RunCalm(c, events);
    var w := Run(c, events).world;
    assert RowCalm(w, id) && FileOk(id, w.transfers[id], Find(w.cluster.log, id));
  }

  // ---- The hypothesis is exact for a run again

  predicate AllHeard(answers: Call -> Answer) {
    forall call :: Heard(answers(call))
  }

  /** A moved, still pending transfer is read and its wallets weighed. */
  lemma RereadAlone(w: World, id: Id, answers: Call -> Answer)
    requires id in w.transfers && w.transfers[id].status == PENDING && AllHeard(answers)
    ensures var row := w.transfers[id];
            RunAlone(w, Task(id, ReadTransfer), answers)
            == if row.sender in w.wallets && row.recipient in w.wallets
               then RunAlone(w, Task(id, AfterWallets(id, row, w.wallets[row.sender], w.wallets[row.recipient])),
                 answers)
               else (w, SkipRetry)
  {
    hide RunAlone, AfterWallets, Find, EnsureAccounts, Submit;
    var row := w.transfers[id];
    Onward(w, Task(id, ReadTransfer), answers);
    Onward(w, Task(id, ReadSender(row)), answers);
    if row.sender !in w.wallets {
      Over(w, id, SkipRetry, answers);
    } else {
      Onward(w, Task(id, ReadRecipient(row, w.wallets[row.sender])), answers);
      if row.recipient !in w.wallets {
        Over(w, id, SkipRetry, answers);
      }
    }
  }

  function Marked(w: World, id: Id, status: Status, reason: string): World
    requires id in w.transfers
  {
    w.(transfers := w.transfers[id := w.transfers[id].(status := status, reason := reason)])
  }

  lemma CloseAlone(w: World, id: Id, reason: string, after: TaskError, answers: Call -> Answer)
    requires id in w.transfers && w.transfers[id].status == PENDING && AllHeard(answers)
    ensures RunAlone(w, Task(id, CloseSucceeded), answers) == (Marked(w, id, SUCCESS, ""), Ok)
    ensures RunAlone(w, Task(id, CloseFailed(reason, after)), answers) == (Marked(w, id, FAILED, reason), after)
  {
    hide RunAlone, Find, EnsureAccounts, Submit;
    Onward(w, Task(id, CloseSucceeded), answers);
    Over(Marked(w, id, SUCCESS, ""), id, Ok, answers);
    Onward(w, Task(id, CloseFailed(reason, after)), answers);
    Over(Marked(w, id, FAILED, reason), id, after, answers);
  }

  lemma OpenAgain(c: Cluster, ledger: nat, wallet: Id)
    requires AccountsOpen(c, ledger, wallet)
    ensures EnsureAccounts(c, ledger, wallet, Replied) == (c, NoError)
  {
  }

  /** On the ledger it was posted to, the entry is recognised and nothing changes. */
  lemma PostAgainAlone(w: World, id: Id, row: TransferRow, ledger: nat, answers: Call -> Answer)
    requires id in w.transfers && w.transfers[id].status == PENDING && AllHeard(answers)
    requires AccountsOpen(w.cluster, ledger, row.sender) && AccountsOpen(w.cluster, ledger, row.recipient)
    requires Find(w.cluster.log, id) == Some(EntryFor(id, row, ledger))
    ensures RunAlone(w, Task(id, OpenSender(row, ledger)), answers) == (Marked(w, id, SUCCESS, ""), Ok)
  {
    hide RunAlone, Find, EnsureAccounts;
    OpenAgain(w.cluster, ledger, row.sender);
    OpenAgain(w.cluster, ledger, row.recipient);
    Onward(w, Task(id, OpenSender(row, ledger)), answers);
    assert DoOpenSender(w, row, ledger, answers(CreateSender)) == (w, OpenRecipient(row, ledger));
    Onward(w, Task(id, OpenRecipient(row, ledger)), answers);
    assert DoOpenRecipient(w, row, ledger, answers(CreateRecipient)) == (w, PostTransfer(row, ledger));
    Onward(w, Task(id, PostTransfer(row, ledger)), answers);
    assert DoPostTransfer(w, id, row, ledger, answers(CreateTransfers)) == (w, CloseSucceeded);
    CloseAlone(w, id, "", Ok, answers);
  }

  /** On any other ledger the sender's account is taken, and the row is failed. */
  lemma OtherLedgerAlone(w: World, id: Id, row: TransferRow, ledger: nat, answers: Call -> Answer)
    requires id in w.transfers && w.transfers[id].status == PENDING && AllHeard(answers)
    requires WalletAccount(row.sender) in w.cluster.accounts
      && w.cluster.accounts[WalletAccount(row.sender)].spec.ledger != ledger
    ensures var w' := RunAlone(w, Task(id, OpenSender(row, ledger)), answers).0;
            && w'.transfers == Marked(w, id, FAILED, REJECTED).transfers
            && w'.cluster.log == w.cluster.log
  {
    hide RunAlone, Find;
    Onward(w, Task(id, OpenSender(row, ledger)), answers);
    var w1 := DoOpenSender(w, row, ledger, answers(CreateSender)).0;
    CloseAlone(w1, id, REJECTED, SkipRetry, answers);
  }

  /** Running a moved, still pending transfer again, every call answered, closes it as SUCCESS if
      and only if its wallets are still active and on the entry's ledger; with both rows present but
      anything else changed it is closed as FAILED although the money moved. */
  lemma RerunExactly(w: World, id: Id, answers: Call -> Answer)
    requires WorldOk(w) && id in w.transfers && w.transfers[id].status == PENDING && HasMoved(w, id)
    requires AllHeard(answers)
    ensures var row := w.transfers[id];
            var aligned := Aligned(w, row, Find(w.cluster.log, id).value.ledger);
            var w' := RunAlone(w, Task(id, ReadTransfer), answers).0;
            && id in w'.transfers
            && (w'.transfers[id].status == SUCCESS <==> aligned)
            && (w'.transfers[id].status == FAILED <==>
               row.sender in w.wallets && row.recipient in w.wallets && !aligned)
            && w'.cluster.log == w.cluster.log
  {
    var row, entry := w.transfers[id], Find(w.cluster.log, id).value;
    RereadAlone(w, id, answers);
    if row.sender in w.wallets && row.recipient in w.wallets {
      MovedIsReadyAgain(w, id, row);
      hide RunAlone, Find, WorldOk;
      var stage := AfterWallets(id, row, w.wallets[row.sender], w.wallets[row.recipient]);
      if stage.CloseFailed? {
        CloseAlone(w, id, stage.reason, stage.after, answers);
      } else if stage.ledger == entry.ledger {
        PostAgainAlone(w, id, row, entry.ledger, answers);
      } else {
        OtherLedgerAlone(w, id, row, stage.ledger, answers);
      }
    }
  }

  /** The exhaustion hook asks the ledger first, and never gets it wrong on its own. */
  lemma ExhaustedTellsTheTruth(w: World, id: Id, answers: Call -> Answer)
    requires id in w.transfers && w.transfers[id].status == PENDING && AllHeard(answers)
    ensures RunAlone(w, Task(id, ReadExhausted), answers).0
            == if HasMoved(w, id) then Marked(w, id, SUCCESS, "") else Marked(w, id, FAILED, EXHAUSTED)
  {
    hide RunAlone, Find, EnsureAccounts, Submit;
    Onward(w, Task(id, ReadExhausted), answers);
    Onward(w, Task(id, LookUpEntry), answers);
    CloseAlone(w, id, EXHAUSTED, Ok, answers);
  }

  const CLEAN: Answer := Answer(Replied, false, 0)

  /** Why runs must not overlap: a hook between its empty lookup and its update, and an execute task
      about to post with the funds there, leave a FAILED row whose money moved. */
  lemma OverlapMisleads(c: Config, k: nat, j: nat)
    requires ConfigOk(c) && k < |c.tasks| && j < |c.tasks|
    requires c.tasks[k].stage.LookUpEntry? && c.tasks[j].stage.PostTransfer? && c.tasks[j].id == c.tasks[k].id
    requires var id, s := c.tasks[k].id, c.tasks[j].stage;
             && id in c.world.transfers && c.world.transfers[id].status == PENDING && !HasMoved(c.world, id)
             && !Overdraws(c.world.cluster, EntryFor(id, s.seen, s.ledger))
    ensures var w := Run(c, [Deliver(k, CLEAN), Deliver(k, CLEAN), Deliver(j, CLEAN)]).world;
            var id := c.tasks[k].id;
            id in w.transfers && w.transfers[id].status == FAILED && HasMoved(w, id)
  {
    hide Find, EnsureAccounts, ClusterOk, FilesOk;
    var id, t := c.tasks[k].id, c.tasks[j];
    assert TaskOk(c.world, t);
    var entry := EntryFor(id, t.stage.seen, t.stage.ledger);
    SubmittedEntries(c.world.cluster, entry, InsufficientFunds, PostWeather(CLEAN), id);
    var c1 := Exec(c, Deliver(k, CLEAN));
    assert c1 == Config(c.world, c.tasks[k := Task(id, CloseFailed(EXHAUSTED, Ok))]);
    var c2 := Exec(c1, Deliver(k, CLEAN));
    assert c2.world == Marked(c.world, id, FAILED, EXHAUSTED) && c2.tasks[j] == t;
    var c3 := Exec(c2, Deliver(j, CLEAN));
    assert c3.world.transfers == c2.world.transfers;
    assert c3.world.cluster == Submit(c.world.cluster, entry, InsufficientFunds, PostWeather(CLEAN)).0;
    RunThree(c, Deliver(k, CLEAN), Deliver(k, CLEAN), Deliver(j, CLEAN));
  }

  lemma RunThree(c: Config, e1: Event, e2: Event, e3: Event)
    ensures Run(c, [e1, e2, e3]) == Exec(Exec(Exec(c, e1), e2), e3)
  {
    hide Exec;
    assert [e1, e2, e3][1..] == [e2, e3] && [e2, e3][1..] == [e3] && [e3][1..] == [];
    assert Run(Exec(Exec(c, e1), e2), [e3]) == Run(Exec(Exec(Exec(c, e1), e2), e3), []);
  }
}
