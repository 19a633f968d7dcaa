/** What holds of deposits under every interleaving, with any task crashing and any reply lost. */
module DepositSafety {
  import opened Common
  import opened LedgerModel
  import opened LedgerSafety
  import opened DepositMachine

  // ---- The invariant

  /** The entry credits the intent's amount to the intent's wallet. */
  predicate Honours(t: Transfer, id: Id, intent: Intent) {
    && t.id == id && t.code == TRANSFER_DEPOSIT && t.debit == SettlementAccount(t.ledger)
    && t.credit == WalletAccount(intent.wallet) && t.amount == intent.amount
  }

  predicate Returning(s: Status) { s == REFUNDING || s == REFUNDED }

  /** Everything the three systems hold about one intent. */
  datatype File = File(intent: Intent, entry: Option<Transfer>, charged: nat, refunded: nat, receipts: nat)

  function FileOf(w: World, id: Id): File
    requires id in w.intents
  {
    File(w.intents[id], Find(w.cluster.log, id), Charged(w, id), Refunded(w, id), Receipts(w, id))
  }

  predicate FileOk(id: Id, f: File) {
    && f.intent.amount > 0
    && (f.entry.Some? ==> Honours(f.entry.value, id, f.intent))
    && (f.intent.status == SUCCESS ==> f.entry.Some?)
    && f.receipts <= 1 && (f.receipts == 1 ==> f.intent.status == SUCCESS)
    && f.refunded <= f.charged
    && (f.refunded > 0 ==> Returning(f.intent.status) && f.refunded >= f.intent.amount)
    && (f.charged < 2 * f.intent.amount ==> f.refunded <= f.intent.amount)
    && (f.intent.status == REFUNDED ==> f.refunded > 0)
  }

  ghost predicate FilesOk(w: World) {
    && w.charged.Keys <= w.intents.Keys && w.refunded.Keys <= w.intents.Keys && w.receipts.Keys <= w.intents.Keys
    && (forall id :: id in w.intents ==> FileOk(id, FileOf(w, id)))
  }

  ghost predicate WorldOk(w: World) {
    ClusterOk(w.cluster) && FilesOk(w)
  }

  predicate Remembers(w: World, id: Id, seen: Intent) {
    id in w.intents && seen.amount == w.intents[id].amount && seen.wallet == w.intents[id].wallet
  }

  predicate Resolved(w: World, id: Id) {
    id in w.intents && w.intents[id].status != PENDING
  }

  ghost predicate TaskOk(w: World, t: Task) {
    match t.stage
    case ReadWallet(seen, _) => Remembers(w, t.id, seen)
    case OpenAccount(seen, _) => Remembers(w, t.id, seen)
    case PostDeposit(seen, ledger) => Remembers(w, t.id, seen) && AccountsOpen(w.cluster, ledger, seen.wallet)
    case CloseSucceeded => IsCredited(w, t.id)
    case LookUpEntry(seen) => Remembers(w, t.id, seen) && Resolved(w, t.id)
    case BeginRefund(seen) => Remembers(w, t.id, seen) && Resolved(w, t.id)
    case SendRefund(seen) => Remembers(w, t.id, seen) && Returning(w.intents[t.id].status)
    case CloseRefunded => t.id in w.intents && Refunded(w, t.id) > 0
    case _ => true
  }

  ghost predicate ConfigOk(c: Config) {
    && WorldOk(c.world)
    && (forall k :: 0 <= k < |c.tasks| ==> TaskOk(c.world, c.tasks[k]))
  }

  // ---- What any step may do to the world

  predicate Edge(s: Status, s': Status) {
    || (s == PENDING && (s' == FAILED || s' == SUCCESS))
    || (s == FAILED && (s' == SUCCESS || s' == REFUNDING))
    || (s == REFUNDING && s' == REFUNDED)
  }

  ghost predicate RowsEvolve(w: World, w': World) {
    && (forall id :: id in w.intents ==>
          && id in w'.intents
          && w'.intents[id].wallet == w.intents[id].wallet && w'.intents[id].amount == w.intents[id].amount
          && (w'.intents[id].status == w.intents[id].status || Edge(w.intents[id].status, w'.intents[id].status)))
    && (forall id :: Refunded(w, id) <= Refunded(w', id))
  }

  ghost predicate Evolves(w: World, w': World) {
    Extends(w.cluster, w'.cluster) && RowsEvolve(w, w')
  }

  lemma TaskOkLasts(w: World, w': World, t: Task)
    requires TaskOk(w, t) && Evolves(w, w')
    ensures TaskOk(w', t)
  {
  }

  /** A step from `w` that leaves the task at `stage` keeps the invariant. */
  ghost predicate Good(w: World, w': World, id: Id, stage: Stage) {
    WorldOk(w') && Evolves(w, w') && TaskOk(w', Task(id, stage))
  }

  lemma SameLedger(w: World, w': World, id: Id, stage: Stage)
    requires WorldOk(w) && w'.cluster == w.cluster && FilesOk(w') && RowsEvolve(w, w') && TaskOk(w', Task(id, stage))
    ensures Good(w, w', id, stage)
  {
    hide FilesOk, RowsEvolve, ClusterOk;
  }

  // ---- The three books, changed one row at a time

  /** Only one intent's file changes, and it stays in order. */
  lemma OneFileChanges(w: World, w': World, id: Id)
    requires FilesOk(w) && id in w.intents && w'.intents.Keys == w.intents.Keys
    requires w'.charged.Keys <= w.intents.Keys && w'.refunded.Keys <= w.intents.Keys
      && w'.receipts.Keys <= w.intents.Keys
    requires forall j :: j in w.intents && j != id ==> FileOf(w', j) == FileOf(w, j)
    requires FileOk(id, FileOf(w', id))
    ensures FilesOk(w')
  {
  }

  lemma RowsStay(w: World, w1: World, w': World)
    requires RowsEvolve(w, w1) && w'.intents == w1.intents && w'.refunded == w1.refunded
    ensures RowsEvolve(w, w')
  {
  }

  lemma RowsReflexive(w: World)
    ensures RowsEvolve(w, w)
  {
  }

  lemma MoveRows(w: World, id: Id, from: set<Status>, to: Status)
    requires forall s :: s in from ==> s == to || Edge(s, to)
    ensures RowsEvolve(w, MoveIntent(w, id, from, to).0)
  {
  }

  lemma MoveFile(w: World, id: Id, from: set<Status>, to: Status)
    requires FilesOk(w) && MoveIntent(w, id, from, to).1
    requires SUCCESS !in from && forall s :: s in from ==> s == to || Edge(s, to)
    requires to == SUCCESS ==> IsCredited(w, id)
    requires to == REFUNDED ==> Refunded(w, id) > 0
    ensures FileOk(id, FileOf(MoveIntent(w, id, from, to).0, id))
  {
    assert FileOk(id, FileOf(w, id));
  }

  lemma MoveFiles(w: World, id: Id, from: set<Status>, to: Status)
    requires FilesOk(w)
    requires SUCCESS !in from && forall s :: s in from ==> s == to || Edge(s, to)
    requires to == SUCCESS ==> IsCredited(w, id)
    requires to == REFUNDED ==> Refunded(w, id) > 0
    ensures FilesOk(MoveIntent(w, id, from, to).0)
  {
    if MoveIntent(w, id, from, to).1 {
      MoveFile(w, id, from, to);
      OneFileChanges(w, MoveIntent(w, id, from, to).0, id);
    }
  }

  lemma ReceiptFiles(w: World, id: Id)
    requires FilesOk(w) && id in w.intents && w.intents[id].status == SUCCESS && Receipts(w, id) == 0
    ensures FilesOk(w.(receipts := w.receipts[id := 1]))
  {
    assert FileOk(id, FileOf(w, id));
    OneFileChanges(w, w.(receipts := w.receipts[id := 1]), id);
  }

  lemma RefundFile(w: World, id: Id, amount: nat)
    requires FilesOk(w) && id in w.intents && amount == w.intents[id].amount && Returning(w.intents[id].status)
    requires IssueRefund(w, id, amount).1
    ensures FileOk(id, FileOf(IssueRefund(w, id, amount).0, id))
  {
    assert FileOk(id, FileOf(w, id));
  }

  lemma RefundFiles(w: World, id: Id, amount: nat)
    requires FilesOk(w) && id in w.intents && amount == w.intents[id].amount && Returning(w.intents[id].status)
    ensures FilesOk(IssueRefund(w, id, amount).0)
  {
    if IssueRefund(w, id, amount).1 {
      RefundFile(w, id, amount);
      OneFileChanges(w, IssueRefund(w, id, amount).0, id);
    }
  }

  lemma RefundRows(w: World, id: Id, amount: nat)
    ensures RowsEvolve(w, IssueRefund(w, id, amount).0)
  {
  }

  /** The ledger may grow on its own, as long as what it posts honours its intent. */
  lemma ClusterGrows(w: World, cluster: Cluster)
    requires FilesOk(w) && Extends(w.cluster, cluster)
    requires forall id :: id in w.intents && Find(cluster.log, id).Some? && Find(w.cluster.log, id).None? ==>
                            Honours(Find(cluster.log, id).value, id, w.intents[id])
    ensures FilesOk(w.(cluster := cluster))
  {
    var w' := w.(cluster := cluster);
    forall id | id in w'.intents
      ensures FileOk(id, FileOf(w', id))
    {
      assert FileOk(id, FileOf(w, id));
    }
  }

  // ---- Each call keeps the invariant

  lemma OpenAccountGood(w: World, id: Id, seen: Intent, ledger: nat, a: Answer)
    requires WorldOk(w) && Remembers(w, id, seen)
    ensures var (w', s') := DoOpenAccount(w, seen, ledger, a); Good(w, w', id, s')
  {
    EnsureAccountsKeeps(w.cluster, ledger, seen.wallet, a.delivery);
    ClusterGrows(w, DoOpenAccount(w, seen, ledger, a).0.cluster);
  }

  lemma PostDepositGrows(w: World, id: Id, seen: Intent, ledger: nat, weather: Weather)
    requires WorldOk(w) && Remembers(w, id, seen) && AccountsOpen(w.cluster, ledger, seen.wallet)
    ensures var cluster := Submit(w.cluster, EntryFor(id, seen, ledger), Rejected, weather).0;
            ClusterOk(cluster) && Extends(w.cluster, cluster) && FilesOk(w.(cluster := cluster))
  {
    assert FileOk(id, FileOf(w, id));
    var t := EntryFor(id, seen, ledger);
    SubmitKeeps(w.cluster, t, Rejected, weather);
    forall j {
      SubmittedEntries(w.cluster, t, Rejected, weather, j);
    }
    ClusterGrows(w, Submit(w.cluster, t, Rejected, weather).0);
  }

  lemma PostDepositGood(w: World, id: Id, seen: Intent, ledger: nat, a: Answer)
    requires WorldOk(w) && Remembers(w, id, seen) && AccountsOpen(w.cluster, ledger, seen.wallet)
    ensures var (w', s') := DoPostDeposit(w, id, seen, ledger, a); Good(w, w', id, s')
  {
    hide FilesOk, ClusterOk;
    var weather := PostWeather(a);
    PostDepositGrows(w, id, seen, ledger, weather);
    RowsStay(w, w, DoPostDeposit(w, id, seen, ledger, a).0);
    SubmittedEntries(w.cluster, EntryFor(id, seen, ledger), Rejected, weather, id);
  }

  lemma OutcomeGood(w: World, moved: World, a: Answer, id: Id, stage: Stage)
    requires WorldOk(w) && moved.cluster == w.cluster && FilesOk(moved) && RowsEvolve(w, moved)
    requires TaskOk(Outcome(w, moved, a), Task(id, stage))
    ensures Good(w, Outcome(w, moved, a), id, stage)
  {
    hide FilesOk, RowsEvolve, ClusterOk;
    if a.delivery == LostBefore {
      RowsReflexive(w);
      SameLedger(w, w, id, stage);
    } else {
      SameLedger(w, moved, id, stage);
    }
  }

  /** The update that is heard to succeed also counts a receipt. */
  function WithReceipt(w: World, id: Id): World {
    w.(receipts := w.receipts[id := Receipts(w, id) + 1])
  }

  lemma CloseSucceededCases(w: World, id: Id, a: Answer)
    ensures var (w1, moved) := MarkSucceeded(w, id);
            DoCloseSucceeded(w, id, a).0 == if moved && Heard(a) then WithReceipt(w1, id) else Outcome(w, w1, a)
  {
  }

  lemma SucceededFiles(w: World, id: Id)
    requires FilesOk(w) && IsCredited(w, id) && MarkSucceeded(w, id).1
    ensures FilesOk(WithReceipt(MarkSucceeded(w, id).0, id))
  {
    MoveFiles(w, id, {PENDING, FAILED}, SUCCESS);
    assert FileOk(id, FileOf(w, id));
    assert Receipts(MarkSucceeded(w, id).0, id) == Receipts(w, id);
    ReceiptFiles(MarkSucceeded(w, id).0, id);
  }

  lemma CloseSucceededGood(w: World, id: Id, a: Answer)
    requires WorldOk(w) && IsCredited(w, id)
    ensures var (w', s') := DoCloseSucceeded(w, id, a); Good(w, w', id, s')
  {
    hide FilesOk, RowsEvolve, ClusterOk;
    CloseSucceededCases(w, id, a);
    MoveRows(w, id, {PENDING, FAILED}, SUCCESS);
    MoveFiles(w, id, {PENDING, FAILED}, SUCCESS);
    var (w1, moved) := MarkSucceeded(w, id);
    if moved && Heard(a) {
      SucceededFiles(w, id);
      RowsStay(w, w1, WithReceipt(w1, id));
      SameLedger(w, WithReceipt(w1, id), id, Finished(Ok));
    } else {
      OutcomeGood(w, w1, a, id, DoCloseSucceeded(w, id, a).1);
    }
  }

  lemma BeginRefundGood(w: World, id: Id, seen: Intent, a: Answer)
    requires WorldOk(w) && Remembers(w, id, seen) && Resolved(w, id)
    ensures var (w', s') := DoBeginRefund(w, id, seen, a); Good(w, w', id, s')
  {
    hide FilesOk, RowsEvolve, ClusterOk;
    MoveRows(w, id, {FAILED, REFUNDING}, REFUNDING);
    MoveFiles(w, id, {FAILED, REFUNDING}, REFUNDING);
    OutcomeGood(w, MarkRefunding(w, id).0, a, id, DoBeginRefund(w, id, seen, a).1);
  }

  lemma SendRefundGood(w: World, id: Id, seen: Intent, a: Answer)
    requires WorldOk(w) && Remembers(w, id, seen) && Returning(w.intents[id].status)
    ensures var (w', s') := DoSendRefund(w, id, seen, a); Good(w, w', id, s')
  {
    assert FileOk(id, FileOf(w, id));
    RefundFiles(w, id, seen.amount);
    RefundRows(w, id, seen.amount);
    OutcomeGood(w, IssueRefund(w, id, seen.amount).0, a, id, DoSendRefund(w, id, seen, a).1);
  }

  lemma CloseRefundedGood(w: World, id: Id, a: Answer)
    requires WorldOk(w) && Refunded(w, id) > 0
    ensures var (w', s') := DoCloseRefunded(w, id, a); Good(w, w', id, s')
  {
    hide FilesOk, RowsEvolve, ClusterOk;
    MoveRows(w, id, {REFUNDING}, REFUNDED);
    MoveFiles(w, id, {REFUNDING}, REFUNDED);
    OutcomeGood(w, MarkRefunded(w, id).0, a, id, DoCloseRefunded(w, id, a).1);
  }

  lemma CloseFailedGood(w: World, id: Id, a: Answer)
    requires WorldOk(w)
    ensures var (w', s') := DoCloseFailed(w, id, a); Good(w, w', id, s')
  {
    hide FilesOk, RowsEvolve, ClusterOk;
    MoveRows(w, id, {PENDING}, FAILED);
    MoveFiles(w, id, {PENDING}, FAILED);
    OutcomeGood(w, MarkFailed(w, id).0, a, id, DoCloseFailed(w, id, a).1);
  }

  lemma StageAfterReading(w: World, t: Task, a: Answer)
    requires TaskOk(w, t)
    ensures t.stage.PollIntent? ==> TaskOk(w, Task(t.id, AfterPoll(w, t.id, a)))
    ensures t.stage.AskProvider? ==> TaskOk(w, Task(t.id, AfterVerdict(a)))
    ensures t.stage.ReadIntent? ==> TaskOk(w, Task(t.id, AfterIntent(w, t.id, t.stage.amount, t.stage.currency, a)))
    ensures t.stage.ReadWallet? ==> TaskOk(w, Task(t.id, AfterWallet(w, t.id, t.stage.seen, t.stage.currency, a)))
    ensures t.stage.LookUpEntry? ==> TaskOk(w, Task(t.id, AfterLookup(w, t.id, t.stage.seen, a)))
  {
  }

  lemma StepIsGood(w: World, t: Task, a: Answer)
    requires WorldOk(w) && TaskOk(w, t)
    ensures var (w', s') := Step(w, t, a); Good(w, w', t.id, s')
  {
    match t.stage
    case OpenAccount(seen, ledger) => OpenAccountGood(w, t.id, seen, ledger, a);
    case PostDeposit(seen, ledger) => PostDepositGood(w, t.id, seen, ledger, a);
    case CloseSucceeded => CloseSucceededGood(w, t.id, a);
    case BeginRefund(seen) => BeginRefundGood(w, t.id, seen, a);
    case SendRefund(seen) => SendRefundGood(w, t.id, seen, a);
    case CloseRefunded => CloseRefundedGood(w, t.id, a);
    case CloseFailed => CloseFailedGood(w, t.id, a);
    case _ =>
      StageAfterReading(w, t, a);
      SameLedger(w, w, t.id, Step(w, t, a).1);
  }

  // ---- Each event, and every run

  lemma NewIntentFiles(w: World, id: Id, wallet: Id, amount: Int64)
    requires FilesOk(w) && id !in w.intents && !IsCredited(w, id) && amount >= MIN_DEPOSIT_MINOR
    ensures FilesOk(w.(intents := w.intents[id := Intent(wallet, amount, PENDING)]))
  {
    var w' := w.(intents := w.intents[id := Intent(wallet, amount, PENDING)]);
    forall j | j in w'.intents
      ensures FileOk(j, FileOf(w', j))
    {
      assert j != id ==> FileOk(j, FileOf(w, j)) && FileOf(w', j) == FileOf(w, j);
    }
  }

  lemma ChargeFiles(w: World, id: Id, paid: nat)
    requires FilesOk(w) && id in w.intents && id !in w.charged
    ensures FilesOk(w.(charged := w.charged[id := paid]))
  {
    assert FileOk(id, FileOf(w, id));
    OneFileChanges(w, w.(charged := w.charged[id := paid]), id);
  }

  lemma WalletFiles(w: World, wallet: Id, row: Wallet)
    requires FilesOk(w)
    ensures FilesOk(w.(wallets := w.wallets[wallet := row]))
  {
    forall id | id in w.intents
      ensures FileOk(id, FileOf(w.(wallets := w.wallets[wallet := row]), id))
    {
      assert FileOk(id, FileOf(w, id));
    }
  }

  lemma TrafficFiles(w: World, call: Command, weather: Weather)
    requires WorldOk(w) && forall id :: id in w.intents ==> !PostsUnder(call, id)
    ensures var w' := w.(cluster := Perform(w.cluster, call, weather).0);
            WorldOk(w') && Evolves(w, w')
  {
    hide Perform, ClusterOk, Find, Extends, PostsUnder;
    PerformKeeps(w.cluster, call, weather);
    forall id | id in w.intents {
      PerformPostsUnderItsId(w.cluster, call, weather, id);
    }
    ClusterGrows(w, Perform(w.cluster, call, weather).0);
  }

  lemma WorldAlone(w: World, w': World)
    requires WorldOk(w) && w'.cluster == w.cluster && w'.refunded == w.refunded && FilesOk(w')
    requires forall id :: id in w.intents ==> id in w'.intents && w'.intents[id] == w.intents[id]
    ensures WorldOk(w') && Evolves(w, w')
  {
    hide FilesOk, ClusterOk;
  }

  lemma EventWorld(c: Config, e: Event)
    requires ConfigOk(c)
    ensures WorldOk(Exec(c, e).world) && Evolves(c.world, Exec(c, e).world)
  {
    hide ClusterOk, FilesOk, Step;
    var w := c.world;
    if Enabled(c, e) {
      match e
      case Deliver(k, a) => StepIsGood(w, c.tasks[k], a);
      case NewIntent(id, wallet, amount) =>
        NewIntentFiles(w, id, wallet, amount);
        WorldAlone(w, Exec(c, e).world);
      case CustomerPays(id, paid) =>
        ChargeFiles(w, id, paid);
        WorldAlone(w, Exec(c, e).world);
      case WalletChanges(wallet, row) =>
        WalletFiles(w, wallet, row);
        WorldAlone(w, Exec(c, e).world);
      case OtherTraffic(call, weather) => TrafficFiles(w, call, weather);
      case _ => WorldAlone(w, w);
    } else {
      WorldAlone(w, w);
    }
  }

  lemma ExecKeeps(c: Config, e: Event)
    requires ConfigOk(c)
    ensures ConfigOk(Exec(c, e))
  {
    EventWorld(c, e);
    var c' := Exec(c, e);
    forall k | 0 <= k < |c'.tasks|
      ensures TaskOk(c'.world, c'.tasks[k])
    {
      if Enabled(c, e) && e.Deliver? && k == e.k {
        StepIsGood(c.world, c.tasks[k], e.answer);
      } else if k < |c.tasks| {
        TaskOkLasts(c.world, c'.world, c.tasks[k]);
      }
    }
  }

  lemma {:induction false} RunKeeps(c: Config, events: seq<Event>)
    requires ConfigOk(c)
    ensures ConfigOk(Run(c, events))
    decreases |events|
  {
    if events != [] {
      ExecKeeps(c, events[0]);
      RunKeeps(Exec(c, events[0]), events[1..]);
    }
  }
}
