/** The transfer saga as a step machine: execute tasks and exhaustion hooks, each somewhere between two
    calls, over one shared world. */
module TransferMachine {
  import opened Common
  import opened LedgerModel

  datatype TransferRow = TransferRow(sender: Id, recipient: Id, amount: Int64, status: Status, reason: string)

  datatype World = World(transfers: map<Id, TransferRow>, wallets: map<Id, Wallet>, cluster: Cluster)

  const INSUFFICIENT := "Insufficient funds"
  const REJECTED := "Rejected by the ledger"
  const INACTIVE := "An account involved is not active"
  const CROSS := "Cross-currency transfers are not supported"
  const EXHAUSTED := "The transfer could not be completed"

  predicate HasMoved(w: World, id: Id) { Find(w.cluster.log, id).Some? }

  /** UPDATE ... SET status, failure_reason WHERE id = ? AND status = PENDING. */
  function MarkTransfer(w: World, id: Id, status: Status, reason: string): (World, bool) {
    if id in w.transfers && w.transfers[id].status == PENDING then
      (w.(transfers := w.transfers[id := w.transfers[id].(status := status, reason := reason)]), true)
    else (w, false)
  }

  /** Where a task stands; `seen`, `sender` and `recipient` are the rows as the task read them. */
  datatype Stage =
    | ReadTransfer
    | ReadSender(seen: TransferRow)
    | ReadRecipient(seen: TransferRow, sender: Wallet)
    | OpenSender(seen: TransferRow, ledger: nat)
    | OpenRecipient(seen: TransferRow, ledger: nat)
    | PostTransfer(seen: TransferRow, ledger: nat)
    | CloseSucceeded
    | CloseFailed(reason: string, after: TaskError)
    | ReadExhausted
    | LookUpEntry
    | Finished(error: TaskError)

  datatype Task = Task(id: Id, stage: Stage)

  datatype Answer = Answer(delivery: Delivery, refused: bool, clock: nat)

  predicate Heard(a: Answer) { a.delivery == Replied }

  function AfterTransfer(w: World, id: Id, a: Answer): Stage {
    if !Heard(a) then Finished(Transient)
    else if id !in w.transfers then Finished(SkipRetry)
    else if w.transfers[id].status != PENDING then Finished(Ok)
    else ReadSender(w.transfers[id])
  }

  function AfterSender(w: World, seen: TransferRow, a: Answer): Stage {
    if !Heard(a) then Finished(Transient)
    else if seen.sender !in w.wallets then Finished(SkipRetry)
    else ReadRecipient(seen, w.wallets[seen.sender])
  }

  function ParamFor(id: Id, seen: TransferRow, sender: Wallet, recipient: Wallet): TransferParam {
    TransferParam(id, seen.sender, seen.recipient, sender.currency, recipient.currency, seen.amount)
  }

  /** The wallet guards of loadWallets, then the argument guards of the ledger's Transfer. No
      lookup precedes a failure here. */
  function AfterWallets(id: Id, seen: TransferRow, sender: Wallet, recipient: Wallet): Stage {
    if !sender.active || !recipient.active then CloseFailed(INACTIVE, Ok)
    else if !EqualFold(sender.currency, recipient.currency) then CloseFailed(CROSS, Ok)
    else
      match TransferRequest(ParamFor(id, seen, sender, recipient)).1
      case None => CloseFailed(REJECTED, SkipRetry)
      case Some(t) => OpenSender(seen, t.ledger)
  }

  function AfterRecipient(w: World, id: Id, seen: TransferRow, sender: Wallet, a: Answer): Stage {
    if !Heard(a) then Finished(Transient)
    else if seen.recipient !in w.wallets then Finished(SkipRetry)
    else AfterWallets(id, seen, sender, w.wallets[seen.recipient])
  }

  /** What the task makes of an error of the ledger's. */
  function AfterLedger(e: LedgerError, next: Stage): Stage {
    match e
    case NoError => next
    case InsufficientFunds => CloseFailed(INSUFFICIENT, Ok)
    case Rejected => CloseFailed(REJECTED, SkipRetry)
    case CrossCurrency => CloseFailed(REJECTED, SkipRetry)
    case Unavailable => Finished(Transient)
  }

  function DoOpenSender(w: World, seen: TransferRow, ledger: nat, a: Answer): (World, Stage) {
    var (cluster, e) := EnsureAccounts(w.cluster, ledger, seen.sender, a.delivery);
    (w.(cluster := cluster), AfterLedger(e, OpenRecipient(seen, ledger)))
  }

  function DoOpenRecipient(w: World, seen: TransferRow, ledger: nat, a: Answer): (World, Stage) {
    var (cluster, e) := EnsureAccounts(w.cluster, ledger, seen.recipient, a.delivery);
    (w.(cluster := cluster), AfterLedger(e, PostTransfer(seen, ledger)))
  }

  function EntryFor(id: Id, seen: TransferRow, ledger: nat): Transfer {
    InternalEntry(id, seen.sender, seen.recipient, ledger, Units(seen.amount))
  }

  function PostWeather(a: Answer): Weather { Weather(Replied, Replied, a.delivery, a.refused, a.clock) }

  function DoPostTransfer(w: World, id: Id, seen: TransferRow, ledger: nat, a: Answer): (World, Stage) {
    var (cluster, e) := Submit(w.cluster, EntryFor(id, seen, ledger), InsufficientFunds, PostWeather(a));
    (w.(cluster := cluster), AfterLedger(e, CloseSucceeded))
  }

  function DoClose(w: World, id: Id, status: Status, reason: string, after: TaskError, a: Answer): (World, Stage) {
    var w' := MarkTransfer(w, id, status, reason).0;
    (if a.delivery == LostBefore then w else w', Finished(if Heard(a) then after else Transient))
  }

  /** The hook returns nothing: whatever stops it, it is over. */
  function AfterExhausted(w: World, id: Id, a: Answer): Stage {
    if !Heard(a) || id !in w.transfers || w.transfers[id].status != PENDING then Finished(Ok) else LookUpEntry
  }

  function AfterLookup(w: World, id: Id, a: Answer): Stage {
    if !Heard(a) then Finished(Ok)
    else if HasMoved(w, id) then CloseSucceeded
    else CloseFailed(EXHAUSTED, Ok)
  }

  function Step(w: World, t: Task, a: Answer): (World, Stage) {
    match t.stage
    case ReadTransfer => (w, AfterTransfer(w, t.id, a))
    case ReadSender(seen) => (w, AfterSender(w, seen, a))
    case ReadRecipient(seen, sender) => (w, AfterRecipient(w, t.id, seen, sender, a))
    case OpenSender(seen, ledger) => DoOpenSender(w, seen, ledger, a)
    case OpenRecipient(seen, ledger) => DoOpenRecipient(w, seen, ledger, a)
    case PostTransfer(seen, ledger) => DoPostTransfer(w, t.id, seen, ledger, a)
    case CloseSucceeded => DoClose(w, t.id, SUCCESS, "", Ok, a)
    case CloseFailed(reason, after) => DoClose(w, t.id, FAILED, reason, after, a)
    case ReadExhausted => (w, AfterExhausted(w, t.id, a))
    case LookUpEntry => (w, AfterLookup(w, t.id, a))
    case Finished(_) => (w, t.stage)
  }

  // ---- One task running alone

  function Ahead(stage: Stage): nat {
    match stage
    case ReadTransfer => 7
    case ReadSender(_) => 6
    case ReadRecipient(_, _) => 5
    case OpenSender(_, _) => 4
    case OpenRecipient(_, _) => 3
    case ReadExhausted => 3
    case PostTransfer(_, _) => 2
    case LookUpEntry => 2
    case CloseSucceeded => 1
    case CloseFailed(_, _) => 1
    case Finished(_) => 0
  }

  lemma StepAdvances(w: World, t: Task, a: Answer)
    ensures t.stage.Finished? || Ahead(Step(w, t, a).1) < Ahead(t.stage)
  {
  }

  /** The calls a task makes, by call site. */
  datatype Call =
    | GetTransfer | GetSender | GetRecipient | CreateSender | CreateRecipient | CreateTransfers
    | UpdateSucceeded | UpdateFailed | GetExhausted | LookupTransfers

  function CallOf(stage: Stage): Call
    requires !stage.Finished?
  {
    match stage
    case ReadTransfer => GetTransfer
    case ReadSender(_) => GetSender
    case ReadRecipient(_, _) => GetRecipient
    case OpenSender(_, _) => CreateSender
    case OpenRecipient(_, _) => CreateRecipient
    case PostTransfer(_, _) => CreateTransfers
    case CloseSucceeded => UpdateSucceeded
    case CloseFailed(_, _) => UpdateFailed
    case ReadExhausted => GetExhausted
    case LookUpEntry => LookupTransfers
  }

  function RunAlone(w: World, t: Task, answers: Call -> Answer): (World, TaskError)
    decreases Ahead(t.stage)
  {
    if t.stage.Finished? then (w, t.stage.error)
    else
      StepAdvances(w, t, answers(CallOf(t.stage)));
      var (w', stage) := Step(w, t, answers(CallOf(t.stage)));
      RunAlone(w', t.(stage := stage), answers)
  }

  /** One call of an attempt running alone. */
  lemma Onward(w: World, t: Task, answers: Call -> Answer)
    requires !t.stage.Finished?
    ensures var (w', s') := Step(w, t, answers(CallOf(t.stage)));
            RunAlone(w, t, answers) == RunAlone(w', Task(t.id, s'), answers)
  {
    hide Step;
  }

  lemma Over(w: World, id: Id, e: TaskError, answers: Call -> Answer)
    ensures RunAlone(w, Task(id, Finished(e)), answers) == (w, e)
  {
  }

  // ---- Every interleaving

  datatype Config = Config(world: World, tasks: seq<Task>)

  datatype Event =
    | Deliver(k: nat, answer: Answer)
    | Crash(k: nat)
    | Start(id: Id, stage: Stage)
    | NewTransfer(id: Id, row: TransferRow)
    | WalletChanges(wallet: Id, attributes: Option<Wallet>)
    | OtherTraffic(call: Command, weather: Weather)

  predicate IsEntry(stage: Stage) { stage.ReadTransfer? || stage.ReadExhausted? }

  predicate Enabled(c: Config, e: Event) {
    match e
    case Deliver(k, _) => k < |c.tasks|
    case Crash(k) => k < |c.tasks|
    case Start(_, stage) => IsEntry(stage)
    // a fresh uuid, and what CreateTransfer writes
    case NewTransfer(id, row) => id !in c.world.transfers && !HasMoved(c.world, id) && row.status == PENDING
    case WalletChanges(_, _) => true
    case OtherTraffic(call, _) => forall id :: id in c.world.transfers ==> !PostsUnder(call, id)
  }

  function Exec(c: Config, e: Event): Config {
    if !Enabled(c, e) then c
    else
      var w := c.world;
      match e
      case Deliver(k, a) =>
        var (w', stage) := Step(w, c.tasks[k], a);
        Config(w', c.tasks[k := c.tasks[k].(stage := stage)])
      case Crash(k) => c.(tasks := c.tasks[k := c.tasks[k].(stage := Finished(Transient))])
      case Start(id, stage) => c.(tasks := c.tasks + [Task(id, stage)])
      case NewTransfer(id, row) => c.(world := w.(transfers := w.transfers[id := row]))
      case WalletChanges(wallet, attributes) =>
        var wallets := match attributes case Some(a) => w.wallets[wallet := a] case None => w.wallets - {wallet};
        c.(world := w.(wallets := wallets))
      case OtherTraffic(call, weather) => c.(world := w.(cluster := Perform(w.cluster, call, weather).0))
  }

  function Run(c: Config, events: seq<Event>): Config
    decreases |events|
  {
    if events == [] then c else Run(Exec(c, events[0]), events[1..])
  }

  ghost predicate Initial(c: Config) {
    ClusterOk(c.world.cluster) && c.world.transfers == map[] && c.tasks == []
  }
}
