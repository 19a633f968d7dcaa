/** The deposit saga as a step machine: any number of payment tasks, each somewhere between two
    calls to Postgres, TigerBeetle or the provider, over one shared world. */
module DepositMachine {
  import opened Common
  import opened LedgerModel

  datatype Intent = Intent(wallet: Id, amount: Int64, status: Status)

  /** `charged` and `refunded` are the provider's books; `receipts` counts success notifications. */
  datatype World = World(
    intents: map<Id, Intent>,
    wallets: map<Id, Wallet>,
    cluster: Cluster,
    charged: map<Id, nat>,
    refunded: map<Id, nat>,
    receipts: map<Id, nat>
  )

  const MIN_DEPOSIT_MINOR := 100
  const MAX_DEPOSIT_MINOR := 1_000_000_00

  function Charged(w: World, id: Id): nat { if id in w.charged then w.charged[id] else 0 }

  function Refunded(w: World, id: Id): nat { if id in w.refunded then w.refunded[id] else 0 }

  function Receipts(w: World, id: Id): nat { if id in w.receipts then w.receipts[id] else 0 }

  predicate IsCredited(w: World, id: Id) { Find(w.cluster.log, id).Some? }

  // ---- The repository's guarded updates

  /** UPDATE ... SET status = to WHERE id = ? AND status IN from. The flag is RowsAffected > 0. */
  function MoveIntent(w: World, id: Id, from: set<Status>, to: Status): (World, bool) {
    if id in w.intents && w.intents[id].status in from then
      (w.(intents := w.intents[id := w.intents[id].(status := to)]), true)
    else (w, false)
  }

  function MarkFailed(w: World, id: Id): (World, bool) { MoveIntent(w, id, {PENDING}, FAILED) }

  function MarkSucceeded(w: World, id: Id): (World, bool) { MoveIntent(w, id, {PENDING, FAILED}, SUCCESS) }

  function MarkRefunding(w: World, id: Id): (World, bool) { MoveIntent(w, id, {FAILED, REFUNDING}, REFUNDING) }

  function MarkRefunded(w: World, id: Id): (World, bool) { MoveIntent(w, id, {REFUNDING}, REFUNDED) }

  /** The provider refuses to refund more than was charged. */
  function IssueRefund(w: World, id: Id, amount: nat): (World, bool) {
    if Refunded(w, id) + amount <= Charged(w, id) then
      (w.(refunded := w.refunded[id := Refunded(w, id) + amount]), true)
    else (w, false)
  }

  // ---- A task between two calls

  /** Where a task stands; `seen` is the intent as the task read it. */
  datatype Stage =
    | PollIntent
    | AskProvider
    | ReadIntent(amount: Int64, currency: string)
    | ReadWallet(seen: Intent, currency: string)
    | OpenAccount(seen: Intent, ledger: nat)
    | PostDeposit(seen: Intent, ledger: nat)
    | CloseSucceeded
    | LookUpEntry(seen: Intent)
    | BeginRefund(seen: Intent)
    | SendRefund(seen: Intent)
    | CloseRefunded
    | CloseFailed
    | Finished(error: TaskError)

  datatype Task = Task(id: Id, stage: Stage)

  datatype PaymentStatus = PaymentSuccess | PaymentFailed | PaymentAbandoned | PaymentPending

  /** What the provider says of a reference when asked. */
  datatype Verdict = Verdict(known: bool, status: PaymentStatus, amount: Int64, currency: string)

  /** How the outside world answers one call. */
  datatype Answer = Answer(delivery: Delivery, verdict: Verdict, refused: bool, clock: nat)

  predicate Heard(a: Answer) { a.delivery == Replied }

  function Outcome(before: World, after: World, a: Answer): World {
    if a.delivery == LostBefore then before else after
  }

  /** A read whose reply is lost ends the attempt, to be retried. */
  function AfterPoll(w: World, id: Id, a: Answer): Stage {
    if !Heard(a) then Finished(Transient)
    else if id !in w.intents then Finished(SkipRetry)
    else if w.intents[id].status != PENDING then Finished(Ok)
    else AskProvider
  }

  function AfterVerdict(a: Answer): Stage {
    if !Heard(a) then Finished(Transient)
    else if !a.verdict.known then Finished(RetryLater)
    else
      match a.verdict.status
      case PaymentSuccess => ReadIntent(a.verdict.amount, a.verdict.currency)
      case PaymentFailed => CloseFailed
      case PaymentAbandoned => Finished(RetryLater)
      case PaymentPending => Finished(RetryLater)
  }

  function AfterIntent(w: World, id: Id, amount: Int64, currency: string, a: Answer): Stage {
    if !Heard(a) then Finished(Transient)
    else if id !in w.intents then Finished(SkipRetry)
    else
      var intent := w.intents[id];
      match intent.status
      case PENDING => if amount != intent.amount then Finished(SkipRetry) else ReadWallet(intent, currency)
      case FAILED => LookUpEntry(intent)
      case REFUNDING => BeginRefund(intent)
      case SUCCESS => Finished(Ok)
      case REFUNDED => Finished(Ok)
  }

  function AfterWallet(w: World, id: Id, seen: Intent, currency: string, a: Answer): Stage {
    if !Heard(a) then Finished(Transient)
    else if seen.wallet !in w.wallets then Finished(SkipRetry)
    else
      var wallet := w.wallets[seen.wallet];
      if currency != "" && !EqualFold(currency, wallet.currency) then Finished(SkipRetry)
      else if !wallet.active then Finished(SkipRetry)
      else
        // the argument guards of the ledger's Deposit
        match DepositRequest(DepositParam(id, seen.wallet, wallet.currency, seen.amount))
        case None => Finished(SkipRetry)
        case Some(t) => OpenAccount(seen, t.ledger)
  }

  function LedgerFailure(e: LedgerError): TaskError {
    if e == Rejected then SkipRetry else Transient
  }

  function DoOpenAccount(w: World, seen: Intent, ledger: nat, a: Answer): (World, Stage) {
    var (cluster, e) := EnsureAccounts(w.cluster, ledger, seen.wallet, a.delivery);
    (w.(cluster := cluster), if e == NoError then PostDeposit(seen, ledger) else Finished(LedgerFailure(e)))
  }

  function EntryFor(id: Id, seen: Intent, ledger: nat): Transfer {
    DepositEntry(id, seen.wallet, ledger, Units(seen.amount))
  }

  function PostWeather(a: Answer): Weather { Weather(Replied, Replied, a.delivery, a.refused, a.clock) }

  function DoPostDeposit(w: World, id: Id, seen: Intent, ledger: nat, a: Answer): (World, Stage) {
    var (cluster, e) := Submit(w.cluster, EntryFor(id, seen, ledger), Rejected, PostWeather(a));
    (w.(cluster := cluster), if e == NoError then CloseSucceeded else Finished(LedgerFailure(e)))
  }

  /** Only a task that hears its own update succeed sends the receipt. */
  function DoCloseSucceeded(w: World, id: Id, a: Answer): (World, Stage) {
    var (w', moved) := MarkSucceeded(w, id);
    var settled := Outcome(w, w', a);
    if !Heard(a) then (settled, Finished(Transient))
    else if !moved then (settled, Finished(Ok))
    else (settled.(receipts := settled.receipts[id := Receipts(settled, id) + 1]), Finished(Ok))
  }

  function AfterLookup(w: World, id: Id, seen: Intent, a: Answer): Stage {
    if !Heard(a) then Finished(Transient)
    else if IsCredited(w, id) then CloseSucceeded
    else BeginRefund(seen)
  }

  function DoBeginRefund(w: World, id: Id, seen: Intent, a: Answer): (World, Stage) {
    var (w', moved) := MarkRefunding(w, id);
    (Outcome(w, w', a), if !Heard(a) then Finished(Transient) else if moved then SendRefund(seen) else Finished(Ok))
  }

  function DoSendRefund(w: World, id: Id, seen: Intent, a: Answer): (World, Stage) {
    var (w', accepted) := IssueRefund(w, id, Units(seen.amount));
    (Outcome(w, w', a), if Heard(a) && accepted then CloseRefunded else Finished(Transient))
  }

  function DoCloseRefunded(w: World, id: Id, a: Answer): (World, Stage) {
    var (w', _) := MarkRefunded(w, id);
    (Outcome(w, w', a), if Heard(a) then Finished(Ok) else Finished(Transient))
  }

  function DoCloseFailed(w: World, id: Id, a: Answer): (World, Stage) {
    var (w', _) := MarkFailed(w, id);
    (Outcome(w, w', a), if Heard(a) then Finished(Ok) else Finished(Transient))
  }

  /** The task makes its next call and moves on with the answer. */
  function Step(w: World, t: Task, a: Answer): (World, Stage) {
    match t.stage
    case PollIntent => (w, AfterPoll(w, t.id, a))
    case AskProvider => (w, AfterVerdict(a))
    case ReadIntent(amount, currency) => (w, AfterIntent(w, t.id, amount, currency, a))
    case ReadWallet(seen, currency) => (w, AfterWallet(w, t.id, seen, currency, a))
    case OpenAccount(seen, ledger) => DoOpenAccount(w, seen, ledger, a)
    case PostDeposit(seen, ledger) => DoPostDeposit(w, t.id, seen, ledger, a)
    case CloseSucceeded => DoCloseSucceeded(w, t.id, a)
    case LookUpEntry(seen) => (w, AfterLookup(w, t.id, seen, a))
    case BeginRefund(seen) => DoBeginRefund(w, t.id, seen, a)
    case SendRefund(seen) => DoSendRefund(w, t.id, seen, a)
    case CloseRefunded => DoCloseRefunded(w, t.id, a)
    case CloseFailed => DoCloseFailed(w, t.id, a)
    case Finished(_) => (w, t.stage)
  }

  // ---- One task running alone

  /** How many calls a task has ahead of it, at most. */
  function Ahead(stage: Stage): nat {
    match stage
    case PollIntent => 7
    case AskProvider => 6
    case ReadIntent(_, _) => 5
    case ReadWallet(_, _) => 4
    case LookUpEntry(_) => 4
    case OpenAccount(_, _) => 3
    case BeginRefund(_) => 3
    case PostDeposit(_, _) => 2
    case SendRefund(_) => 2
    case CloseSucceeded => 1
    case CloseRefunded => 1
    case CloseFailed => 1
    case Finished(_) => 0
  }

  lemma StepAdvances(w: World, t: Task, a: Answer)
    ensures t.stage.Finished? || Ahead(Step(w, t, a).1) < Ahead(t.stage)
  {
  }

  /** The calls a task makes, by call site. */
  datatype Call =
    | GetIntentForPoll | VerifyPayment | GetIntent | GetWallet | CreateAccounts | PostTransfer
    | UpdateSucceeded | LookupTransfers | UpdateRefunding | RefundPayment | UpdateRefunded | UpdateFailed

  function CallOf(stage: Stage): Call
    requires !stage.Finished?
  {
    match stage
    case PollIntent => GetIntentForPoll
    case AskProvider => VerifyPayment
    case ReadIntent(_, _) => GetIntent
    case ReadWallet(_, _) => GetWallet
    case OpenAccount(_, _) => CreateAccounts
    case PostDeposit(_, _) => PostTransfer
    case CloseSucceeded => UpdateSucceeded
    case LookUpEntry(_) => LookupTransfers
    case BeginRefund(_) => UpdateRefunding
    case SendRefund(_) => RefundPayment
    case CloseRefunded => UpdateRefunded
    case CloseFailed => UpdateFailed
  }

  /** One attempt, uninterrupted: the world it leaves and the error it returns. */
  function RunAlone(w: World, t: Task, answers: Call -> Answer): (World, TaskError)
    decreases Ahead(t.stage)
  {
    if t.stage.Finished? then (w, t.stage.error)
    else
      StepAdvances(w, t, answers(CallOf(t.stage)));
      var (w', stage) := Step(w, t, answers(CallOf(t.stage)));
      RunAlone(w', t.(stage := stage), answers)
  }

  /** One call of an attempt running alone. */
  lemma Onward(w: World, t: Task, answers: Call -> Answer)
    requires !t.stage.Finished?
    ensures var (w', s') := Step(w, t, answers(CallOf(t.stage)));
            RunAlone(w, t, answers) == RunAlone(w', Task(t.id, s'), answers)
  {
    hide Step;
  }

  lemma Over(w: World, id: Id, e: TaskError, answers: Call -> Answer)
    ensures RunAlone(w, Task(id, Finished(e)), answers) == (w, e)
  {
  }

  // ---- Every interleaving

  datatype Config = Config(world: World, tasks: seq<Task>)

  datatype Event =
    | Deliver(k: nat, answer: Answer)       // task k's next call is answered
    | Crash(k: nat)                         // task k's process dies
    | Start(id: Id, stage: Stage)           // a webhook, a poll, an exhausted poll, a checkout that would not start
    | NewIntent(id: Id, wallet: Id, amount: Int64)
    | CustomerPays(id: Id, paid: nat)
    | WalletChanges(wallet: Id, row: Wallet)
    | OtherTraffic(call: Command, weather: Weather)

  /** Where a task may begin: HandlePaymentPoll, settle, and fail. */
  predicate IsEntry(stage: Stage) {
    stage.PollIntent? || stage.ReadIntent? || stage.CloseFailed?
  }

  predicate Enabled(c: Config, e: Event) {
    match e
    case Deliver(k, _) => k < |c.tasks|
    case Crash(k) => k < |c.tasks|
    case Start(_, stage) => IsEntry(stage)
    // a fresh uuid, and an amount InitializeDeposit lets through
    case NewIntent(id, _, amount) =>
      id !in c.world.intents && !IsCredited(c.world, id) && MIN_DEPOSIT_MINOR <= amount <= MAX_DEPOSIT_MINOR
    // a reference is charged once
    case CustomerPays(id, _) => id in c.world.intents && id !in c.world.charged
    case WalletChanges(_, _) => true
    // anything else on the ledger posts under ids of its own
    case OtherTraffic(call, _) => forall id :: id in c.world.intents ==> !PostsUnder(call, id)
  }

  function Exec(c: Config, e: Event): Config {
    if !Enabled(c, e) then c
    else
      var w := c.world;
      match e
      case Deliver(k, a) =>
        var (w', stage) := Step(w, c.tasks[k], a);
        Config(w', c.tasks[k := c.tasks[k].(stage := stage)])
      case Crash(k) => c.(tasks := c.tasks[k := c.tasks[k].(stage := Finished(Transient))])
      case Start(id, stage) => c.(tasks := c.tasks + [Task(id, stage)])
      case NewIntent(id, wallet, amount) =>
        c.(world := w.(intents := w.intents[id := Intent(wallet, amount, PENDING)]))
      case CustomerPays(id, paid) => c.(world := w.(charged := w.charged[id := paid]))
      case WalletChanges(wallet, row) => c.(world := w.(wallets := w.wallets[wallet := row]))
      case OtherTraffic(call, weather) => c.(world := w.(cluster := Perform(w.cluster, call, weather).0))
  }

  function Run(c: Config, events: seq<Event>): Config
    decreases |events|
  {
    if events == [] then c else Run(Exec(c, events[0]), events[1..])
  }

  /** No intents and no tasks yet; the ledger and the wallets may already be in use. */
  ghost predicate Initial(c: Config) {
    && ClusterOk(c.world.cluster)
    && c.world.intents == map[] && c.world.charged == map[] && c.world.refunded == map[] && c.world.receipts == map[]
    && c.tasks == []
  }
}
