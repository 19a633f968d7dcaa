/** What holds of transfers under every interleaving, with any task crashing and any reply lost. */
module TransferSafety {
  import opened Common
  import opened LedgerModel
  import opened LedgerSafety
  import opened TransferMachine

  // ---- The invariant

  /** The entry moves the row's amount from its sender to its recipient. */
  predicate Honours(t: Transfer, id: Id, row: TransferRow) {
    row.amount > 0 && t == InternalEntry(id, row.sender, row.recipient, t.ledger, row.amount)
  }

  predicate FileOk(id: Id, row: TransferRow, entry: Option<Transfer>) {
    && (entry.Some? ==> Honours(entry.value, id, row))
    && (row.status == SUCCESS ==> entry.Some?)
  }

  ghost predicate FilesOk(w: World) {
    forall id :: id in w.transfers ==> FileOk(id, w.transfers[id], Find(w.cluster.log, id))
  }

  ghost predicate WorldOk(w: World) {
    ClusterOk(w.cluster) && FilesOk(w)
  }

  predicate Remembers(w: World, id: Id, seen: TransferRow) {
    && id in w.transfers
    && seen.sender == w.transfers[id].sender && seen.recipient == w.transfers[id].recipient
    && seen.amount == w.transfers[id].amount
  }

  predicate Sendable(seen: TransferRow) {
    seen.amount > 0 && seen.sender != seen.recipient
  }

  predicate TaskOk(w: World, t: Task) {
    match t.stage
    case ReadSender(seen) => Remembers(w, t.id, seen)
    case ReadRecipient(seen, _) => Remembers(w, t.id, seen)
    case OpenSender(seen, ledger) => Remembers(w, t.id, seen) && Sendable(seen) && IsLedger(ledger)
    case OpenRecipient(seen, ledger) =>
      && Remembers(w, t.id, seen) && Sendable(seen) && IsLedger(ledger)
      && AccountsOpen(w.cluster, ledger, seen.sender)
    case PostTransfer(seen, ledger) =>
      && Remembers(w, t.id, seen) && Sendable(seen) && IsLedger(ledger)
      && AccountsOpen(w.cluster, ledger, seen.sender) && AccountsOpen(w.cluster, ledger, seen.recipient)
    case CloseSucceeded => HasMoved(w, t.id)
    case _ => true
  }

  ghost predicate ConfigOk(c: Config) {
    && WorldOk(c.world)
    && (forall k :: 0 <= k < |c.tasks| ==> TaskOk(c.world, c.tasks[k]))
  }

  /** A row changes once: from PENDING to SUCCESS or FAILED. */
  ghost predicate RowsEvolve(w: World, w': World) {
    forall id :: id in w.transfers ==>
      && id in w'.transfers
      && w'.transfers[id].sender == w.transfers[id].sender && w'.transfers[id].recipient == w.transfers[id].recipient
      && w'.transfers[id].amount == w.transfers[id].amount
      && (w.transfers[id].status != PENDING ==> w'.transfers[id] == w.transfers[id])
  }

  ghost predicate Evolves(w: World, w': World) {
    Extends(w.cluster, w'.cluster) && RowsEvolve(w, w')
  }

  lemma TaskOkLasts(w: World, w': World, t: Task)
    requires TaskOk(w, t) && Evolves(w, w')
    ensures TaskOk(w', t)
  {
  }

  ghost predicate Good(w: World, w': World, id: Id, stage: Stage) {
    WorldOk(w') && Evolves(w, w') && TaskOk(w', Task(id, stage))
  }

  // ---- Each call keeps the invariant

  lemma ClusterGrows(w: World, cluster: Cluster)
    requires FilesOk(w) && Extends(w.cluster, cluster)
    requires forall id :: id in w.transfers && Find(cluster.log, id).Some? && Find(w.cluster.log, id).None? ==>
                            Honours(Find(cluster.log, id).value, id, w.transfers[id])
    ensures FilesOk(w.(cluster := cluster))
  {
  }

  lemma RowsReflexive(w: World, w': World)
    requires w'.transfers == w.transfers
    ensures RowsEvolve(w, w')
  {
  }

  lemma OpenSenderGood(w: World, id: Id, seen: TransferRow, ledger: nat, a: Answer)
    requires WorldOk(w) && TaskOk(w, Task(id, OpenSender(seen, ledger)))
    ensures var (w', s') := DoOpenSender(w, seen, ledger, a); Good(w, w', id, s')
  {
    hide FilesOk, ClusterOk, RowsEvolve;
    EnsureAccountsKeeps(w.cluster, ledger, seen.sender, a.delivery);
    var w' := DoOpenSender(w, seen, ledger, a).0;
    ClusterGrows(w, w'.cluster);
    RowsReflexive(w, w');
  }

  lemma OpenRecipientGood(w: World, id: Id, seen: TransferRow, ledger: nat, a: Answer)
    requires WorldOk(w) && TaskOk(w, Task(id, OpenRecipient(seen, ledger)))
    ensures var (w', s') := DoOpenRecipient(w, seen, ledger, a); Good(w, w', id, s')
  {
    hide FilesOk, ClusterOk, RowsEvolve;
    EnsureAccountsKeeps(w.cluster, ledger, seen.recipient, a.delivery);
    var w' := DoOpenRecipient(w, seen, ledger, a).0;
    ClusterGrows(w, w'.cluster);
    RowsReflexive(w, w');
  }

  lemma PostGrows(w: World, id: Id, seen: TransferRow, ledger: nat, weather: Weather)
    requires WorldOk(w) && TaskOk(w, Task(id, PostTransfer(seen, ledger)))
    ensures var cluster := Submit(w.cluster, EntryFor(id, seen, ledger), InsufficientFunds, weather).0;
            ClusterOk(cluster) && Extends(w.cluster, cluster) && FilesOk(w.(cluster := cluster))
  {
    var t := EntryFor(id, seen, ledger);
    SubmitKeeps(w.cluster, t, InsufficientFunds, weather);
    hide ClusterOk, Submit;
    forall j {
      SubmittedEntries(w.cluster, t, InsufficientFunds, weather, j);
    }
    ClusterGrows(w, Submit(w.cluster, t, InsufficientFunds, weather).0);
  }

  lemma PostGood(w: World, id: Id, seen: TransferRow, ledger: nat, a: Answer)
    requires WorldOk(w) && TaskOk(w, Task(id, PostTransfer(seen, ledger)))
    ensures var (w', s') := DoPostTransfer(w, id, seen, ledger, a); Good(w, w', id, s')
  {
    hide FilesOk, ClusterOk, RowsEvolve;
    PostGrows(w, id, seen, ledger, PostWeather(a));
    SubmittedEntries(w.cluster, EntryFor(id, seen, ledger), InsufficientFunds, PostWeather(a), id);
    RowsReflexive(w, DoPostTransfer(w, id, seen, ledger, a).0);
  }

  lemma CloseFiles(w: World, id: Id, status: Status, reason: string)
    requires FilesOk(w) && (status == SUCCESS ==> HasMoved(w, id))
    ensures FilesOk(MarkTransfer(w, id, status, reason).0)
  {
    var w' := MarkTransfer(w, id, status, reason).0;
    forall j | j in w'.transfers
      ensures FileOk(j, w'.transfers[j], Find(w'.cluster.log, j))
    {
      assert FileOk(j, w.transfers[j], Find(w.cluster.log, j));
    }
  }

  lemma CloseRows(w: World, id: Id, status: Status, reason: string)
    ensures RowsEvolve(w, MarkTransfer(w, id, status, reason).0)
  {
  }

  lemma CloseGood(w: World, id: Id, status: Status, reason: string, after: TaskError, a: Answer)
    requires WorldOk(w) && (status == SUCCESS ==> HasMoved(w, id))
    ensures var (w', s') := DoClose(w, id, status, reason, after, a); Good(w, w', id, s')
  {
    hide FilesOk, ClusterOk, RowsEvolve;
    CloseFiles(w, id, status, reason);
    CloseRows(w, id, status, reason);
    RowsReflexive(w, w);
  }

  lemma ReadGood(w: World, t: Task, a: Answer)
    requires TaskOk(w, t)
    ensures t.stage.ReadTransfer? ==> TaskOk(w, Task(t.id, AfterTransfer(w, t.id, a)))
    ensures t.stage.ReadSender? ==> TaskOk(w, Task(t.id, AfterSender(w, t.stage.seen, a)))
    ensures t.stage.ReadRecipient? ==> TaskOk(w, Task(t.id, AfterRecipient(w, t.id, t.stage.seen, t.stage.sender, a)))
    ensures t.stage.ReadExhausted? ==> TaskOk(w, Task(t.id, AfterExhausted(w, t.id, a)))
    ensures t.stage.LookUpEntry? ==> TaskOk(w, Task(t.id, AfterLookup(w, t.id, a)))
  {
  }

  lemma Unchanged(w: World, id: Id, stage: Stage)
    requires WorldOk(w) && TaskOk(w, Task(id, stage))
    ensures Good(w, w, id, stage)
  {
  }

  lemma StepIsGood(w: World, t: Task, a: Answer)
    requires WorldOk(w) && TaskOk(w, t)
    ensures var (w', s') := Step(w, t, a); Good(w, w', t.id, s')
  {
    hide FilesOk, ClusterOk, RowsEvolve, EnsureAccounts, Submit;
    match t.stage
    case OpenSender(seen, ledger) => OpenSenderGood(w, t.id, seen, ledger, a);
    case OpenRecipient(seen, ledger) => OpenRecipientGood(w, t.id, seen, ledger, a);
    case PostTransfer(seen, ledger) => PostGood(w, t.id, seen, ledger, a);
    case CloseSucceeded => CloseGood(w, t.id, SUCCESS, "", Ok, a);
    case CloseFailed(reason, after) => CloseGood(w, t.id, FAILED, reason, after, a);
    case _ =>
      ReadGood(w, t, a);
      Unchanged(w, t.id, Step(w, t, a).1);
  }

  // ---- Each event, and every run

  lemma TrafficGood(w: World, call: Command, weather: Weather)
    requires WorldOk(w) && forall id :: id in w.transfers ==> !PostsUnder(call, id)
    ensures var w' := w.(cluster := Perform(w.cluster, call, weather).0);
            WorldOk(w') && Evolves(w, w')
  {
    PerformKeeps(w.cluster, call, weather);
    forall id | id in w.transfers {
      PerformPostsUnderItsId(w.cluster, call, weather, id);
    }
    hide ClusterOk, Perform;
    ClusterGrows(w, Perform(w.cluster, call, weather).0);
  }

  lemma NewRowFiles(w: World, id: Id, row: TransferRow)
    requires FilesOk(w) && id !in w.transfers && !HasMoved(w, id) && row.status == PENDING
    ensures FilesOk(w.(transfers := w.transfers[id := row]))
  {
  }

  lemma EventWorld(c: Config, e: Event)
    requires ConfigOk(c)
    ensures WorldOk(Exec(c, e).world) && Evolves(c.world, Exec(c, e).world)
  {
    hide ClusterOk, Step;
    var w := c.world;
    if Enabled(c, e) {
      match e
      case Deliver(k, a) => StepIsGood(w, c.tasks[k], a);
      case NewTransfer(id, row) => NewRowFiles(w, id, row);
      case OtherTraffic(call, weather) => TrafficGood(w, call, weather);
      case _ =>
    }
  }

  lemma ExecKeeps(c: Config, e: Event)
    requires ConfigOk(c)
    ensures ConfigOk(Exec(c, e))
  {
    EventWorld(c, e);
    hide WorldOk, Step, Extends, RowsEvolve, TaskOk;
    var c' := Exec(c, e);
    forall k | 0 <= k < |c'.tasks|
      ensures TaskOk(c'.world, c'.tasks[k])
    {
      if Enabled(c, e) && e.Deliver? && k == e.k {
        StepIsGood(c.world, c.tasks[k], e.answer);
      } else if k < |c.tasks| && c'.tasks[k] == c.tasks[k] {
        TaskOkLasts(c.world, c'.world, c.tasks[k]);
      } else {
        EntriesAreOk(c, e, k);
      }
    }
  }

  lemma EntriesAreOk(c: Config, e: Event, k: nat)
    requires k < |Exec(c, e).tasks| && !(Enabled(c, e) && e.Deliver? && k == e.k)
    requires k < |c.tasks| ==> Exec(c, e).tasks[k] != c.tasks[k]
    ensures TaskOk(Exec(c, e).world, Exec(c, e).tasks[k])
  {
    hide Step, Perform;
  }

  lemma {:induction false} RunKeeps(c: Config, events: seq<Event>)
    requires ConfigOk(c)
    ensures ConfigOk(Run(c, events))
    decreases |events|
  {
    hide ConfigOk, Exec;
    if events != [] {
      ExecKeeps(c, events[0]);
      RunKeeps(Exec(c, events[0]), events[1..]);
    }
  }

  /** Whatever the schedule: SUCCESS means the ledger moved exactly this amount between exactly
      these two wallets. */
  lemma SuccessMeansMoved(c: Config, events: seq<Event>, id: Id)
    requires Initial(c) && id in Run(c, events).world.transfers
    ensures var w := Run(c, events).world;
            w.transfers[id].status == SUCCESS ==>
              HasMoved(w, id) && Honours(Find(w.cluster.log, id).value, id, w.transfers[id])
  {
    hide Exec, Run, ClusterOk, Find;
    RunKeeps(c, events) by { assert ConfigOk(c); }
    assert FileOk(id, Run(c, events).world.transfers[id], Find(Run(c, events).world.cluster.log, id));
  }
}
