/** When a transfer marked FAILED can still move its money, and when it cannot. */
module TransferRace {
  import opened Common
  import opened Fresh
  import opened LedgerModel
  import opened LedgerSafety
  import opened TransferMachine
  import opened TransferSafety
  import TransferCalm

  // ---- Which tasks can still move a transfer's money

  predicate BothOpenable(c: Cluster, ledger: nat, seen: TransferRow) {
    Openable(c, ledger, seen.sender) && Openable(c, ledger, seen.recipient)
  }

  /** The task read the row as PENDING and nothing irrevocable keeps it from posting: wallets can be
      mended and the sender can be funded, but a wallet read stays read and an account stays taken. */
  ghost predicate MayPost(w: World, t: Task) {
    match t.stage
    case ReadSender(seen) =>
      && Sendable(seen)
      && exists currency ::
           currency in CURRENCY_LEDGERS && BothOpenable(w.cluster, CURRENCY_LEDGERS[currency], seen)
    case ReadRecipient(seen, sender) =>
      && Sendable(seen) && sender.active && sender.currency in CURRENCY_LEDGERS
      && BothOpenable(w.cluster, CURRENCY_LEDGERS[sender.currency], seen)
    case OpenSender(seen, ledger) => BothOpenable(w.cluster, ledger, seen)
    case OpenRecipient(seen, ledger) => Openable(w.cluster, ledger, seen.recipient)
    case PostTransfer(_, _) => true
    case _ => false
  }

  /** The transfer is marked FAILED, has not moved, and no task can move it any more. */
  ghost predicate Inert(c: Config, id: Id) {
    && id in c.world.transfers && c.world.transfers[id].status == FAILED
    && !HasMoved(c.world, id)
    && (forall k :: 0 <= k < |c.tasks| && c.tasks[k].id == id ==> !MayPost(c.world, c.tasks[k]))
  }

  // ---- An inert transfer stays inert, whatever happens next

  lemma OpenableShrinks(c: Cluster, c': Cluster, ledger: nat, wallet: Id)
    requires Extends(c, c') && Openable(c', ledger, wallet)
    ensures Openable(c, ledger, wallet)
  {
  }

  lemma MayPostShrinks(w: World, w': World, t: Task)
    requires Extends(w.cluster, w'.cluster) && MayPost(w', t)
    ensures MayPost(w, t)
  {
    hide Extends, Openable;
    match t.stage
    case ReadSender(seen) =>
      var currency :| currency in CURRENCY_LEDGERS && BothOpenable(w'.cluster, CURRENCY_LEDGERS[currency], seen);
      OpenableShrinks(w.cluster, w'.cluster, CURRENCY_LEDGERS[currency], seen.sender);
      OpenableShrinks(w.cluster, w'.cluster, CURRENCY_LEDGERS[currency], seen.recipient);
      assert BothOpenable(w.cluster, CURRENCY_LEDGERS[currency], seen);
    case ReadRecipient(seen, sender) =>
      OpenableShrinks(w.cluster, w'.cluster, CURRENCY_LEDGERS[sender.currency], seen.sender);
      OpenableShrinks(w.cluster, w'.cluster, CURRENCY_LEDGERS[sender.currency], seen.recipient);
    case OpenSender(seen, ledger) =>
      OpenableShrinks(w.cluster, w'.cluster, ledger, seen.sender);
      OpenableShrinks(w.cluster, w'.cluster, ledger, seen.recipient);
    case OpenRecipient(seen, ledger) =>
      OpenableShrinks(w.cluster, w'.cluster, ledger, seen.recipient);
    case PostTransfer(_, _) =>
  }

  lemma OpenedWasOpenable(c: Cluster, ledger: nat, wallet: Id, d: Delivery)
    requires EnsureAccounts(c, ledger, wallet, d).1 == NoError
    ensures Openable(c, ledger, wallet)
  {
  }

  lemma WalletsReadMayPost(w: World, id: Id, seen: TransferRow, sender: Wallet, a: Answer)
    requires var s := AfterRecipient(w, id, seen, sender, a);
             s.OpenSender? && BothOpenable(w.cluster, s.ledger, seen)
    ensures MayPost(w, Task(id, ReadRecipient(seen, sender)))
  {
    hide CURRENCY_LEDGERS, EqualFold, Openable;
  }

  /** A task gains no power to post by moving on, unless it reads the row as PENDING. */
  lemma MovingOnGainsNothing(w: World, t: Task, a: Answer)
    requires !MayPost(w, t) && (t.stage.ReadTransfer? ==> !Step(w, t, a).1.ReadSender?)
    requires Extends(w.cluster, Step(w, t, a).0.cluster)
    ensures !MayPost(Step(w, t, a).0, Task(t.id, Step(w, t, a).1))
  {
    hide Extends, EnsureAccounts, Submit, Find, Openable, CURRENCY_LEDGERS, AfterWallets;
    var (w', s') := Step(w, t, a);
    if MayPost(w', Task(t.id, s')) {
      MayPostShrinks(w, w', Task(t.id, s'));
      match t.stage
      case ReadSender(seen) =>
      case ReadRecipient(seen, sender) =>
        OnlyOpensNext(t.id, seen, sender, w.wallets[seen.recipient]);
        WalletsReadMayPost(w, t.id, seen, sender, a);
      case OpenSender(seen, ledger) => OpenedWasOpenable(w.cluster, ledger, seen.sender, a.delivery);
      case OpenRecipient(seen, ledger) => OpenedWasOpenable(w.cluster, ledger, seen.recipient, a.delivery);
      case _ =>
    }
  }

  lemma ResolvedIsNotRead(w: World, t: Task, a: Answer)
    requires t.id in w.transfers && w.transfers[t.id].status != PENDING
    ensures t.stage.ReadTransfer? ==> !Step(w, t, a).1.ReadSender?
  {
  }

  lemma OnlyOpensNext(id: Id, seen: TransferRow, sender: Wallet, recipient: Wallet)
    ensures var s := AfterWallets(id, seen, sender, recipient);
            s.CloseFailed? || s == OpenSender(seen, s.ledger)
  {
  }

  /** Only the last call of an execute task posts, under its own id. */
  lemma OnlyPostingMoves(w: World, t: Task, a: Answer, id: Id)
    requires t.id != id || !t.stage.PostTransfer?
    ensures HasMoved(Step(w, t, a).0, id) == HasMoved(w, id)
  {
    hide Find, EnsureAccounts, Submit;
    match t.stage
    case OpenSender(seen, ledger) => EnsureAccountsPostsNothing(w.cluster, ledger, seen.sender, a.delivery);
    case OpenRecipient(seen, ledger) => EnsureAccountsPostsNothing(w.cluster, ledger, seen.recipient, a.delivery);
    case PostTransfer(seen, ledger) =>
      SubmittedEntries(w.cluster, EntryFor(t.id, seen, ledger), InsufficientFunds, PostWeather(a), id);
    case _ =>
  }

  lemma EventMovesNothing(c: Config, e: Event, id: Id)
    requires ConfigOk(c) && Inert(c, id)
    ensures !HasMoved(Exec(c, e).world, id)
  {
    hide ConfigOk, Step, Perform, Find;
    if Enabled(c, e) {
      match e
      case Deliver(k, a) => OnlyPostingMoves(c.world, c.tasks[k], a, id);
      case OtherTraffic(call, weather) => PerformPostsUnderItsId(c.world.cluster, call, weather, id);
      case _ =>
    }
  }

  lemma InertTasks(c: Config, e: Event, id: Id, k: nat)
    requires ConfigOk(c) && Inert(c, id)
    requires k < |Exec(c, e).tasks| && Exec(c, e).tasks[k].id == id
    ensures !MayPost(Exec(c, e).world, Exec(c, e).tasks[k])
  {
    hide Extends, WorldOk, RowsEvolve, Step, Perform, TaskOk, MayPost;
    EventWorld(c, e);
    if Enabled(c, e) && e.Deliver? && e.k == k {
      ResolvedIsNotRead(c.world, c.tasks[k], e.answer);
      MovingOnGainsNothing(c.world, c.tasks[k], e.answer);
    } else if MayPost(Exec(c, e).world, Exec(c, e).tasks[k]) {
      MayPostShrinks(c.world, Exec(c, e).world, Exec(c, e).tasks[k]);
      FreshTasksMayNotPost(c, e, k);
    }
  }

  lemma FreshTasksMayNotPost(c: Config, e: Event, k: nat)
    requires k < |Exec(c, e).tasks| && !(Enabled(c, e) && e.Deliver? && e.k == k)
    requires MayPost(c.world, Exec(c, e).tasks[k])
    ensures k < |c.tasks| && c.tasks[k] == Exec(c, e).tasks[k]
  {
    hide Step, Perform, BothOpenable, Openable;
  }

  lemma InertLasts(c: Config, e: Event, id: Id)
    requires ConfigOk(c) && Inert(c, id)
    ensures Inert(Exec(c, e), id)
  {
    hide Extends, WorldOk, Exec, TaskOk, MayPost, HasMoved;
    EventWorld(c, e);
    EventMovesNothing(c, e, id);
    forall k | 0 <= k < |Exec(c, e).tasks| && Exec(c, e).tasks[k].id == id
      ensures !MayPost(Exec(c, e).world, Exec(c, e).tasks[k])
    {
      InertTasks(c, e, id, k);
    }
  }

  lemma {:induction false} InertForGood(c: Config, events: seq<Event>, id: Id)
    requires ConfigOk(c) && Inert(c, id)
    ensures Inert(Run(c, events), id)
    decreases |events|
  {
    hide Inert, ConfigOk, Exec;
    if events != [] {
      ExecKeeps(c, events[0]);
      InertLasts(c, events[0], id);
      InertForGood(Exec(c, events[0]), events[1..], id);
    }
  }

  // ---- A task that may post does, if wallets are mended and the sender is funded

  const CLEAN := TransferCalm.CLEAN
  const CLEAR: Weather := Weather(Replied, Replied, Replied, false, 0)

  lemma RunFirst(c: Config, e: Event, rest: seq<Event>)
    ensures Run(c, [e] + rest) == Run(Exec(c, e), rest)
  {
    hide Exec;
    assert ([e] + rest)[1..] == rest;
  }

  /** Events after which task j has posted its transfer and no row has changed. */
  ghost predicate Moves(c: Config, events: seq<Event>, j: nat)
    requires j < |c.tasks|
  {
    Run(c, events).world.transfers == c.world.transfers && HasMoved(Run(c, events).world, c.tasks[j].id)
  }

  lemma MovesLater(c: Config, e: Event, rest: seq<Event>, j: nat)
    requires j < |c.tasks| && j < |Exec(c, e).tasks| && Exec(c, e).tasks[j].id == c.tasks[j].id
    requires Exec(c, e).world.transfers == c.world.transfers && Moves(Exec(c, e), rest, j)
    ensures Moves(c, [e] + rest, j)
  {
    hide Run, Exec, HasMoved;
    RunFirst(c, e, rest);
  }

  /** An id no transfer has and nothing is posted under. */
  lemma UnusedId(w: World) returns (unused: Id)
    ensures unused !in w.transfers && Find(w.cluster.log, unused).None?
  {
    var posted := set p | p in w.cluster.log :: p.transfer.id;
    unused := SomeAbove(w.transfers.Keys + posted);
    forall i | 0 <= i < |w.cluster.log|
      ensures w.cluster.log[i].transfer.id != unused
    {
      assert w.cluster.log[i] in w.cluster.log;
      assert w.cluster.log[i].transfer.id in posted;
    }
    FindIsMembership(w.cluster.log, unused);
  }

  lemma OpenAlready(c: Cluster, ledger: nat, wallet: Id)
    requires AccountsOpen(c, ledger, wallet)
    ensures EnsureAccounts(c, ledger, wallet, Replied) == (c, NoError)
  {
  }

  /** A fresh deposit into an open account is posted: settlement accounts are not capped. */
  lemma DepositLands(c: Cluster, p: DepositParam, ledger: nat)
    requires p.amount > 0 && LedgerForCurrency(p.currency) == Some(ledger) && AccountsOpen(c, ledger, p.wallet)
    requires Find(c.log, p.id).None?
    ensures Perform(c, DepositCall(p), CLEAR).0 == Post(c, DepositEntry(p.id, p.wallet, ledger, p.amount), 0)
  {
    hide Find, EnsureAccounts;
    OpenAlready(c, ledger, p.wallet);
    SubmitCases(c, DepositEntry(p.id, p.wallet, ledger, p.amount), Rejected, CLEAR);
  }

  lemma FundedCoversIt(c: Cluster, d: Id, seen: TransferRow, id: Id, ledger: nat)
    requires ClusterOk(c) && Sendable(seen) && AccountsOpen(c, ledger, seen.sender)
      && AccountsOpen(c, ledger, seen.recipient)
    ensures var c' := Post(c, DepositEntry(d, seen.sender, ledger, seen.amount), 0);
            && AccountsOpen(c', ledger, seen.sender) && AccountsOpen(c', ledger, seen.recipient)
            && !Overdraws(c', EntryFor(id, seen, ledger)) && Postable(c', EntryFor(id, seen, ledger))
  {
    hide LogOk, Debited, Credited;
  }

  lemma FundedPosts(w: World, id: Id, seen: TransferRow, ledger: nat, cluster: Cluster)
    requires Find(cluster.log, id).None? && Postable(cluster, EntryFor(id, seen, ledger))
      && !Overdraws(cluster, EntryFor(id, seen, ledger))
    ensures HasMoved(DoPostTransfer(w.(cluster := cluster), id, seen, ledger, CLEAN).0, id)
    ensures DoPostTransfer(w.(cluster := cluster), id, seen, ledger, CLEAN).0.transfers == w.transfers
  {
    hide Find, Overdraws, Postable, Submit;
    SubmittedEntries(cluster, EntryFor(id, seen, ledger), InsufficientFunds, PostWeather(CLEAN), id);
  }

  lemma MovesFromPost(c: Config, j: nat)
    returns (events: seq<Event>)
    requires ConfigOk(c) && j < |c.tasks| && c.tasks[j].stage.PostTransfer? && !HasMoved(c.world, c.tasks[j].id)
    ensures Moves(c, events, j)
  {
    hide Find, Perform, Post, DoPostTransfer, Overdraws, Postable, AccountsOpen, FilesOk, ClusterOk, CURRENCY_LEDGERS;
    var w, t := c.world, c.tasks[j];
    var seen, ledger := t.stage.seen, t.stage.ledger;
    assert TaskOk(w, t);
    var currency :| currency in CURRENCY_LEDGERS && CURRENCY_LEDGERS[currency] == ledger;
    var d := UnusedId(w);
    var p := DepositParam(d, seen.sender, currency, seen.amount);
    var fund := OtherTraffic(DepositCall(p), CLEAR);
    DepositLands(w.cluster, p, ledger);
    PerformPostsUnderItsId(w.cluster, DepositCall(p), CLEAR, t.id);
    FundedCoversIt(w.cluster, d, seen, t.id, ledger);
    var cluster := Perform(w.cluster, DepositCall(p), CLEAR).0;
    FundedPosts(w, t.id, seen, ledger, cluster);
    var c1 := Exec(c, fund);
    assert c1 == c.(world := w.(cluster := cluster));
    var post := Deliver(j, CLEAN);
    assert Exec(c1, post).world == DoPostTransfer(c1.world, t.id, seen, ledger, CLEAN).0;
    hide Exec;
    RunFirst(c1, post, []);
    RunFirst(c, fund, [post] + []);
    events := [fund] + ([post] + []);
  }

  lemma OpensAccount(w: World, ledger: nat, wallet: Id)
    requires WorldOk(w) && Openable(w.cluster, ledger, wallet)
    ensures var (cluster, e) := EnsureAccounts(w.cluster, ledger, wallet, Replied);
            e == NoError && cluster.log == w.cluster.log
  {
    hide FilesOk, LogOk;
    assert SpecOk(SettlementAccount(ledger), SettlementSpec(ledger));
  }

  lemma MovesFromRecipient(c: Config, j: nat)
    returns (events: seq<Event>)
    requires ConfigOk(c) && j < |c.tasks| && c.tasks[j].stage.OpenRecipient? && !HasMoved(c.world, c.tasks[j].id)
    requires MayPost(c.world, c.tasks[j])
    ensures Moves(c, events, j)
  {
    hide Find, EnsureAccounts, WorldOk, TaskOk, Openable;
    var t := c.tasks[j];
    var open := Deliver(j, CLEAN);
    OpensAccount(c.world, t.stage.ledger, t.stage.seen.recipient);
    ExecKeeps(c, open);
    var rest := MovesFromPost(Exec(c, open), j);
    MovesLater(c, open, rest, j);
    events := [open] + rest;
  }

  lemma StillOpenable(c: Cluster, ledger: nat, wallet: Id, other: Id)
    requires Openable(c, ledger, wallet)
    ensures Openable(EnsureAccounts(c, ledger, other, Replied).0, ledger, wallet)
  {
  }

  lemma MovesFromSender(c: Config, j: nat)
    returns (events: seq<Event>)
    requires ConfigOk(c) && j < |c.tasks| && c.tasks[j].stage.OpenSender? && !HasMoved(c.world, c.tasks[j].id)
    requires MayPost(c.world, c.tasks[j])
    ensures Moves(c, events, j)
  {
    hide Find, EnsureAccounts, WorldOk, TaskOk, Openable;
    var t := c.tasks[j];
    var open := Deliver(j, CLEAN);
    OpensAccount(c.world, t.stage.ledger, t.stage.seen.sender);
    StillOpenable(c.world.cluster, t.stage.ledger, t.stage.seen.recipient, t.stage.seen.sender);
    ExecKeeps(c, open);
    var rest := MovesFromRecipient(Exec(c, open), j);
    MovesLater(c, open, rest, j);
    events := [open] + rest;
  }

  lemma MendedWalletsPass(id: Id, seen: TransferRow, currency: string)
    requires Sendable(seen) && currency in CURRENCY_LEDGERS
    ensures AfterWallets(id, seen, Wallet(currency, true), Wallet(currency, true))
      == OpenSender(seen, CURRENCY_LEDGERS[currency])
  {
  }

  lemma MovesFromReadRecipient(c: Config, j: nat)
    returns (events: seq<Event>)
    requires ConfigOk(c) && j < |c.tasks| && c.tasks[j].stage.ReadRecipient? && !HasMoved(c.world, c.tasks[j].id)
    requires MayPost(c.world, c.tasks[j])
    ensures Moves(c, events, j)
  {
    hide Find, AfterWallets, WorldOk, TaskOk, Openable, CURRENCY_LEDGERS;
    var t := c.tasks[j];
    var currency := t.stage.sender.currency;
    MendedWalletsPass(t.id, t.stage.seen, currency);
    assert t.stage.sender == Wallet(currency, true);
    var mend, read := WalletChanges(t.stage.seen.recipient, Some(Wallet(currency, true))), Deliver(j, CLEAN);
    var c1 := Exec(c, mend);
    ExecKeeps(c, mend);
    ExecKeeps(c1, read);
    var rest := MovesFromSender(Exec(c1, read), j);
    MovesLater(c1, read, rest, j);
    MovesLater(c, mend, [read] + rest, j);
    events := [mend] + ([read] + rest);
  }

  lemma MovesFromReadSender(c: Config, j: nat)
    returns (events: seq<Event>)
    requires ConfigOk(c) && j < |c.tasks| && c.tasks[j].stage.ReadSender? && !HasMoved(c.world, c.tasks[j].id)
    requires MayPost(c.world, c.tasks[j])
    ensures Moves(c, events, j)
  {
    hide Find, WorldOk, TaskOk, Openable, CURRENCY_LEDGERS;
    var t := c.tasks[j];
    var currency :| currency in CURRENCY_LEDGERS
      && BothOpenable(c.world.cluster, CURRENCY_LEDGERS[currency], t.stage.seen);
    var mend, read := WalletChanges(t.stage.seen.sender, Some(Wallet(currency, true))), Deliver(j, CLEAN);
    var c1 := Exec(c, mend);
    ExecKeeps(c, mend);
    ExecKeeps(c1, read);
    var rest := MovesFromReadRecipient(Exec(c1, read), j);
    MovesLater(c1, read, rest, j);
    MovesLater(c, mend, [read] + rest, j);
    events := [mend] + ([read] + rest);
  }

  /** A task that may post does, if wallets are mended, the sender is funded and its calls are answered. */
  lemma MovesInTheEnd(c: Config, j: nat)
    returns (events: seq<Event>)
    requires ConfigOk(c) && j < |c.tasks| && MayPost(c.world, c.tasks[j]) && !HasMoved(c.world, c.tasks[j].id)
    ensures Moves(c, events, j)
  {
    hide ConfigOk, Moves, HasMoved, Openable, BothOpenable;
    match c.tasks[j].stage
    case ReadSender(_) => events := MovesFromReadSender(c, j);
    case ReadRecipient(_, _) => events := MovesFromReadRecipient(c, j);
    case OpenSender(_, _) => events := MovesFromSender(c, j);
    case OpenRecipient(_, _) => events := MovesFromRecipient(c, j);
    case PostTransfer(_, _) => events := MovesFromPost(c, j);
  }

  /** A transfer marked FAILED whose money has not moved: no run moves it if and only if no task of its
      own may still post. Wallets that changed meanwhile and a sender without funds do not help. */
  lemma FailedStaysUnmovedExactly(c: Config, id: Id)
    requires ConfigOk(c) && id in c.world.transfers && c.world.transfers[id].status == FAILED && !HasMoved(c.world, id)
    ensures (forall events :: !HasMoved(Run(c, events).world, id))
            <==> (forall j :: 0 <= j < |c.tasks| && c.tasks[j].id == id ==> !MayPost(c.world, c.tasks[j]))
  {
    hide ConfigOk, MayPost, Run, HasMoved;
    if j :| 0 <= j < |c.tasks| && c.tasks[j].id == id && MayPost(c.world, c.tasks[j]) {
      var events := MovesInTheEnd(c, j);
      assert HasMoved(Run(c, events).world, id);
    } else {
      assert Inert(c, id);
      forall events
        ensures !HasMoved(Run(c, events).world, id)
      {
        InertForGood(c, events, id);
      }
    }
  }

  // ---- The hypothesis that asks for nothing more

  /** A row is marked FAILED only if its money has not moved and no other task of its own may still post. */
  ghost predicate Permitted(c: Config, e: Event) {
    Enabled(c, e) && e.Deliver? && c.tasks[e.k].stage.CloseFailed? && e.answer.delivery != LostBefore
      && c.tasks[e.k].id in c.world.transfers && c.world.transfers[c.tasks[e.k].id].status == PENDING ==>
    var id := c.tasks[e.k].id;
    !HasMoved(c.world, id) && forall j :: 0 <= j < |c.tasks| && j != e.k && c.tasks[j].id == id ==>
      !MayPost(c.world, c.tasks[j])
  }

  ghost predicate Obeys(c: Config, events: seq<Event>)
    decreases |events|
  {
    events == [] || (Permitted(c, events[0]) && Obeys(Exec(c, events[0]), events[1..]))
  }

  ghost predicate FailedAreInert(c: Config) {
    forall id :: id in c.world.transfers && c.world.transfers[id].status == FAILED ==> Inert(c, id)
  }

  /** A row turns FAILED only by its own task's guarded update. */
  lemma TurnsToFailed(w: World, t: Task, a: Answer, id: Id)
    requires id in w.transfers ==> w.transfers[id].status != FAILED
    requires id in Step(w, t, a).0.transfers && Step(w, t, a).0.transfers[id].status == FAILED
    ensures t.id == id && t.stage.CloseFailed? && a.delivery != LostBefore
    ensures id in w.transfers && w.transfers[id].status == PENDING
    ensures Step(w, t, a).1.Finished? && Step(w, t, a).0.cluster == w.cluster
  {
    hide EnsureAccounts, Submit, Find;
  }

  lemma SameClusterSameHope(w: World, w': World, t: Task)
    requires w'.cluster == w.cluster
    ensures MayPost(w', t) <==> MayPost(w, t)
  {
  }

  lemma ClosedIsInert(c: Config, e: Event, id: Id)
    requires Permitted(c, e) && Enabled(c, e) && e.Deliver?
    requires id in c.world.transfers ==> c.world.transfers[id].status != FAILED
    requires id in Exec(c, e).world.transfers && Exec(c, e).world.transfers[id].status == FAILED
    ensures Inert(Exec(c, e), id)
  {
    hide Step, Find, MayPost;
    TurnsToFailed(c.world, c.tasks[e.k], e.answer, id);
    forall j | 0 <= j < |Exec(c, e).tasks| && Exec(c, e).tasks[j].id == id
      ensures !MayPost(Exec(c, e).world, Exec(c, e).tasks[j])
    {
      if j == e.k {
        FinishedMayNotPost(Exec(c, e).world, Exec(c, e).tasks[j]);
      } else {
        SameClusterSameHope(c.world, Exec(c, e).world, c.tasks[j]);
      }
    }
  }

  lemma FinishedMayNotPost(w: World, t: Task)
    requires t.stage.Finished?
    ensures !MayPost(w, t)
  {
  }

  lemma SafetyStep(c: Config, e: Event)
    requires ConfigOk(c) && FailedAreInert(c) && Permitted(c, e)
    ensures FailedAreInert(Exec(c, e))
  {
    hide Step, Perform, Inert, ConfigOk, Permitted;
    forall id | id in Exec(c, e).world.transfers && Exec(c, e).world.transfers[id].status == FAILED
      ensures Inert(Exec(c, e), id)
    {
      if id in c.world.transfers && c.world.transfers[id].status == FAILED {
        InertLasts(c, e, id);
      } else {
        ClosedIsInert(c, e, id);
      }
    }
  }

  lemma {:induction false} SafetyRun(c: Config, events: seq<Event>)
    requires ConfigOk(c) && FailedAreInert(c) && Obeys(c, events)
    ensures FailedAreInert(Run(c, events))
    decreases |events|
  {
    hide ConfigOk, FailedAreInert, Exec, Permitted;
    if events != [] {
      ExecKeeps(c, events[0]);
      SafetyStep(c, events[0]);
      SafetyRun(Exec(c, events[0]), events[1..]);
    }
  }

  /** Under any interleaving: if no row is marked FAILED while its money has moved, or another task of
      its own may still post, then FAILED always means the money never moved. FailedStaysUnmovedExactly
      says why nothing can be spared. */
  lemma FailedNeverMoved(c: Config, events: seq<Event>, id: Id)
    requires Initial(c) && Obeys(c, events) && id in Run(c, events).world.transfers
    ensures Run(c, events).world.transfers[id].status == FAILED ==> !HasMoved(Run(c, events).world, id)
  {
    hide Find, Exec, Obeys, Run, ClusterOk;
    assert ConfigOk(c);
    SafetyRun(c, events);
  }

  // ---- The same, asked of the decisions

  /** Nobody but task k may still post the transfer. */
  ghost predicate NobodyElseMayPost(c: Config, k: nat)
    requires k < |c.tasks|
  {
    forall j :: 0 <= j < |c.tasks| && j != k && c.tasks[j].id == c.tasks[k].id ==> !MayPost(c.world, c.tasks[j])
  }

  /** A task decides to mark the row FAILED only while no other task may still post; if it decides on the
      wallets, or because an account is taken, rather than on an empty lookup or a refused posting, then only
      while nothing is posted; and no task reads the row as PENDING once that is decided. */
  ghost predicate Decides(c: Config, e: Event) {
    Enabled(c, e) && e.Deliver? ==>
      var t := c.tasks[e.k];
      var next := Step(c.world, t, e.answer).1;
      && (next.CloseFailed? ==>
            NobodyElseMayPost(c, e.k) && (t.stage.LookUpEntry? || t.stage.PostTransfer? || !HasMoved(c.world, t.id)))
      && (t.stage.ReadTransfer? && next.ReadSender? ==>
            forall j :: 0 <= j < |c.tasks| && c.tasks[j].id == t.id ==> !c.tasks[j].stage.CloseFailed?)
  }

  ghost predicate Decided(c: Config, events: seq<Event>)
    decreases |events|
  {
    events == [] || (Decides(c, events[0]) && Decided(Exec(c, events[0]), events[1..]))
  }

  /** What a task is about to mark FAILED has not moved and cannot. */
  ghost predicate Doomed(c: Config, id: Id) {
    && !HasMoved(c.world, id)
    && (forall j :: 0 <= j < |c.tasks| && c.tasks[j].id == id ==> !MayPost(c.world, c.tasks[j]))
  }

  ghost predicate DecidedAreDoomed(c: Config) {
    forall k :: 0 <= k < |c.tasks| && c.tasks[k].stage.CloseFailed? && c.tasks[k].id in c.world.transfers ==>
      Doomed(c, c.tasks[k].id)
  }

  /** The ledger refuses a posting only if the transfer is not posted. */
  lemma RefusedIsUnmoved(w: World, id: Id, seen: TransferRow, ledger: nat, a: Answer)
    requires WorldOk(w) && TaskOk(w, Task(id, PostTransfer(seen, ledger)))
    requires DoPostTransfer(w, id, seen, ledger, a).1.CloseFailed?
    ensures !HasMoved(w, id) && DoPostTransfer(w, id, seen, ledger, a).0.cluster == w.cluster
  {
    if HasMoved(w, id) {
      TransferCalm.MovedIsReadyAgain(w, id, seen);
    }
    hide WorldOk, Find;
  }

  /** A decision leaves the ledger, as far as this transfer goes, as it was, and finds nothing posted. */
  lemma DecisionIsUnmoved(c: Config, k: nat, a: Answer)
    requires ConfigOk(c) && k < |c.tasks| && Decides(c, Deliver(k, a)) && !c.tasks[k].stage.CloseFailed?
    requires Step(c.world, c.tasks[k], a).1.CloseFailed?
    ensures !HasMoved(Step(c.world, c.tasks[k], a).0, c.tasks[k].id)
  {
    hide WorldOk, Find, EnsureAccounts, Submit, MayPost;
    var w, t := c.world, c.tasks[k];
    assert TaskOk(w, t);
    match t.stage
    case PostTransfer(seen, ledger) => RefusedIsUnmoved(w, t.id, seen, ledger, a);
    case LookUpEntry =>
    case _ => OnlyPostingMoves(w, t, a, t.id);
  }

  lemma DecisionDooms(c: Config, k: nat, a: Answer)
    requires ConfigOk(c) && k < |c.tasks| && Decides(c, Deliver(k, a)) && !c.tasks[k].stage.CloseFailed?
    requires Step(c.world, c.tasks[k], a).1.CloseFailed?
    ensures Doomed(Exec(c, Deliver(k, a)), c.tasks[k].id)
  {
    hide WorldOk, Step, HasMoved, TaskOk, RowsEvolve, Extends;
    DecisionIsUnmoved(c, k, a);
    EventWorld(c, Deliver(k, a));
    var c' := Exec(c, Deliver(k, a));
    forall j | 0 <= j < |c'.tasks| && c'.tasks[j].id == c.tasks[k].id
      ensures !MayPost(c'.world, c'.tasks[j])
    {
      if j != k && MayPost(c'.world, c'.tasks[j]) {
        MayPostShrinks(c.world, c'.world, c.tasks[j]);
      }
    }
  }

  lemma DoomMovesNothing(c: Config, e: Event, id: Id)
    requires Doomed(c, id) && id in c.world.transfers
    ensures !HasMoved(Exec(c, e).world, id)
  {
    hide Step, Perform, Find;
    if Enabled(c, e) {
      match e
      case Deliver(k, a) => OnlyPostingMoves(c.world, c.tasks[k], a, id);
      case OtherTraffic(call, weather) => PerformPostsUnderItsId(c.world.cluster, call, weather, id);
      case _ =>
    }
  }

  /** Once doomed, a transfer stays so while a task is about to mark it FAILED. */
  lemma DoomLasts(c: Config, e: Event, id: Id, k: nat)
    requires ConfigOk(c) && Decides(c, e) && Doomed(c, id) && id in c.world.transfers
    requires k < |c.tasks| && c.tasks[k].id == id && c.tasks[k].stage.CloseFailed?
    ensures Doomed(Exec(c, e), id)
  {
    hide WorldOk, Step, Perform, HasMoved, TaskOk, RowsEvolve, Extends, MayPost;
    DoomMovesNothing(c, e, id);
    EventWorld(c, e);
    forall j | 0 <= j < |Exec(c, e).tasks| && Exec(c, e).tasks[j].id == id
      ensures !MayPost(Exec(c, e).world, Exec(c, e).tasks[j])
    {
      if Enabled(c, e) && e.Deliver? && e.k == j {
        MovingOnGainsNothing(c.world, c.tasks[j], e.answer);
      } else if MayPost(Exec(c, e).world, Exec(c, e).tasks[j]) {
        MayPostShrinks(c.world, Exec(c, e).world, Exec(c, e).tasks[j]);
        FreshTasksMayNotPost(c, e, j);
      }
    }
  }

  /** A transfer that does not exist yet has nobody to post it. */
  lemma NewRowIsDoomed(c: Config, e: Event, id: Id)
    requires ConfigOk(c) && id !in c.world.transfers && id in Exec(c, e).world.transfers
    ensures Doomed(Exec(c, e), id)
  {
    hide WorldOk, Step, Perform, Find;
    if Enabled(c, e) && e.Deliver? {
      StepAddsNoRow(c.world, c.tasks[e.k], e.answer);
    }
    forall j | 0 <= j < |c.tasks| && c.tasks[j].id == id
      ensures !MayPost(Exec(c, e).world, c.tasks[j])
    {
      assert TaskOk(c.world, c.tasks[j]);
    }
  }

  lemma StepAddsNoRow(w: World, t: Task, a: Answer)
    ensures Step(w, t, a).0.transfers.Keys == w.transfers.Keys
  {
    hide EnsureAccounts, Submit;
  }

  lemma DecidedStep(c: Config, e: Event)
    requires ConfigOk(c) && DecidedAreDoomed(c) && Decides(c, e)
    ensures DecidedAreDoomed(Exec(c, e))
  {
    hide ConfigOk, Step, Perform, Doomed, Decides;
    var c' := Exec(c, e);
    forall k | 0 <= k < |c'.tasks| && c'.tasks[k].stage.CloseFailed? && c'.tasks[k].id in c'.world.transfers
      ensures Doomed(c', c'.tasks[k].id)
    {
      var id := c'.tasks[k].id;
      assert k < |c.tasks| && c.tasks[k].id == id;
      if id !in c.world.transfers {
        NewRowIsDoomed(c, e, id);
      } else if c.tasks[k].stage.CloseFailed? {
        DoomLasts(c, e, id, k);
      } else {
        DecisionDooms(c, k, e.answer);
      }
    }
  }

  /** What is decided in this way may be carried out. */
  lemma DecidedIsPermitted(c: Config, e: Event)
    requires DecidedAreDoomed(c)
    ensures Permitted(c, e)
  {
    hide Step, Perform, MayPost, HasMoved;
  }

  lemma {:induction false} DecidedObeys(c: Config, events: seq<Event>)
    requires ConfigOk(c) && DecidedAreDoomed(c) && Decided(c, events)
    ensures Obeys(c, events)
    decreases |events|
  {
    hide ConfigOk, DecidedAreDoomed, Decides, Permitted, Exec;
    if events != [] {
      DecidedIsPermitted(c, events[0]);
      ExecKeeps(c, events[0]);
      DecidedStep(c, events[0]);
      DecidedObeys(Exec(c, events[0]), events[1..]);
    }
  }

  /** Under any interleaving: if every decision to mark a row FAILED is taken while no other task of its own
      may still post, on an empty lookup, a refused posting or an unposted transfer, and nobody reads the
      row as PENDING from then on, then FAILED always means the money never moved. */
  lemma SoundDecisionsTellTheTruth(c: Config, events: seq<Event>, id: Id)
    requires Initial(c) && Decided(c, events) && id in Run(c, events).world.transfers
    ensures Run(c, events).world.transfers[id].status == FAILED ==> !HasMoved(Run(c, events).world, id)
  {
    hide Find, Exec, Decided, Obeys, Run, ClusterOk;
    assert ConfigOk(c);
    DecidedObeys(c, events);
    FailedNeverMoved(c, events, id);
  }

  // ---- Both misfortunes happen

  lemma {:induction false} RunLast(c: Config, events: seq<Event>, e: Event)
    ensures Run(c, events + [e]) == Exec(Run(c, events), e)
    decreases |events|
  {
    hide Exec;
    if events == [] {
      assert [] + [e] == [e] && [e][1..] == [];
    } else {
      assert (events + [e])[1..] == events[1..] + [e];
      RunLast(Exec(c, events[0]), events[1..], e);
    }
  }

  lemma {:induction false} RunSplits(c: Config, a: seq<Event>, b: seq<Event>)
    ensures Run(c, a + b) == Run(Run(c, a), b)
    decreases |a|
  {
    hide Exec;
    if a == [] {
      assert a + b == b;
    } else {
      assert (a + b)[1..] == a[1..] + b;
      RunSplits(Exec(c, a[0]), a[1..], b);
    }
  }

  /** Two wallets the ledger has not seen yet, and an id it has not seen either. */
  predicate Unseen(c: Config, id: Id, row: TransferRow) {
    && !HasMoved(c.world, id)
    && WalletAccount(row.sender) !in c.world.cluster.accounts
    && WalletAccount(row.recipient) !in c.world.cluster.accounts
  }

  /** A new transfer, and an execute task that has read its row. */
  lemma ExecuteBegins(c: Config, id: Id, row: TransferRow) returns (events: seq<Event>)
    requires Initial(c) && Sendable(row) && row.status == PENDING && Unseen(c, id, row)
    ensures var c' := Run(c, events);
            && ConfigOk(c') && c'.world == c.world.(transfers := map[id := row])
            && c'.tasks == [Task(id, ReadSender(row))] && MayPost(c'.world, c'.tasks[0])
  {
    hide Find, ClusterOk;
    var e1, e2, e3 := NewTransfer(id, row), Start(id, ReadTransfer), Deliver(0, CLEAN);
    var c1 := Exec(c, e1);
    assert c1 == Config(c.world.(transfers := map[id := row]), []);
    var c2 := Exec(c1, e2);
    assert c2 == c1.(tasks := [Task(id, ReadTransfer)]);
    var c3 := Exec(c2, e3);
    assert c3 == c1.(tasks := [Task(id, ReadSender(row))]);
    assert "NGN" in CURRENCY_LEDGERS && BothOpenable(c3.world.cluster, CURRENCY_LEDGERS["NGN"], row);
    assert ConfigOk(c);
    hide Exec, ConfigOk;
    RunLast(c, [], e1);
    RunLast(c, [] + [e1], e2);
    RunLast(c, [] + [e1] + [e2], e3);
    events := [] + [e1] + [e2] + [e3];
    RunKeeps(c, events);
  }

  /** The exhaustion hook finds nothing posted and marks the row FAILED. */
  lemma HookFails(c: Config, id: Id) returns (events: seq<Event>)
    requires id in c.world.transfers && c.world.transfers[id].status == PENDING && !HasMoved(c.world, id)
    ensures var c' := Run(c, events);
            && c'.world == TransferCalm.Marked(c.world, id, FAILED, EXHAUSTED)
            && |c'.tasks| > |c.tasks| && c'.tasks[..|c.tasks|] == c.tasks
  {
    hide Find;
    var k := |c.tasks|;
    var e1, e2 := Start(id, ReadExhausted), Deliver(k, CLEAN);
    var c1 := Exec(c, e1);
    assert c1.tasks == c.tasks + [Task(id, ReadExhausted)];
    var c2 := Exec(c1, e2);
    assert c2 == c.(tasks := c.tasks + [Task(id, LookUpEntry)]);
    var c3 := Exec(c2, e2);
    assert c3 == c.(tasks := c.tasks + [Task(id, CloseFailed(EXHAUSTED, Ok))]);
    var c4 := Exec(c3, e2);
    assert c4.world == TransferCalm.Marked(c.world, id, FAILED, EXHAUSTED)
      && c4.tasks == c.tasks + [Task(id, Finished(Ok))];
    hide Exec;
    RunLast(c, [], e1);
    RunLast(c, [] + [e1], e2);
    RunLast(c, [] + [e1] + [e2], e2);
    RunLast(c, [] + [e1] + [e2] + [e2], e2);
    events := [] + [e1] + [e2] + [e2] + [e2];
  }

  /** From any beginning, some run leaves a transfer FAILED whose money moved: the hook closed the row
      while an execute task still had it as PENDING. */
  lemma FailedThenMoved(c: Config, id: Id, row: TransferRow) returns (events: seq<Event>)
    requires Initial(c) && Sendable(row) && row.status == PENDING && Unseen(c, id, row)
    ensures var w := Run(c, events).world;
            id in w.transfers && w.transfers[id].status == FAILED && HasMoved(w, id)
  {
    hide Find, ClusterOk, Exec, Run, ConfigOk, MayPost;
    var first := ExecuteBegins(c, id, row);
    var c1 := Run(c, first);
    var second := HookFails(c1, id);
    var c2 := Run(c1, second);
    RunSplits(c, first, second);
    RunKeeps(c1, second);
    assert c2.tasks[0] == c2.tasks[..1][0] == c1.tasks[0];
    MayPostShrinks(c2.world, c1.world, c1.tasks[0]);
    var third := MovesInTheEnd(c2, 0);
    RunSplits(c1, second, third);
    RunSplits(c, first, second + third);
    events := first + (second + third);
  }

  /** From any beginning, some run leaves a transfer posted, still PENDING, and its sender's wallet
      deactivated: running it again, every call answered, marks it FAILED although the money moved. */
  lemma MovedThenFailed(c: Config, id: Id, row: TransferRow, answers: Call -> Answer) returns (events: seq<Event>)
    requires Initial(c) && Sendable(row) && row.status == PENDING && Unseen(c, id, row)
    requires TransferCalm.AllHeard(answers)
    ensures var w := Run(c, events).world;
            && HasMoved(w, id) && id in w.transfers && w.transfers[id].status == PENDING
            && id in RunAlone(w, Task(id, ReadTransfer), answers).0.transfers
            && RunAlone(w, Task(id, ReadTransfer), answers).0.transfers[id].status == FAILED
  {
    hide Find, ClusterOk, Run, MayPost, RunAlone, WorldOk, TaskOk;
    var first := ExecuteBegins(c, id, row);
    var c1 := Run(c, first);
    var second := MovesInTheEnd(c1, 0);
    var c2 := Run(c1, second);
    RunSplits(c, first, second);
    RunKeeps(c1, second);
    var off := WalletChanges(row.sender, Some(Wallet("NGN", false)));
    var seen := WalletChanges(row.recipient, Some(Wallet("NGN", true)));
    var c3 := Exec(c2, off);
    var c4 := Exec(c3, seen);
    RunLast(c, first + second, off);
    RunLast(c, first + second + [off], seen);
    events := first + second + [off] + [seen];
    ExecKeeps(c2, off);
    ExecKeeps(c3, seen);
    assert !TransferCalm.Aligned(c4.world, row, Find(c4.world.cluster.log, id).value.ledger);
    TransferCalm.RerunExactly(c4.world, id, answers);
  }
}
