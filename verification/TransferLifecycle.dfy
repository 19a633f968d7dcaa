/** A transfer:execute task from its first attempt to its last: retries, panics, and the exhaustion hook. */
module TransferLifecycle {
  import opened Common
  import opened LedgerModel
  import opened TransferMachine
  import opened Middleware
  import TransferSafety
  import TransferWorker

  const TRANSFER_MAX_RETRY: nat := 10

  /** What others do to the world just before one of a task's calls. */
  type Others = Call -> World -> World

  /** One attempt: what others do before each of its calls, whether the payload decodes, how its calls are
      answered, after how many of them the handler panics if it does, and the same of the hook's calls. */
  datatype Attempt = Attempt(
    others: Others, decodable: bool, answers: Call -> Answer, panicAfter: Option<nat>,
    hookOthers: Others, hookAnswers: Call -> Answer)

  datatype Seen = Seen(world: World, hooks: nat)

  /** A task's calls, with others acting before each of them. */
  function RunAmid(w: World, t: Task, answers: Call -> Answer, others: Others): (World, TaskError)
    decreases Ahead(t.stage)
  {
    if t.stage.Finished? then (w, t.stage.error)
    else
      var call := CallOf(t.stage);
      StepAdvances(others(call)(w), t, answers(call));
      var (w', stage) := Step(others(call)(w), t, answers(call));
      RunAmid(w', Task(t.id, stage), answers, others)
  }

  /** The world a handler leaves that makes it through n calls. */
  function Partly(w: World, t: Task, answers: Call -> Answer, others: Others, n: nat): World
    decreases n
  {
    if n == 0 || t.stage.Finished? then w
    else
      var call := CallOf(t.stage);
      var (w', stage) := Step(others(call)(w), t, answers(call));
      Partly(w', Task(t.id, stage), answers, others, n - 1)
  }

  function HandleTransferExecute(id: Id, a: Attempt): Handler<Seen> {
    (s: Seen, ctx: Context) =>
      if !a.decodable then (s, Returned(SkipRetry))
      else if a.panicAfter.Some? then
        (s.(world := Partly(s.world, Task(id, ReadTransfer), a.answers, a.others, a.panicAfter.value)), Panicked)
      else
        var (w, e) := RunAmid(s.world, Task(id, ReadTransfer), a.answers, a.others);
        (s.(world := w), Returned(e))
  }

  function HandleTransferExhausted(id: Id, a: Attempt): ExhaustedFunc<Seen> {
    (s: Seen, ctx: Context, cause: TaskError) =>
      Seen(RunAmid(s.world, Task(id, ReadExhausted), a.hookAnswers, a.hookOthers).0, s.hooks + 1)
  }

  /** The handler as it is registered. */
  function Registered(id: Id, a: Attempt): Handler<Seen> {
    Wrapped(HandleTransferExecute(id, a), [Logging(), OnRetriesExhausted(HandleTransferExhausted(id, a)), Recover()])
  }

  datatype Life = Life(world: World, retried: nat, stopped: bool, hooks: nat)

  /** The queue stops a task that succeeds, asks not to be retried, or has no retry left. */
  function Attempted(id: Id, maxRetry: nat, life: Life, a: Attempt): Life {
    var (s, o) := Registered(id, a)(Seen(life.world, life.hooks), Context(Some(life.retried), Some(maxRetry)));
    var again := Failed(o) && life.retried < maxRetry;
    Life(s.world, if again then life.retried + 1 else life.retried, !again, s.hooks)
  }

  function Live(id: Id, maxRetry: nat, life: Life, attempts: seq<Attempt>): Life
    decreases |attempts|
  {
    if attempts == [] || life.stopped then life
    else Live(id, maxRetry, Attempted(id, maxRetry, life, attempts[0]), attempts[1..])
  }

  // ---- One attempt of the handler

  predicate IsPending(w: World, id: Id) {
    id in w.transfers && w.transfers[id].status == PENDING
  }

  predicate Resolved(w: World, id: Id) {
    id in w.transfers && w.transfers[id].status != PENDING
  }

  predicate WalletsPresent(w: World, row: TransferRow) {
    row.sender in w.wallets && row.recipient in w.wallets
  }

  predicate SameParties(a: TransferRow, b: TransferRow) {
    a.sender == b.sender && a.recipient == b.recipient
  }

  /** The handler says Ok, or asks not to be retried, only for a resolved row or a missing wallet. */
  predicate Excused(w: World, id: Id, e: TaskError)
    requires id in w.transfers
  {
    && (e == Ok ==> Resolved(w, id))
    && (e == SkipRetry ==> Resolved(w, id) || !WalletsPresent(w, w.transfers[id]))
  }

  /** A task on its way through the handler. */
  predicate OnItsWay(w: World, t: Task)
    requires t.id in w.transfers
  {
    match t.stage
    case ReadTransfer => true
    case ReadSender(seen) => SameParties(seen, w.transfers[t.id])
    case ReadRecipient(seen, _) => SameParties(seen, w.transfers[t.id])
    case ReadExhausted => false
    case LookUpEntry => false
    case Finished(e) => Excused(w, t.id, e)
    case _ => true
  }

  lemma StepOnItsWay(w: World, t: Task, a: Answer)
    requires t.id in w.transfers && OnItsWay(w, t)
    ensures var (w', s') := Step(w, t, a);
            && t.id in w'.transfers && SameParties(w'.transfers[t.id], w.transfers[t.id]) && w'.wallets == w.wallets
            && OnItsWay(w', Task(t.id, s'))
  {
    hide EnsureAccounts, Submit, TransferRequest;
  }

  /** Others may change wallets, the ledger and other rows, and may resolve this one; they do not take the
      row or its wallets away. */
  ghost predicate Mild(id: Id, other: World -> World) {
    forall w: World :: id in w.transfers ==> Gentle(id, w, other(w))
  }

  predicate Gentle(id: Id, w: World, w': World)
    requires id in w.transfers
  {
    && id in w'.transfers && SameParties(w'.transfers[id], w.transfers[id])
    && (WalletsPresent(w, w.transfers[id]) ==> WalletsPresent(w', w'.transfers[id]))
    && (Resolved(w, id) ==> Resolved(w', id))
  }

  ghost predicate AllMild(id: Id, others: Others) {
    forall call :: Mild(id, others(call))
  }

  /** Nobody deletes a wallet row. */
  predicate KeepsWallets(events: seq<Event>) {
    forall i :: 0 <= i < |events| ==> events[i].WalletChanges? ==> events[i].attributes.Some?
  }

  lemma StepKeepsWallets(w: World, t: Task, a: Answer)
    ensures Step(w, t, a).0.wallets == w.wallets
  {
    hide EnsureAccounts, Submit;
  }

  lemma EventIsGentle(c: Config, e: Event, id: Id)
    requires TransferSafety.ConfigOk(c) && id in c.world.transfers && KeepsWallets([e])
    ensures Gentle(id, c.world, Exec(c, e).world)
  {
    hide Step, Perform, TransferSafety.WorldOk;
    TransferSafety.EventWorld(c, e);
    assert e == [e][0];
    if Enabled(c, e) && e.Deliver? {
      StepKeepsWallets(c.world, c.tasks[e.k], e.answer);
    }
  }

  /** What any tasks and events of the machine do, wallets being kept, is of this kind. */
  lemma {:induction false} RunIsGentle(c: Config, events: seq<Event>, id: Id)
    requires TransferSafety.ConfigOk(c) && id in c.world.transfers && KeepsWallets(events)
    ensures Gentle(id, c.world, Run(c, events).world)
    decreases |events|
  {
    hide Exec, TransferSafety.ConfigOk, Gentle;
    if events == [] {
      SameIsGentle(id, c.world);
    } else {
      assert [events[0]][0] == events[0];
      var c1 := Exec(c, events[0]);
      EventIsGentle(c, events[0], id);
      TransferSafety.ExecKeeps(c, events[0]);
      GentleKeepsRow(id, c.world, c1.world);
      RunIsGentle(c1, events[1..], id);
      GentleTwice(id, c.world, c1.world, Run(c1, events[1..]).world);
    }
  }

  lemma SameIsGentle(id: Id, w: World)
    requires id in w.transfers
    ensures Gentle(id, w, w)
  {
  }

  lemma GentleKeepsRow(id: Id, w: World, w': World)
    requires id in w.transfers && Gentle(id, w, w')
    ensures id in w'.transfers
  {
  }

  /** How far an execute task is in a run: on its way, or over with what its error says. */
  predicate Follows(w: World, t: Task)
    requires t.id in w.transfers
  {
    if t.stage.Finished? then t.stage.error in {Ok, SkipRetry} ==> Resolved(w, t.id) else OnItsWay(w, t)
  }

  lemma FollowsThrough(w: World, w': World, t: Task)
    requires t.id in w.transfers && Follows(w, t) && Gentle(t.id, w, w')
    ensures Follows(w', t)
  {
    if !t.stage.Finished? {
      StaysOnItsWay(w, w', t);
    }
  }

  lemma StepFollows(w: World, t: Task, a: Answer)
    requires t.id in w.transfers && WalletsPresent(w, w.transfers[t.id]) && Follows(w, t)
    ensures var (w', s') := Step(w, t, a); t.id in w'.transfers && Follows(w', Task(t.id, s'))
  {
    if !t.stage.Finished? {
      StepOnItsWay(w, t, a);
    }
    hide Step;
  }

  lemma EventFollows(c: Config, e: Event, k: nat)
    requires TransferSafety.ConfigOk(c) && KeepsWallets([e]) && k < |c.tasks| && c.tasks[k].id in c.world.transfers
    requires WalletsPresent(c.world, c.world.transfers[c.tasks[k].id]) && Follows(c.world, c.tasks[k])
    ensures var c' := Exec(c, e);
            && k < |c'.tasks| && c'.tasks[k].id == c.tasks[k].id && c.tasks[k].id in c'.world.transfers
            && WalletsPresent(c'.world, c'.world.transfers[c.tasks[k].id]) && Follows(c'.world, c'.tasks[k])
  {
    hide TransferSafety.ConfigOk, Step, Perform, OnItsWay;
    EventIsGentle(c, e, c.tasks[k].id);
    if Enabled(c, e) && e.Deliver? && e.k == k {
      StepFollows(c.world, c.tasks[k], e.answer);
    } else if Enabled(c, e) && e.Crash? && e.k == k {
    } else {
      FollowsThrough(c.world, Exec(c, e).world, c.tasks[k]);
    }
  }

  /** In every run that deletes no wallet, an execute task that has ended with Ok, or asking not to be
      retried, has left its row SUCCESS or FAILED, however other tasks were interleaved. */
  lemma {:induction false} ExecuteResolvesInEveryRun(c: Config, events: seq<Event>, k: nat)
    requires TransferSafety.ConfigOk(c) && KeepsWallets(events) && k < |c.tasks| && c.tasks[k].id in c.world.transfers
    requires WalletsPresent(c.world, c.world.transfers[c.tasks[k].id]) && Follows(c.world, c.tasks[k])
    ensures var c' := Run(c, events);
            && k < |c'.tasks| && c'.tasks[k].id == c.tasks[k].id
            && (c'.tasks[k].stage in {Finished(Ok), Finished(SkipRetry)} ==> Resolved(c'.world, c.tasks[k].id))
    decreases |events|
  {
    hide TransferSafety.ConfigOk, Exec, OnItsWay, WalletsPresent;
    if events != [] {
      assert [events[0]][0] == events[0];
      EventFollows(c, events[0], k);
      TransferSafety.ExecKeeps(c, events[0]);
      ExecuteResolvesInEveryRun(Exec(c, events[0]), events[1..], k);
    }
  }

  /** A task that has just begun follows. */
  lemma ExecuteBegins(w: World, id: Id)
    requires id in w.transfers
    ensures Follows(w, Task(id, ReadTransfer))
  {
  }

  lemma StaysOnItsWay(w: World, w': World, t: Task)
    requires t.id in w.transfers && OnItsWay(w, t) && Gentle(t.id, w, w') && !t.stage.Finished?
    ensures OnItsWay(w', t)
  {
  }

  lemma StepIsGentle(w: World, t: Task, a: Answer)
    requires t.id in w.transfers
    ensures Gentle(t.id, w, Step(w, t, a).0) && Step(w, t, a).0.wallets == w.wallets
  {
    hide EnsureAccounts, Submit, TransferRequest;
  }

  lemma AmidStep(w: World, t: Task, a: Answer, other: World -> World)
    requires t.id in w.transfers && OnItsWay(w, t) && Mild(t.id, other) && !t.stage.Finished?
    ensures var (w', s') := Step(other(w), t, a);
            Gentle(t.id, w, w') && OnItsWay(w', Task(t.id, s'))
  {
    hide Step, OnItsWay;
    StaysOnItsWay(w, other(w), t);
    StepOnItsWay(other(w), t, a);
    StepIsGentle(other(w), t, a);
  }

  /** With others acting before every call, the handler still says Ok only for a resolved row, and asks
      not to be retried only for a resolved row or a missing wallet. */
  lemma {:induction false} AmidResolves(w: World, t: Task, answers: Call -> Answer, others: Others)
    requires t.id in w.transfers && OnItsWay(w, t) && AllMild(t.id, others)
    ensures var (w', e) := RunAmid(w, t, answers, others);
            Gentle(t.id, w, w') && Excused(w', t.id, e)
    decreases Ahead(t.stage)
  {
    hide Step, Mild;
    if !t.stage.Finished? {
      var call := CallOf(t.stage);
      StepAdvances(others(call)(w), t, answers(call));
      AmidStep(w, t, answers(call), others(call));
      var (w', s') := Step(others(call)(w), t, answers(call));
      AmidResolves(w', Task(t.id, s'), answers, others);
    }
  }

  lemma {:induction false} PartlyKeeps(w: World, t: Task, answers: Call -> Answer, others: Others, n: nat)
    requires t.id in w.transfers && OnItsWay(w, t) && AllMild(t.id, others)
    ensures Gentle(t.id, w, Partly(w, t, answers, others, n))
    decreases n
  {
    hide Step, Mild;
    if n > 0 && !t.stage.Finished? {
      var call := CallOf(t.stage);
      AmidStep(w, t, answers(call), others(call));
      var (w', s') := Step(others(call)(w), t, answers(call));
      PartlyKeeps(w', Task(t.id, s'), answers, others, n - 1);
    }
  }

  /** Nobody else acts. */
  ghost predicate Quiet(others: Others) {
    forall call, w :: others(call)(w) == w
  }

  /** Undisturbed, the calls are one uninterrupted run of the machine. */
  lemma {:induction false} QuietIsAlone(w: World, t: Task, answers: Call -> Answer, others: Others)
    requires Quiet(others)
    ensures RunAmid(w, t, answers, others) == RunAlone(w, t, answers)
    decreases Ahead(t.stage)
  {
    hide Step;
    if !t.stage.Finished? {
      var a := answers(CallOf(t.stage));
      StepAdvances(w, t, a);
      var (w', s') := Step(w, t, a);
      QuietIsAlone(w', Task(t.id, s'), answers, others);
    }
  }

  // ---- The exhaustion hook

  /** The hook's update takes effect: it hears of the row and of the ledger, and writes. */
  predicate HookLands(w: World, id: Id, answers: Call -> Answer) {
    && Heard(answers(GetExhausted)) && Heard(answers(LookupTransfers))
    && answers(if HasMoved(w, id) then UpdateSucceeded else UpdateFailed).delivery != LostBefore
  }

  lemma CloseLands(w: World, id: Id, stage: Stage, answers: Call -> Answer)
    requires IsPending(w, id) && (stage.CloseSucceeded? || stage.CloseFailed?)
    ensures var w' := RunAlone(w, Task(id, stage), answers).0;
            && id in w'.transfers && SameParties(w'.transfers[id], w.transfers[id]) && w'.wallets == w.wallets
            && (IsPending(w', id) <==> answers(CallOf(stage)).delivery == LostBefore)
  {
    hide RunAlone, EnsureAccounts, Submit, Find;
    Onward(w, Task(id, stage), answers);
    var (w', s') := Step(w, Task(id, stage), answers(CallOf(stage)));
    Over(w', id, s'.error, answers);
  }

  /** The hook leaves a pending row pending exactly when one of its calls does not get through. */
  lemma HookExactly(w: World, id: Id, answers: Call -> Answer)
    requires id in w.transfers
    ensures var w' := RunAlone(w, Task(id, ReadExhausted), answers).0;
            && id in w'.transfers && SameParties(w'.transfers[id], w.transfers[id]) && w'.wallets == w.wallets
            && (IsPending(w', id) <==> IsPending(w, id) && !HookLands(w, id, answers))
  {
    hide RunAlone, EnsureAccounts, Submit, Find;
    Onward(w, Task(id, ReadExhausted), answers);
    var s1 := AfterExhausted(w, id, answers(GetExhausted));
    if s1.Finished? {
      Over(w, id, Ok, answers);
    } else {
      Onward(w, Task(id, LookUpEntry), answers);
      var s2 := AfterLookup(w, id, answers(LookupTransfers));
      if s2.Finished? {
        Over(w, id, Ok, answers);
      } else {
        CloseLands(w, id, s2, answers);
      }
    }
  }

  /** With others acting before its calls: what keeps the hook from resolving the row. Either nobody has by
      the time its last call is made, and that call does not get through, or there is no row to find. */
  predicate HookMisses(w: World, id: Id, answers: Call -> Answer, others: Others) {
    var w1 := others(GetExhausted)(w);
    if !Heard(answers(GetExhausted)) || !IsPending(w1, id) then IsPending(w1, id)
    else
      var w2 := others(LookupTransfers)(w1);
      if !Heard(answers(LookupTransfers)) then IsPending(w2, id)
      else
        var call := if HasMoved(w2, id) then UpdateSucceeded else UpdateFailed;
        IsPending(others(call)(w2), id) && answers(call).delivery == LostBefore
  }

  lemma AmidOnward(w: World, t: Task, answers: Call -> Answer, others: Others)
    requires !t.stage.Finished?
    ensures var call := CallOf(t.stage);
            var (w', s') := Step(others(call)(w), t, answers(call));
            RunAmid(w, t, answers, others) == RunAmid(w', Task(t.id, s'), answers, others)
  {
    hide Step;
  }

  lemma AmidOver(w: World, id: Id, e: TaskError, answers: Call -> Answer, others: Others)
    ensures RunAmid(w, Task(id, Finished(e)), answers, others) == (w, e)
  {
  }

  lemma AmidCloses(w: World, id: Id, stage: Stage, answers: Call -> Answer, others: Others)
    requires stage.CloseSucceeded? || stage.CloseFailed?
    ensures var call := CallOf(stage);
            IsPending(RunAmid(w, Task(id, stage), answers, others).0, id)
            <==> IsPending(others(call)(w), id) && answers(call).delivery == LostBefore
  {
    hide RunAmid, EnsureAccounts, Submit, Find;
    var call := CallOf(stage);
    AmidOnward(w, Task(id, stage), answers, others);
    var (w', s') := Step(others(call)(w), Task(id, stage), answers(call));
    AmidOver(w', id, s'.error, answers, others);
  }

  /** Whatever others do between its calls, the hook leaves the row pending exactly when it misses. */
  lemma HookAmidExactly(w: World, id: Id, answers: Call -> Answer, others: Others)
    ensures IsPending(RunAmid(w, Task(id, ReadExhausted), answers, others).0, id)
            <==> HookMisses(w, id, answers, others)
  {
    hide RunAmid, EnsureAccounts, Submit, Find;
    AmidOnward(w, Task(id, ReadExhausted), answers, others);
    var w1 := others(GetExhausted)(w);
    var s1 := AfterExhausted(w1, id, answers(GetExhausted));
    if s1.Finished? {
      AmidOver(w1, id, Ok, answers, others);
    } else {
      AmidOnward(w1, Task(id, LookUpEntry), answers, others);
      var w2 := others(LookupTransfers)(w1);
      var s2 := AfterLookup(w2, id, answers(LookupTransfers));
      if s2.Finished? {
        AmidOver(w2, id, Ok, answers, others);
      } else {
        AmidCloses(w2, id, s2, answers, others);
      }
    }
  }

  /** With others acting before its calls, a hook whose calls get through leaves the row resolved. */
  predicate HookAnswered(answers: Call -> Answer) {
    && Heard(answers(GetExhausted)) && Heard(answers(LookupTransfers))
    && answers(UpdateSucceeded).delivery != LostBefore && answers(UpdateFailed).delivery != LostBefore
  }

  predicate OnHook(w: World, t: Task)
    requires t.id in w.transfers
  {
    match t.stage
    case ReadExhausted => true
    case LookUpEntry => true
    case CloseSucceeded => true
    case CloseFailed(_, _) => true
    case Finished(_) => Resolved(w, t.id)
    case _ => false
  }

  lemma HookStep(w: World, t: Task, answers: Call -> Answer, other: World -> World)
    requires t.id in w.transfers && OnHook(w, t) && !t.stage.Finished? && HookAnswered(answers) && Mild(t.id, other)
    ensures var (w', s') := Step(other(w), t, answers(CallOf(t.stage)));
            Gentle(t.id, w, w') && OnHook(w', Task(t.id, s'))
  {
    hide Find, EnsureAccounts, Submit, HookAnswered, Mild, Gentle;
    MildIsGentle(t.id, other, w);
    var w1 := other(w);
    GentleHook(w, w1, t);
    HookStepAlone(w1, t, answers);
    GentleTwice(t.id, w, w1, Step(w1, t, answers(CallOf(t.stage))).0);
  }

  lemma MildIsGentle(id: Id, other: World -> World, w: World)
    requires Mild(id, other) && id in w.transfers
    ensures Gentle(id, w, other(w)) && id in other(w).transfers
  {
  }

  lemma GentleHook(w: World, w': World, t: Task)
    requires t.id in w.transfers && OnHook(w, t) && Gentle(t.id, w, w') && !t.stage.Finished?
    ensures t.id in w'.transfers && OnHook(w', t)
  {
  }

  lemma GentleTwice(id: Id, a: World, b: World, c: World)
    requires id in a.transfers && Gentle(id, a, b) && id in b.transfers && Gentle(id, b, c)
    ensures Gentle(id, a, c)
  {
  }

  lemma HookStepAlone(w: World, t: Task, answers: Call -> Answer)
    requires t.id in w.transfers && OnHook(w, t) && !t.stage.Finished? && HookAnswered(answers)
    ensures var (w', s') := Step(w, t, answers(CallOf(t.stage)));
            Gentle(t.id, w, w') && OnHook(w', Task(t.id, s'))
  {
    hide Find, EnsureAccounts, Submit;
  }

  lemma {:induction false} HookResolves(w: World, t: Task, answers: Call -> Answer, others: Others)
    requires t.id in w.transfers && OnHook(w, t) && HookAnswered(answers) && AllMild(t.id, others)
    ensures var w' := RunAmid(w, t, answers, others).0;
            Gentle(t.id, w, w') && Resolved(w', t.id)
    decreases Ahead(t.stage)
  {
    hide Step, Mild, HookAnswered;
    if !t.stage.Finished? {
      var call := CallOf(t.stage);
      StepAdvances(others(call)(w), t, answers(call));
      HookStep(w, t, answers, others(call));
      var (w', s') := Step(others(call)(w), t, answers(call));
      HookResolves(w', Task(t.id, s'), answers, others);
    }
  }

  // ---- One attempt as the queue sees it

  /** The attempt of the handler itself, before any hook. */
  function Handled(id: Id, life: Life, a: Attempt): (Seen, Outcome) {
    HandleTransferExecute(id, a)(Seen(life.world, life.hooks), Context(Some(life.retried), None))
  }

  lemma AttemptedCases(id: Id, maxRetry: nat, life: Life, a: Attempt)
    ensures var (s, o) := Handled(id, life, a);
            var last := life.retried >= maxRetry;
            var hooked := RunAmid(s.world, Task(id, ReadExhausted), a.hookAnswers, a.hookOthers).0;
            Attempted(id, maxRetry, life, a)
            == if Failed(o) && last then Life(hooked, life.retried, true, s.hooks + 1)
               else Life(s.world, if Failed(o) then life.retried + 1 else life.retried, !Failed(o), s.hooks)
  {
    hide RunAmid, Partly;
    HookRunsExactly(HandleTransferExecute(id, a), HandleTransferExhausted(id, a),
                    Seen(life.world, life.hooks), Context(Some(life.retried), Some(maxRetry)));
  }

  lemma HandledExcused(id: Id, life: Life, a: Attempt)
    requires id in life.world.transfers && AllMild(id, a.others)
    ensures var (s, o) := Handled(id, life, a);
            && Gentle(id, life.world, s.world) && s.hooks == life.hooks
            && (a.decodable && o.Returned? ==> Excused(s.world, id, o.error))
            && (!a.decodable ==> o == Returned(SkipRetry))
  {
    hide RunAmid, Partly, Mild;
    AmidResolves(life.world, Task(id, ReadTransfer), a.answers, a.others);
    if a.panicAfter.Some? {
      PartlyKeeps(life.world, Task(id, ReadTransfer), a.answers, a.others, a.panicAfter.value);
    }
  }

  /** An attempt, others acting before every call of its handler and of the hook, ends the task with its row
      still pending if and only if the handler left it pending and asked not to be retried, or failed for
      the last time and the hook misses. With a readable payload it asks that only if a wallet is gone. */
  lemma EndsPendingExactly(id: Id, maxRetry: nat, life: Life, a: Attempt)
    requires id in life.world.transfers && AllMild(id, a.others)
    ensures var (s, o) := Handled(id, life, a);
            var life' := Attempted(id, maxRetry, life, a);
            && (life'.stopped && IsPending(life'.world, id) <==>
                  || (o == Returned(SkipRetry) && IsPending(s.world, id))
                  || (Failed(o) && life.retried >= maxRetry && HookMisses(s.world, id, a.hookAnswers, a.hookOthers)))
            && (o == Returned(SkipRetry) && IsPending(s.world, id) && a.decodable ==>
                  id in s.world.transfers && !WalletsPresent(s.world, s.world.transfers[id]))
  {
    hide RunAmid, Partly, Attempted, Handled, HookMisses;
    HandledExcused(id, life, a);
    AttemptedCases(id, maxRetry, life, a);
    HookAmidExactly(Handled(id, life, a).0.world, id, a.hookAnswers, a.hookOthers);
  }

  /** Undisturbed, the hook misses a pending row exactly when it does not get through. */
  lemma QuietHookMisses(w: World, id: Id, answers: Call -> Answer, others: Others)
    requires Quiet(others)
    ensures HookMisses(w, id, answers, others) <==> IsPending(w, id) && !HookLands(w, id, answers)
  {
  }

  // ---- The same, foreseen from the row, the wallets, the ledger and the answers

  /** A wallet is found missing: the handler gives the task up and leaves the row as it is. */
  predicate GivesUp(w: World, id: Id, answers: Call -> Answer)
    requires id in w.transfers
  {
    var row := w.transfers[id];
    && Heard(answers(GetTransfer)) && Heard(answers(GetSender))
    && (row.sender !in w.wallets || (Heard(answers(GetRecipient)) && row.recipient !in w.wallets))
  }

  /** Of a handler that has read both wallets: its update does not take effect, or it makes none. */
  predicate DoesNotClose(w: World, id: Id, sender: Wallet, recipient: Wallet, answers: Call -> Answer)
    requires id in w.transfers
  {
    match AfterWallets(id, w.transfers[id], sender, recipient)
    case CloseFailed(_, _) => answers(UpdateFailed).delivery == LostBefore
    case _ =>
      match InternalTransfer(w.cluster, ParamFor(id, w.transfers[id], sender, recipient),
        TransferWorker.TransferWeather(answers)).1
      case NoError => answers(UpdateSucceeded).delivery == LostBefore
      case Unavailable => true
      case _ => answers(UpdateFailed).delivery == LostBefore
  }

  /** The handler, undisturbed, leaves a pending row pending. */
  predicate LeavesPending(w: World, id: Id, answers: Call -> Answer)
    requires id in w.transfers
  {
    var row := w.transfers[id];
    || !Heard(answers(GetTransfer)) || !Heard(answers(GetSender)) || row.sender !in w.wallets
    || !Heard(answers(GetRecipient)) || row.recipient !in w.wallets
    || DoesNotClose(w, id, w.wallets[row.sender], w.wallets[row.recipient], answers)
  }

  lemma ClosingForeseen(w: World, id: Id, sender: Wallet, recipient: Wallet, answers: Call -> Answer)
    requires IsPending(w, id)
    ensures var stage := AfterWallets(id, w.transfers[id], sender, recipient);
            IsPending(RunAlone(w, Task(id, stage), answers).0, id) <==> DoesNotClose(w, id, sender, recipient, answers)
  {
    hide RunAlone, InternalTransfer, TransferRequest, EqualFold;
    var row, p := w.transfers[id], ParamFor(id, w.transfers[id], sender, recipient);
    var stage := AfterWallets(id, row, sender, recipient);
    if stage.CloseFailed? {
      CloseLands(w, id, stage, answers);
    } else {
      var (cluster, e) := InternalTransfer(w.cluster, p, TransferWorker.TransferWeather(answers));
      TransferWorker.TransferAlone(w, id, row, TransferRequest(p).1.value, p, answers);
      var next := AfterLedger(e, CloseSucceeded);
      if next.Finished? {
        Over(w.(cluster := cluster), id, Transient, answers);
      } else {
        CloseLands(w.(cluster := cluster), id, next, answers);
      }
    }
  }

  lemma LeavesPendingExactly(w: World, id: Id, answers: Call -> Answer)
    requires IsPending(w, id)
    ensures var (w', e) := RunAlone(w, Task(id, ReadTransfer), answers);
            && (IsPending(w', id) <==> LeavesPending(w, id, answers))
            && (GivesUp(w, id, answers) ==> w' == w && e == SkipRetry)
            && (!WalletsPresent(w, w.transfers[id]) && !GivesUp(w, id, answers) ==> e == Transient)
  {
    hide RunAlone, AfterWallets, DoesNotClose;
    var row := w.transfers[id];
    Onward(w, Task(id, ReadTransfer), answers);
    if !Heard(answers(GetTransfer)) {
      Over(w, id, Transient, answers);
    } else {
      Onward(w, Task(id, ReadSender(row)), answers);
      if !Heard(answers(GetSender)) || row.sender !in w.wallets {
        Over(w, id, if Heard(answers(GetSender)) then SkipRetry else Transient, answers);
      } else {
        Onward(w, Task(id, ReadRecipient(row, w.wallets[row.sender])), answers);
        if !Heard(answers(GetRecipient)) || row.recipient !in w.wallets {
          Over(w, id, if Heard(answers(GetRecipient)) then SkipRetry else Transient, answers);
        } else {
          ClosingForeseen(w, id, w.wallets[row.sender], w.wallets[row.recipient], answers);
        }
      }
    }
  }

  /** Undisturbed and without a panic, an attempt on a pending row ends the task with the row still pending
      if and only if it finds a wallet missing, or it is the last, leaves the row pending, and the hook's
      calls do not get through. */
  lemma EndsPendingForeseen(id: Id, maxRetry: nat, life: Life, a: Attempt)
    requires IsPending(life.world, id) && a.decodable && a.panicAfter.None? && Quiet(a.others) && Quiet(a.hookOthers)
    ensures var life' := Attempted(id, maxRetry, life, a);
            var after := RunAlone(life.world, Task(id, ReadTransfer), a.answers).0;
            life'.stopped && IsPending(life'.world, id)
            <==> || GivesUp(life.world, id, a.answers)
                 || (life.retried >= maxRetry && LeavesPending(life.world, id, a.answers)
                     && !HookLands(after, id, a.hookAnswers))
  {
    hide RunAmid, RunAlone, HookLands, HookMisses, GivesUp, LeavesPending, Attempted, WalletsPresent;
    QuietIsMild(id, a.others);
    QuietHookMisses(Handled(id, life, a).0.world, id, a.hookAnswers, a.hookOthers);
    EndsPendingExactly(id, maxRetry, life, a);
    HandledExcused(id, life, a);
    QuietIsAlone(life.world, Task(id, ReadTransfer), a.answers, a.others);
    LeavesPendingExactly(life.world, id, a.answers);
  }

  lemma QuietIsMild(id: Id, others: Others)
    requires Quiet(others)
    ensures AllMild(id, others)
  {
  }

  // ---- The whole task

  /** What holds of a task between attempts: its hook has run at most once, and then it is over. */
  predicate LifeOk(maxRetry: nat, life: Life) {
    && life.retried <= maxRetry
    && life.hooks <= 1
    && (life.hooks == 1 ==> life.stopped)
  }

  lemma AttemptedOk(id: Id, maxRetry: nat, life: Life, a: Attempt)
    requires LifeOk(maxRetry, life) && !life.stopped
    ensures var life' := Attempted(id, maxRetry, life, a);
            LifeOk(maxRetry, life') && (life'.stopped || life'.retried == life.retried + 1)
  {
    hide RunAmid, Partly, Attempted;
    AttemptedCases(id, maxRetry, life, a);
  }

  /** A task is attempted at most maxRetry + 1 times, and its hook runs at most once. */
  lemma {:induction false} TaskEnds(id: Id, maxRetry: nat, life: Life, attempts: seq<Attempt>)
    requires LifeOk(maxRetry, life)
    ensures LifeOk(maxRetry, Live(id, maxRetry, life, attempts))
    ensures |attempts| > maxRetry - life.retried ==> Live(id, maxRetry, life, attempts).stopped
    decreases |attempts|
  {
    hide Attempted;
    if attempts != [] && !life.stopped {
      AttemptedOk(id, maxRetry, life, attempts[0]);
      TaskEnds(id, maxRetry, Attempted(id, maxRetry, life, attempts[0]), attempts[1..]);
    }
  }

  /** The payload decodes, others are mild, and the hook gets through if it runs. */
  ghost predicate Fair(id: Id, a: Attempt) {
    a.decodable && AllMild(id, a.others) && AllMild(id, a.hookOthers) && HookAnswered(a.hookAnswers)
  }

  /** Its row and wallets are there; once the task is over the row is resolved. */
  predicate Sound(id: Id, life: Life) {
    && id in life.world.transfers && WalletsPresent(life.world, life.world.transfers[id])
    && (life.stopped ==> Resolved(life.world, id))
  }

  lemma AttemptedSound(id: Id, maxRetry: nat, life: Life, a: Attempt)
    requires Fair(id, a) && Sound(id, life) && !life.stopped
    ensures Sound(id, Attempted(id, maxRetry, life, a))
  {
    hide RunAmid, Partly, Attempted, Handled, HookAnswered, Mild;
    HandledExcused(id, life, a);
    AttemptedCases(id, maxRetry, life, a);
    HookResolves(Handled(id, life, a).0.world, Task(id, ReadExhausted), a.hookAnswers, a.hookOthers);
  }

  /** However its calls fail, replies are lost, handlers panic and others act in between: a transfer:execute
      task whose row and wallets exist is over within maxRetry + 1 attempts, and then its row is SUCCESS or
      FAILED. */
  lemma {:induction false} NothingIsLeftPending(id: Id, maxRetry: nat, life: Life, attempts: seq<Attempt>)
    requires Sound(id, life) && forall i :: 0 <= i < |attempts| ==> Fair(id, attempts[i])
    ensures Sound(id, Live(id, maxRetry, life, attempts))
    decreases |attempts|
  {
    hide Attempted, Sound, Fair;
    if attempts != [] && !life.stopped {
      AttemptedSound(id, maxRetry, life, attempts[0]);
      NothingIsLeftPending(id, maxRetry, Attempted(id, maxRetry, life, attempts[0]), attempts[1..]);
    }
  }

  lemma TransferTaskResolves(id: Id, w: World, attempts: seq<Attempt>)
    requires id in w.transfers && WalletsPresent(w, w.transfers[id])
    requires forall i :: 0 <= i < |attempts| ==> Fair(id, attempts[i])
    requires |attempts| >= 11
    ensures var life := Live(id, TRANSFER_MAX_RETRY, Life(w, 0, false, 0), attempts);
            life.stopped && Resolved(life.world, id) && life.hooks <= 1
  {
    hide Live;
    TaskEnds(id, TRANSFER_MAX_RETRY, Life(w, 0, false, 0), attempts);
    NothingIsLeftPending(id, TRANSFER_MAX_RETRY, Life(w, 0, false, 0), attempts);
  }
}
