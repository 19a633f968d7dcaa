/** Conservation, solvency and idempotence of the ledger, over every history of calls. */
module LedgerTheorems {
  import opened Common
  import opened LedgerModel
  import opened LedgerSafety
  import opened MapSum

  const EMPTY: Cluster := Cluster(map[], [])

  // ---- Debits equal credits on every currency ledger

  ghost function Nets(c: Cluster, ledger: nat): map<AccountId, int> {
    map a | a in c.accounts && c.accounts[a].spec.ledger == ledger :: c.accounts[a].credits - c.accounts[a].debits
  }

  lemma CreateAccountConserves(c: Cluster, id: AccountId, spec: AccountSpec, ledger: nat)
    ensures Sum(Nets(CreateAccount(c, id, spec).0, ledger)) == Sum(Nets(c, ledger))
  {
    var c' := CreateAccount(c, id, spec).0;
    if id !in c.accounts && spec.ledger == ledger {
      assert Nets(c', ledger) == Nets(c, ledger)[id := 0];
      SumUpdate(Nets(c, ledger), id, 0);
    } else {
      assert Nets(c', ledger) == Nets(c, ledger);
    }
  }

  lemma EnsureAccountsConserves(c: Cluster, l: nat, wallet: Id, d: Delivery, ledger: nat)
    ensures Sum(Nets(EnsureAccounts(c, l, wallet, d).0, ledger)) == Sum(Nets(c, ledger))
  {
    CreateAccountConserves(c, SettlementAccount(l), SettlementSpec(l), ledger);
    var c1 := CreateAccount(c, SettlementAccount(l), SettlementSpec(l)).0;
    CreateAccountConserves(c1, WalletAccount(wallet), WalletSpec(l), ledger);
  }

  lemma PostConserves(c: Cluster, t: Transfer, clock: nat, ledger: nat)
    requires Postable(c, t)
    ensures Sum(Nets(Post(c, t, clock), ledger)) == Sum(Nets(c, ledger))
  {
    var nets := Nets(c, ledger);
    if t.ledger == ledger {
      var debited := nets[t.debit := nets[t.debit] - t.amount];
      assert Nets(Post(c, t, clock), ledger) == debited[t.credit := nets[t.credit] + t.amount];
      SumUpdate(nets, t.debit, nets[t.debit] - t.amount);
      SumUpdate(debited, t.credit, nets[t.credit] + t.amount);
    } else {
      assert Nets(Post(c, t, clock), ledger) == nets;
    }
  }

  lemma SubmitConserves(c: Cluster, t: Transfer, overdraft: LedgerError, w: Weather, ledger: nat)
    ensures Sum(Nets(Submit(c, t, overdraft, w).0, ledger)) == Sum(Nets(c, ledger))
  {
    SubmitCases(c, t, overdraft, w);
    if Accepts(c, t, w) {
      PostConserves(c, t, w.clock, ledger);
    }
  }

  lemma PerformConserves(c: Cluster, call: Command, w: Weather, ledger: nat)
    ensures Sum(Nets(Perform(c, call, w).0, ledger)) == Sum(Nets(c, ledger))
  {
    match call
    case DepositCall(p) =>
      if DepositRequest(p).Some? {
        var t := DepositRequest(p).value;
        EnsureAccountsConserves(c, t.ledger, p.wallet, w.first, ledger);
        SubmitConserves(EnsureAccounts(c, t.ledger, p.wallet, w.first).0, t, Rejected, w, ledger);
      }
    case TransferCall(p) =>
      if TransferRequest(p).1.Some? {
        var t := TransferRequest(p).1.value;
        EnsureAccountsConserves(c, t.ledger, p.sender, w.first, ledger);
        var c1 := EnsureAccounts(c, t.ledger, p.sender, w.first).0;
        EnsureAccountsConserves(c1, t.ledger, p.recipient, w.second, ledger);
        SubmitConserves(EnsureAccounts(c1, t.ledger, p.recipient, w.second).0, t, InsufficientFunds, w, ledger);
      }
    case EnsureCall(wallet, currency) =>
      if LedgerForCurrency(currency).Some? {
        EnsureAccountsConserves(c, LedgerForCurrency(currency).value, wallet, w.first, ledger);
      }
  }

  lemma {:induction false} PerformAllConserves(c: Cluster, calls: seq<(Command, Weather)>, ledger: nat)
    ensures Sum(Nets(PerformAll(c, calls), ledger)) == Sum(Nets(c, ledger))
    decreases |calls|
  {
    if calls != [] {
      PerformConserves(c, calls[0].0, calls[0].1, ledger);
      PerformAllConserves(Perform(c, calls[0].0, calls[0].1).0, calls[1..], ledger);
    }
  }

  // ---- A wallet's balance, read off the entries

  function DepositsInto(log: seq<Posted>, wallet: Id): nat {
    if log == [] then 0
    else
      var t := log[|log| - 1].transfer;
      DepositsInto(log[..|log| - 1], wallet)
      + (if t.code == TRANSFER_DEPOSIT && t.credit == WalletAccount(wallet) then t.amount else 0)
  }

  function ReceivedBy(log: seq<Posted>, wallet: Id): nat {
    if log == [] then 0
    else
      var t := log[|log| - 1].transfer;
      ReceivedBy(log[..|log| - 1], wallet)
      + (if t.code == TRANSFER_INTERNAL && t.credit == WalletAccount(wallet) then t.amount else 0)
  }

  function SentBy(log: seq<Posted>, wallet: Id): nat {
    if log == [] then 0
    else
      var t := log[|log| - 1].transfer;
      SentBy(log[..|log| - 1], wallet)
      + (if t.code == TRANSFER_INTERNAL && t.debit == WalletAccount(wallet) then t.amount else 0)
  }

  lemma {:induction false} PostedByKind(log: seq<Posted>, wallet: Id)
    requires forall i :: 0 <= i < |log| ==> EntryOk(log[i].transfer)
    ensures Credited(log, WalletAccount(wallet)) == DepositsInto(log, wallet) + ReceivedBy(log, wallet)
    ensures Debited(log, WalletAccount(wallet)) == SentBy(log, wallet)
  {
    if log != [] {
      PostedByKind(log[..|log| - 1], wallet);
      assert EntryOk(log[|log| - 1].transfer);
    }
  }

  /** After any history of deposits, transfers and wallet openings, with any replies lost:
      every currency's books balance, no id is posted twice, and every wallet holds exactly its
      deposits plus what it received minus what it sent, which is never negative. */
  lemma BooksBalance(calls: seq<(Command, Weather)>, ledger: nat, wallet: Id)
    ensures var c := PerformAll(EMPTY, calls);
            && Sum(Nets(c, ledger)) == 0
            && (forall i, j :: 0 <= i < j < |c.log| ==> c.log[i].transfer.id != c.log[j].transfer.id)
            && (WalletAccount(wallet) in c.accounts ==>
                  var a := c.accounts[WalletAccount(wallet)];
                  0 <= a.credits - a.debits
                    == DepositsInto(c.log, wallet) + ReceivedBy(c.log, wallet) - SentBy(c.log, wallet))
  {
    PerformAllKeeps(EMPTY, calls);
    PerformAllConserves(EMPTY, calls, ledger);
    assert Nets(EMPTY, ledger) == map[];
    PostedByKind(PerformAll(EMPTY, calls).log, wallet);
  }

  // ---- Submitting a posted call again

  /** The entry a call asks for. */
  function EntryOf(call: Command): Option<Transfer> {
    match call
    case DepositCall(p) => DepositRequest(p)
    case TransferCall(p) => TransferRequest(p).1
    case EnsureCall(_, _) => None
  }

  ghost predicate HasPosted(c: Cluster, call: Command) {
    EntryOf(call).Some? && Find(c.log, EntryOf(call).value.id) == EntryOf(call)
  }

  lemma {:induction false} EntryIsSettled(c: Cluster, id: Id)
    requires ClusterOk(c) && Find(c.log, id).Some?
    ensures Settled(c, Find(c.log, id).value) && EntryOk(Find(c.log, id).value)
  {
    FindIsMembership(c.log, id);
  }

  /** A call whose entry is posted does nothing the second time, and succeeds if its replies arrive. */
  lemma ResubmitIsFree(c: Cluster, call: Command, w: Weather)
    requires ClusterOk(c) && HasPosted(c, call)
    ensures Perform(c, call, w).0 == c
    ensures w.first == w.second == w.post == Replied ==> Perform(c, call, w).1 == NoError
  {
    EntryIsSettled(c, EntryOf(call).value.id);
  }

  lemma SubmittedIsPosted(c: Cluster, t: Transfer, overdraft: LedgerError, w: Weather)
    requires overdraft != NoError
    ensures Submit(c, t, overdraft, w).1 == NoError ==> Find(Submit(c, t, overdraft, w).0.log, t.id) == Some(t)
  {
    SubmittedEntries(c, t, overdraft, w, t.id);
  }

  /** Success means the entry is there, whatever happened before. */
  lemma SuccessMeansPosted(c: Cluster, call: Command, w: Weather)
    requires !call.EnsureCall?
    ensures Perform(c, call, w).1 == NoError ==> HasPosted(Perform(c, call, w).0, call)
  {
    hide Submit, Find, EnsureAccounts;
    match call
    case DepositCall(p) =>
      if DepositRequest(p).Some? {
        var t := DepositRequest(p).value;
        SubmittedIsPosted(EnsureAccounts(c, t.ledger, p.wallet, w.first).0, t, Rejected, w);
      }
    case TransferCall(p) =>
      if TransferRequest(p).1.Some? {
        var t := TransferRequest(p).1.value;
        var c2 := EnsureAccounts(EnsureAccounts(c, t.ledger, p.sender, w.first).0, t.ledger, p.recipient, w.second).0;
        SubmittedIsPosted(c2, t, InsufficientFunds, w);
      }
  }

  lemma {:induction false} PerformAllSplits(c: Cluster, a: seq<(Command, Weather)>, b: seq<(Command, Weather)>)
    ensures PerformAll(c, a + b) == PerformAll(PerformAll(c, a), b)
    decreases |a|
  {
    if a == [] {
      assert a + b == b;
    } else {
      assert (a + b)[1..] == a[1..] + b;
      PerformAllSplits(Perform(c, a[0].0, a[0].1).0, a[1..], b);
    }
  }

  lemma PerformAllFirst(c: Cluster, call: Command, w: Weather, rest: seq<(Command, Weather)>)
    ensures PerformAll(c, [(call, w)] + rest) == PerformAll(Perform(c, call, w).0, rest)
  {
    hide Perform;
    assert ([(call, w)] + rest)[1..] == rest;
  }

  lemma StillPosted(c: Cluster, c': Cluster, call: Command)
    requires HasPosted(c, call) && Extends(c, c')
    ensures HasPosted(c', call)
  {
    hide Find, EntryOf;
  }

  /** Once a call has posted, submitting it once more, at any later point of any history and
      with any replies lost, leaves the same cluster as not submitting it. */
  lemma ExtraSubmissionChangesNothing(
    calls: seq<(Command, Weather)>, call: Command, w: Weather,
    between: seq<(Command, Weather)>, again: Weather, rest: seq<(Command, Weather)>)
    requires HasPosted(PerformAll(EMPTY, calls + [(call, w)]), call)
    ensures PerformAll(EMPTY, calls + [(call, w)] + between + [(call, again)] + rest)
            == PerformAll(EMPTY, calls + [(call, w)] + between + rest)
  {
    hide PerformAll, Perform, Extends, HasPosted, ClusterOk;
    var first := calls + [(call, w)];
    var posted := PerformAll(EMPTY, first);
    var c := PerformAll(posted, between);
    NothingYetIsOk();
    PerformAllKeeps(EMPTY, first);
    PerformAllKeeps(posted, between);
    StillPosted(posted, c, call);
    ResubmitIsFree(c, call, again);
    PerformAllSplits(EMPTY, first, between);
    PerformAllSplits(EMPTY, first + between, [(call, again)] + rest);
    PerformAllSplits(EMPTY, first + between, rest);
    PerformAllFirst(c, call, again, rest);
    assert first + between + [(call, again)] + rest == first + between + ([(call, again)] + rest);
  }

  lemma NothingYetIsOk()
    ensures ClusterOk(EMPTY)
  {
  }
}
