/** What every history of deposits and transfers, however often retried, leaves in the cluster. */
module LedgerSafety {
  import opened Common
  import opened LedgerModel

  // ---- The log as a function of what was appended

  lemma {:induction false} FindIsMembership(log: seq<Posted>, id: Id)
    ensures Find(log, id).Some? ==>
      exists i :: 0 <= i < |log| && log[i].transfer == Find(log, id).value && log[i].transfer.id == id
    ensures Find(log, id).None? ==> forall i :: 0 <= i < |log| ==> log[i].transfer.id != id
  {
    if log != [] {
      FindIsMembership(log[..|log| - 1], id);
    }
  }

  lemma Appended(log: seq<Posted>, p: Posted, id: Id, a: AccountId)
    ensures Find(log + [p], id) == if p.transfer.id == id then Some(p.transfer) else Find(log, id)
    ensures Debited(log + [p], a) == Debited(log, a) + (if p.transfer.debit == a then p.transfer.amount else 0)
    ensures Credited(log + [p], a) == Credited(log, a) + (if p.transfer.credit == a then p.transfer.amount else 0)
  {
    assert (log + [p])[..|log|] == log;
  }

  /** An account no entry names has nothing posted to it. */
  lemma {:induction false} UnnamedAccount(c: Cluster, log: seq<Posted>, a: AccountId)
    requires forall i :: 0 <= i < |log| ==> Postable(c, log[i].transfer)
    requires a !in c.accounts
    ensures Debited(log, a) == 0 && Credited(log, a) == 0
  {
    if log != [] {
      UnnamedAccount(c, log[..|log| - 1], a);
    }
  }

  // ---- One request

  lemma FreshAccountIsOk(c: Cluster, id: AccountId, spec: AccountSpec)
    requires ClusterOk(c) && SpecOk(id, spec) && id !in c.accounts
    ensures AccountsOk(c.(accounts := c.accounts[id := Account(spec, 0, 0)]))
  {
    UnnamedAccount(c, c.log, id);
    hide Debited, Credited;
  }

  lemma FreshAccountLeavesLog(c: Cluster, id: AccountId, spec: AccountSpec)
    requires LogOk(c) && id !in c.accounts
    ensures LogOk(c.(accounts := c.accounts[id := Account(spec, 0, 0)]))
  {
    hide EntryOk;
  }

  lemma CreateAccountKeeps(c: Cluster, id: AccountId, spec: AccountSpec)
    requires ClusterOk(c) && SpecOk(id, spec)
    ensures ClusterOk(CreateAccount(c, id, spec).0)
    ensures Extends(c, CreateAccount(c, id, spec).0)
    ensures CreateAccount(c, id, spec).0.log == c.log
  {
    hide AccountsOk, LogOk, Find;
    if id !in c.accounts {
      FreshAccountIsOk(c, id, spec);
      FreshAccountLeavesLog(c, id, spec);
    }
  }

  lemma EnsureAccountsKeeps(c: Cluster, ledger: nat, wallet: Id, d: Delivery)
    requires ClusterOk(c)
    ensures ClusterOk(EnsureAccounts(c, ledger, wallet, d).0)
    ensures Extends(c, EnsureAccounts(c, ledger, wallet, d).0)
    ensures EnsureAccounts(c, ledger, wallet, d).0.log == c.log
    ensures EnsureAccounts(c, ledger, wallet, d).1 == NoError ==>
      AccountsOpen(EnsureAccounts(c, ledger, wallet, d).0, ledger, wallet)
  {
    CreateAccountKeeps(c, SettlementAccount(ledger), SettlementSpec(ledger));
    var c1 := CreateAccount(c, SettlementAccount(ledger), SettlementSpec(ledger)).0;
    CreateAccountKeeps(c1, WalletAccount(wallet), WalletSpec(ledger));
  }

  lemma PostKeepsAccounts(c: Cluster, t: Transfer, clock: nat)
    requires ClusterOk(c) && Postable(c, t) && !Overdraws(c, t)
    ensures AccountsOk(Post(c, t, clock))
  {
    var p := Posted(t, Stamp(c.log, clock));
    var c' := Post(c, t, clock);
    forall a | a in c'.accounts
      ensures SpecOk(a, c'.accounts[a].spec)
      ensures c'.accounts[a].debits == Debited(c'.log, a) && c'.accounts[a].credits == Credited(c'.log, a)
      ensures c'.accounts[a].spec.capped ==> c'.accounts[a].debits <= c'.accounts[a].credits
    {
      Appended(c.log, p, t.id, a);
    }
  }

  lemma PostKeepsLog(c: Cluster, t: Transfer, clock: nat)
    requires ClusterOk(c) && EntryOk(t) && Settled(c, t) && Find(c.log, t.id).None?
    ensures LogOk(Post(c, t, clock))
  {
    FindIsMembership(c.log, t.id);
    var c' := Post(c, t, clock);
    forall i | 0 <= i < |c'.log|
      ensures EntryOk(c'.log[i].transfer) && Settled(c', c'.log[i].transfer)
    {
      assert i < |c.log| ==> Settled(c, c.log[i].transfer);
    }
  }

  lemma PostExtends(c: Cluster, t: Transfer, clock: nat)
    requires Postable(c, t) && Find(c.log, t.id).None?
    ensures Extends(c, Post(c, t, clock))
  {
    forall id | Find(c.log, id).Some?
      ensures Find(Post(c, t, clock).log, id) == Find(c.log, id)
    {
      Appended(c.log, Posted(t, Stamp(c.log, clock)), id, t.debit);
    }
  }

  lemma PostKeeps(c: Cluster, t: Transfer, clock: nat)
    requires ClusterOk(c) && EntryOk(t) && Settled(c, t) && !Overdraws(c, t) && Find(c.log, t.id).None?
    ensures ClusterOk(Post(c, t, clock)) && Extends(c, Post(c, t, clock))
  {
    PostKeepsAccounts(c, t, clock);
    PostKeepsLog(c, t, clock);
    PostExtends(c, t, clock);
  }

  predicate Accepts(c: Cluster, t: Transfer, w: Weather) {
    Find(c.log, t.id).None? && !w.refused && Postable(c, t) && !Overdraws(c, t) && w.post != LostBefore
  }

  /** A request either posts its entry or changes nothing. */
  lemma SubmitCases(c: Cluster, t: Transfer, overdraft: LedgerError, w: Weather)
    ensures Submit(c, t, overdraft, w).0 == if Accepts(c, t, w) then Post(c, t, w.clock) else c
  {
  }

  lemma SubmitKeeps(c: Cluster, t: Transfer, overdraft: LedgerError, w: Weather)
    requires ClusterOk(c) && EntryOk(t) && SettlementAccount(t.ledger) in c.accounts
    ensures ClusterOk(Submit(c, t, overdraft, w).0)
    ensures Extends(c, Submit(c, t, overdraft, w).0)
  {
    SubmitCases(c, t, overdraft, w);
    if Accepts(c, t, w) {
      PostKeeps(c, t, w.clock);
    }
  }

  // ---- One adapter call, and any number of them

  lemma PerformKeeps(c: Cluster, call: Command, w: Weather)
    requires ClusterOk(c)
    ensures ClusterOk(Perform(c, call, w).0)
    ensures Extends(c, Perform(c, call, w).0)
  {
    match call
    case DepositCall(p) =>
      if DepositRequest(p).Some? {
        var t := DepositRequest(p).value;
        EnsureAccountsKeeps(c, t.ledger, p.wallet, w.first);
        if EnsureAccounts(c, t.ledger, p.wallet, w.first).1 == NoError {
          SubmitKeeps(EnsureAccounts(c, t.ledger, p.wallet, w.first).0, t, Rejected, w);
        }
      }
    case TransferCall(p) =>
      if TransferRequest(p).1.Some? {
        var t := TransferRequest(p).1.value;
        EnsureAccountsKeeps(c, t.ledger, p.sender, w.first);
        var c1 := EnsureAccounts(c, t.ledger, p.sender, w.first).0;
        EnsureAccountsKeeps(c1, t.ledger, p.recipient, w.second);
        if EnsureAccounts(c1, t.ledger, p.recipient, w.second).1 == NoError {
          SubmitKeeps(EnsureAccounts(c1, t.ledger, p.recipient, w.second).0, t, InsufficientFunds, w);
        }
      }
    case EnsureCall(wallet, currency) =>
      if LedgerForCurrency(currency).Some? {
        EnsureAccountsKeeps(c, LedgerForCurrency(currency).value, wallet, w.first);
      }
  }

  lemma EnsureAccountsPostsNothing(c: Cluster, ledger: nat, wallet: Id, d: Delivery)
    ensures EnsureAccounts(c, ledger, wallet, d).0.log == c.log
  {
  }

  /** What a request posts can be found under its own id and nowhere else. */
  lemma SubmittedEntries(c: Cluster, t: Transfer, overdraft: LedgerError, w: Weather, id: Id)
    ensures Find(Submit(c, t, overdraft, w).0.log, id) == if Accepts(c, t, w) && t.id == id then Some(t)
      else Find(c.log, id)
  {
    SubmitCases(c, t, overdraft, w);
    Appended(c.log, Posted(t, Stamp(c.log, w.clock)), id, t.debit);
  }

  lemma PerformPostsUnderItsId(c: Cluster, call: Command, w: Weather, id: Id)
    requires !PostsUnder(call, id)
    ensures Find(Perform(c, call, w).0.log, id) == Find(c.log, id)
  {
    match call
    case DepositCall(p) =>
      if DepositRequest(p).Some? {
        var t := DepositRequest(p).value;
        EnsureAccountsPostsNothing(c, t.ledger, p.wallet, w.first);
        SubmittedEntries(EnsureAccounts(c, t.ledger, p.wallet, w.first).0, t, Rejected, w, id);
      }
    case TransferCall(p) =>
      if TransferRequest(p).1.Some? {
        var t := TransferRequest(p).1.value;
        var c1 := EnsureAccounts(c, t.ledger, p.sender, w.first).0;
        EnsureAccountsPostsNothing(c, t.ledger, p.sender, w.first);
        EnsureAccountsPostsNothing(c1, t.ledger, p.recipient, w.second);
        SubmittedEntries(EnsureAccounts(c1, t.ledger, p.recipient, w.second).0, t, InsufficientFunds, w, id);
      }
    case EnsureCall(wallet, currency) =>
  }

  lemma {:induction false} PerformAllKeeps(c: Cluster, calls: seq<(Command, Weather)>)
    requires ClusterOk(c)
    ensures ClusterOk(PerformAll(c, calls))
    ensures Extends(c, PerformAll(c, calls))
    decreases |calls|
  {
    if calls != [] {
      PerformKeeps(c, calls[0].0, calls[0].1);
      PerformAllKeeps(Perform(c, calls[0].0, calls[0].1).0, calls[1..]);
    }
  }
}
