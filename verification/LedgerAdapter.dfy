/** The TigerBeetle client and the ledger adapter over it, imperatively: requests change the cluster in
    place, results are read in loops. */
module LedgerAdapter {
  import opened Common
  import opened LedgerModel
  import opened LedgerSafety
  import opened LedgerTheorems
  import opened StableSort

  /** The statuses a create-accounts request returns, one per account, in order. */
  function CreateAll(c: Cluster, requests: seq<(AccountId, AccountSpec)>): (Cluster, seq<AccountStatus>) {
    if requests == [] then (c, [])
    else
      var last := requests[|requests| - 1];
      var (c1, statuses) := CreateAll(c, requests[..|requests| - 1]);
      var (c2, status) := CreateAccount(c1, last.0, last.1);
      (c2, statuses + [status])
  }

  /** The entries touching an account, newest first. */
  function EntriesOf(log: seq<Posted>, a: AccountId): seq<Posted> {
    if log == [] then []
    else
      var last := log[|log| - 1];
      (if last.transfer.debit == a || last.transfer.credit == a then [last] else []) + EntriesOf(log[..|log| - 1], a)
  }

  class TigerBeetle {
    var accounts: map<AccountId, Account>
    var log: seq<Posted>

    function State(): Cluster
      reads this
    {
      Cluster(accounts, log)
    }

    constructor ()
      ensures State() == EMPTY
    {
      accounts, log := map[], [];
    }

    method CreateAccounts(requests: seq<(AccountId, AccountSpec)>, d: Delivery)
      returns (heard: bool, statuses: seq<AccountStatus>)
      modifies this
      ensures heard == (d == Replied)
      ensures State() == if d == LostBefore then old(State()) else CreateAll(old(State()), requests).0
      ensures heard ==> statuses == CreateAll(old(State()), requests).1
    {
      statuses := [];
      heard := d == Replied;
      if d == LostBefore {
        return;
      }
      for i := 0 to |requests|
        invariant (State(), statuses) == CreateAll(old(State()), requests[..i])
      {
        var (id, spec) := requests[i];
        assert requests[..i + 1][..i] == requests[..i];
        if id !in accounts {
          accounts := accounts[id := Account(spec, 0, 0)];
          statuses := statuses + [AccountCreated];
        } else if accounts[id].spec == spec {
          statuses := statuses + [AccountExists];
        } else {
          statuses := statuses + [AccountConflict];
        }
      }
      assert requests[..|requests|] == requests;
    }

    method LookupTransfer(id: Id) returns (found: Option<Transfer>)
      ensures found == Find(log, id)
    {
      found := None;
      for i := 0 to |log|
        invariant found == Find(log[..i], id)
      {
        assert log[..i + 1][..i] == log[..i];
        if log[i].transfer.id == id {
          found := Some(log[i].transfer);
        }
      }
      assert log[..|log|] == log;
    }

    method CreateTransfer(t: Transfer, w: Weather) returns (heard: bool, status: TransferStatus)
      modifies this
      ensures heard == (w.post == Replied)
      ensures var (after, s) := LedgerModel.CreateTransfer(old(State()), t, w.refused, w.clock);
              && State() == (if w.post == LostBefore then old(State()) else after)
              && (heard ==> status == s)
    {
      heard, status := w.post == Replied, TransferOtherStatus;
      if w.post == LostBefore {
        return;
      }
      var prior := LookupTransfer(t.id);
      if prior.Some? {
        status := if prior.value == t then TransferExists else TransferOtherStatus;
      } else if w.refused || !Postable(State(), t) {
        status := TransferOtherStatus;
      } else if Overdraws(State(), t) {
        status := TransferExceedsCredits;
      } else {
        var d, k := accounts[t.debit], accounts[t.credit];
        accounts := accounts[t.debit := d.(debits := d.debits + t.amount)];
        accounts := accounts[t.credit := k.(credits := k.credits + t.amount)];
        log := log + [Posted(t, Stamp(log, w.clock))];
        status := TransferCreated;
      }
    }

    /** Both sides of the account, newest first, at most `limit` of them. */
    method GetAccountTransfers(a: AccountId, limit: nat) returns (found: seq<Posted>)
      ensures found == Take(EntriesOf(log, a), limit)
    {
      hide EntriesOf, Take;
      found := [];
      var i := |log|;
      assert log[..|log|] == log;
      while i > 0 && |found| < limit
        invariant 0 <= i <= |log|
        invariant |found| <= limit
        invariant EntriesOf(log, a) == found + EntriesOf(log[..i], a)
      {
        i := i - 1;
        LastEntry(log, i, a);
        if log[i].transfer.debit == a || log[i].transfer.credit == a {
          found := found + [log[i]];
        }
      }
      FirstEntries(log, i, a, found, limit);
    }
  }

  lemma LastEntry(log: seq<Posted>, i: nat, a: AccountId)
    requires i < |log|
    ensures EntriesOf(log[..i + 1], a)
            == (if log[i].transfer.debit == a || log[i].transfer.credit == a then [log[i]] else [])
               + EntriesOf(log[..i], a)
  {
    assert log[..i + 1][..i] == log[..i];
  }

  lemma FirstEntries(log: seq<Posted>, i: nat, a: AccountId, found: seq<Posted>, limit: nat)
    requires i <= |log| && |found| <= limit && (i == 0 || |found| == limit)
    requires EntriesOf(log, a) == found + EntriesOf(log[..i], a)
    ensures found == Take(EntriesOf(log, a), limit)
  {
    if i == 0 {
      assert EntriesOf(log[..i], a) == [];
    }
  }

  // ---- Movements and balances

  datatype Direction = CREDIT | DEBIT

  datatype Movement = Movement(transfer: Id, wallet: Id, direction: Direction, amount: Int64, code: nat)

  function MovementOf(wallet: Id, p: Posted): Keyed<Movement> {
    var t := p.transfer;
    Keyed(p.timestamp, Movement(t.id, wallet, if t.debit == WalletAccount(wallet) then DEBIT else CREDIT,
                                Wrap64(t.amount), t.code))
  }

  function MovementsOf(wallet: Id, entries: seq<Posted>): (r: seq<Keyed<Movement>>)
    ensures |r| == |entries|
    ensures forall i :: 0 <= i < |r| ==> r[i] == MovementOf(wallet, entries[i])
  {
    seq(|entries|, i requires 0 <= i < |entries| => MovementOf(wallet, entries[i]))
  }

  /** Each wallet's movements, newest first and cut to `limit`, one wallet after the other. */
  function PerWallet(log: seq<Posted>, wallets: seq<Id>, limit: nat): seq<Keyed<Movement>> {
    if wallets == [] then []
    else
      var last := wallets[|wallets| - 1];
      PerWallet(log, wallets[..|wallets| - 1], limit)
        + MovementsOf(last, Take(EntriesOf(log, WalletAccount(last)), limit))
  }

  function BalanceOf(c: Cluster, wallet: Id): Int64 {
    if WalletAccount(wallet) !in c.accounts then 0
    else Wrap64(c.accounts[WalletAccount(wallet)].credits - c.accounts[WalletAccount(wallet)].debits)
  }

  // ---- The adapter

  class Ledger {
    const client: TigerBeetle

    constructor (client: TigerBeetle)
      ensures this.client == client
    {
      this.client := client;
    }

    method createAccounts(requests: seq<(AccountId, AccountSpec)>, d: Delivery) returns (e: LedgerError)
      modifies client
      ensures client.State() == if d == LostBefore then old(client.State())
        else CreateAll(old(client.State()), requests).0
      ensures e == if d != Replied then Unavailable
                   else if AccountConflict in CreateAll(old(client.State()), requests).1 then Rejected else NoError
    {
      var heard, statuses := client.CreateAccounts(requests, d);
      if !heard {
        return Unavailable;
      }
      for i := 0 to |statuses|
        invariant AccountConflict !in statuses[..i]
      {
        if statuses[i] == AccountConflict {
          return Rejected;
        }
      }
      assert statuses[..|statuses|] == statuses;
      return NoError;
    }

    method ensureAccounts(ledger: nat, wallet: Id, d: Delivery) returns (e: LedgerError)
      modifies client
      ensures (client.State(), e) == EnsureAccounts(old(client.State()), ledger, wallet, d)
    {
      var settlement := (SettlementAccount(ledger), SettlementSpec(ledger));
      var account := (WalletAccount(wallet), WalletSpec(ledger));
      CreateTwo(client.State(), settlement, account);
      e := createAccounts([settlement, account], d);
    }

    method Deposit(p: DepositParam, w: Weather) returns (e: LedgerError)
      modifies client
      ensures (client.State(), e) == LedgerModel.Deposit(old(client.State()), p, w)
    {
      if p.amount <= 0 {
        return Rejected;
      }
      var ledger := LedgerForCurrency(p.currency);
      if ledger.None? {
        return Rejected;
      }
      e := ensureAccounts(ledger.value, p.wallet, w.first);
      if e != NoError {
        return e;
      }
      var heard, status := client.CreateTransfer(DepositEntry(p.id, p.wallet, ledger.value, p.amount), w);
      if !heard {
        return Unavailable;
      }
      match status
      case TransferCreated => return NoError;
      case TransferExists => return NoError;
      case _ => return Rejected;
    }

    method Transfer(p: TransferParam, w: Weather) returns (e: LedgerError)
      modifies client
      ensures (client.State(), e) == InternalTransfer(old(client.State()), p, w)
    {
      if p.amount <= 0 {
        return Rejected;
      }
      if p.sender == p.recipient {
        return Rejected;
      }
      if !EqualFold(p.senderCurrency, p.recipientCurrency) {
        return CrossCurrency;
      }
      var ledger := LedgerForCurrency(p.senderCurrency);
      if ledger.None? {
        return Rejected;
      }
      e := ensureAccounts(ledger.value, p.sender, w.first);
      if e != NoError {
        return e;
      }
      e := ensureAccounts(ledger.value, p.recipient, w.second);
      if e != NoError {
        return e;
      }
      var heard, status := client.CreateTransfer(InternalEntry(p.id, p.sender, p.recipient, ledger.value, p.amount), w);
      if !heard {
        return Unavailable;
      }
      match status
      case TransferCreated => return NoError;
      case TransferExists => return NoError;
      case TransferExceedsCredits => return InsufficientFunds;
      case TransferOtherStatus => return Rejected;
    }

    method TransferExists(id: Id, d: Delivery) returns (found: bool, e: LedgerError)
      ensures e == if d == Replied then NoError else Unavailable
      ensures found == (d == Replied && Find(client.log, id).Some?)
    {
      if d != Replied {
        return false, Unavailable;
      }
      var entry := client.LookupTransfer(id);
      return entry.Some?, NoError;
    }

    method EnsureWalletAccount(wallet: Id, currency: string, w: Weather) returns (e: LedgerError)
      modifies client
      ensures (client.State(), e) == Perform(old(client.State()), EnsureCall(wallet, currency), w)
    {
      var ledger := LedgerForCurrency(currency);
      if ledger.None? {
        return Rejected;
      }
      e := ensureAccounts(ledger.value, wallet, w.first);
    }

    method Balances(wallets: seq<Id>, d: Delivery) returns (balances: map<Id, Int64>, e: LedgerError)
      ensures e == if wallets == [] || d == Replied then NoError else Unavailable
      ensures e == NoError ==> balances == map w | w in wallets :: BalanceOf(client.State(), w)
    {
      hide BalanceOf, Wrap64;
      balances := map[];
      if wallets == [] {
        return balances, NoError;
      }
      for i := 0 to |wallets|
        invariant balances == map w | w in wallets[..i] :: 0
      {
        balances := balances[wallets[i] := 0];
      }
      if d != Replied {
        return map[], Unavailable;
      }
      for i := 0 to |wallets|
        invariant balances.Keys == set w | w in wallets
        invariant forall j :: 0 <= j < i ==> balances[wallets[j]] == BalanceOf(client.State(), wallets[j])
        invariant forall j :: i <= j < |wallets| ==> balances[wallets[j]] in {0, BalanceOf(client.State(), wallets[j])}
      {
        var id := WalletAccount(wallets[i]);
        BalanceRead(client.State(), wallets[i]);
        if id in client.accounts {
          var account := client.accounts[id];
          balances := balances[wallets[i] := Wrap64(account.credits - account.debits)];
        }
      }
      return balances, NoError;
    }

    method describe(wallet: Id, transfers: seq<Posted>) returns (rows: seq<Keyed<Movement>>)
      ensures rows == MovementsOf(wallet, transfers)
    {
      rows := [];
      for j := 0 to |transfers|
        invariant rows == MovementsOf(wallet, transfers[..j])
      {
        var t := transfers[j].transfer;
        var direction := CREDIT;
        if t.debit == WalletAccount(wallet) {
          direction := DEBIT;
        }
        rows := rows + [Keyed(transfers[j].timestamp, Movement(t.id, wallet, direction, Wrap64(t.amount), t.code))];
      }
      assert transfers[..|transfers|] == transfers;
    }

    method WalletMovements(wallets: seq<Id>, limit: nat, d: Delivery)
        returns (movements: seq<Keyed<Movement>>, e: LedgerError)
      ensures e == if wallets == [] || limit == 0 || d == Replied then NoError else Unavailable
      ensures e == NoError ==> movements == Sorted(PerWallet(client.log, wallets, limit))
    {
      movements := [];
      if wallets == [] || limit == 0 {
        NothingPerWallet(client.log, wallets, limit);
        return movements, NoError;
      }
      for i := 0 to |wallets|
        invariant movements == PerWallet(client.log, wallets[..i], limit)
        invariant i > 0 ==> d == Replied
      {
        if d != Replied {
          return [], Unavailable;
        }
        assert wallets[..i + 1][..i] == wallets[..i];
        var transfers := client.GetAccountTransfers(WalletAccount(wallets[i]), limit);
        var rows := describe(wallets[i], transfers);
        movements := movements + rows;
      }
      assert wallets[..|wallets|] == wallets;
      movements := Sorted(movements);
      e := NoError;
    }
  }

  lemma BalanceRead(c: Cluster, wallet: Id)
    ensures var id := WalletAccount(wallet);
            BalanceOf(c, wallet) == if id in c.accounts then Wrap64(c.accounts[id].credits - c.accounts[id].debits)
              else 0
  {
  }

  lemma CreateOneMore(c: Cluster, requests: seq<(AccountId, AccountSpec)>, r: (AccountId, AccountSpec))
    ensures var (c1, statuses) := CreateAll(c, requests);
            var (c2, status) := CreateAccount(c1, r.0, r.1);
            CreateAll(c, requests + [r]) == (c2, statuses + [status])
  {
    assert (requests + [r])[..|requests|] == requests;
  }

  lemma CreateNone(c: Cluster)
    ensures CreateAll(c, []) == (c, [])
  {
  }

  lemma CreateTwo(c: Cluster, a: (AccountId, AccountSpec), b: (AccountId, AccountSpec))
    ensures var (c1, s1) := CreateAccount(c, a.0, a.1);
            var (c2, s2) := CreateAccount(c1, b.0, b.1);
            CreateAll(c, [a, b]) == (c2, [s1, s2])
  {
    hide CreateAll, CreateAccount;
    CreateNone(c);
    CreateOneMore(c, [], a);
    CreateOneMore(c, [] + [a], b);
    assert [] + [a] + [b] == [a, b];
    var (c1, s1) := CreateAccount(c, a.0, a.1);
    var (c2, s2) := CreateAccount(c1, b.0, b.1);
    assert [] + [s1] + [s2] == [s1, s2];
  }

  lemma {:induction false} NothingPerWallet(log: seq<Posted>, wallets: seq<Id>, limit: nat)
    requires wallets == [] || limit == 0
    ensures PerWallet(log, wallets, limit) == []
  {
    if wallets != [] {
      NothingPerWallet(log, wallets[..|wallets| - 1], limit);
    }
  }

  // ---- Movements agree with balances

  function SignedSum(movements: seq<Keyed<Movement>>): int {
    if movements == [] then 0
    else
      var amount: int := movements[0].row.amount;
      (if movements[0].row.direction == CREDIT then amount else -amount) + SignedSum(movements[1..])
  }

  lemma SignedCons(m: Keyed<Movement>, rest: seq<Keyed<Movement>>)
    ensures SignedSum([m] + rest)
            == (var amount: int := m.row.amount; if m.row.direction == CREDIT then amount else -amount)
               + SignedSum(rest)
  {
    assert ([m] + rest)[1..] == rest;
  }

  lemma {:induction false} EntriesAddUp(log: seq<Posted>, wallet: Id)
    requires forall i :: 0 <= i < |log| ==> EntryOk(log[i].transfer)
    ensures SignedSum(MovementsOf(wallet, EntriesOf(log, WalletAccount(wallet))))
            == Credited(log, WalletAccount(wallet)) - Debited(log, WalletAccount(wallet))
  {
    if log != [] {
      var last, rest := log[|log| - 1], EntriesOf(log[..|log| - 1], WalletAccount(wallet));
      EntriesAddUp(log[..|log| - 1], wallet);
      assert EntryOk(last.transfer);
      if last.transfer.debit == WalletAccount(wallet) || last.transfer.credit == WalletAccount(wallet) {
        SignedCons(MovementOf(wallet, last), MovementsOf(wallet, rest));
        assert MovementsOf(wallet, [last] + rest) == [MovementOf(wallet, last)] + MovementsOf(wallet, rest);
      } else {
        assert EntriesOf(log, WalletAccount(wallet)) == rest;
      }
    }
  }

  /** Untruncated, one wallet's movements are all of its entries, newest first. */
  lemma AllMovements(log: seq<Posted>, wallet: Id, limit: nat)
    requires limit >= |log|
    requires forall i, j :: 0 <= i < j < |log| ==> log[i].timestamp < log[j].timestamp
    ensures Sorted(PerWallet(log, [wallet], limit)) == MovementsOf(wallet, EntriesOf(log, WalletAccount(wallet)))
  {
    hide Sorted;
    EntriesOfIsShort(log, WalletAccount(wallet));
    var movements := MovementsOf(wallet, EntriesOf(log, WalletAccount(wallet)));
    assert [wallet][..0] == [];
    assert PerWallet(log, [], limit) + movements == movements;
    EntriesAreNewest(log, WalletAccount(wallet));
    SortedAlready(movements);
  }

  /** All of a wallet's movements, credits minus debits, make up the balance the wallet is shown,
      as long as that balance fits an int64. */
  lemma MovementsMakeTheBalance(c: Cluster, wallet: Id, limit: nat)
    requires ClusterOk(c) && limit >= |c.log|
    requires WalletAccount(wallet) in c.accounts
    requires var a := c.accounts[WalletAccount(wallet)]; INT64_MIN <= a.credits - a.debits <= INT64_MAX
    ensures SignedSum(Sorted(PerWallet(c.log, [wallet], limit))) == BalanceOf(c, wallet)
  {
    AllMovements(c.log, wallet, limit);
    EntriesAddUp(c.log, wallet);
  }

  /** The balance a wallet is shown is its deposits plus what it received minus what it sent, cut to 64
      bits, whatever came before. */
  lemma ShownBalance(calls: seq<(Command, Weather)>, wallet: Id)
    requires WalletAccount(wallet) in PerformAll(EMPTY, calls).accounts
    ensures var c := PerformAll(EMPTY, calls);
            BalanceOf(c, wallet)
              == Wrap64(DepositsInto(c.log, wallet) + ReceivedBy(c.log, wallet) - SentBy(c.log, wallet))
  {
    hide PerformAll;
    BooksBalance(calls, 0, wallet);
  }

  lemma {:induction false} EntriesOfIsShort(log: seq<Posted>, a: AccountId)
    ensures |EntriesOf(log, a)| <= |log|
  {
    if log != [] {
      EntriesOfIsShort(log[..|log| - 1], a);
    }
  }

  lemma {:induction false} EntriesBelow(log: seq<Posted>, a: AccountId, bound: nat)
    requires forall i :: 0 <= i < |log| ==> log[i].timestamp < bound
    ensures forall i :: 0 <= i < |EntriesOf(log, a)| ==> EntriesOf(log, a)[i].timestamp < bound
  {
    if log != [] {
      EntriesBelow(log[..|log| - 1], a, bound);
    }
  }

  /** An account's entries come newest first. */
  lemma {:induction false} EntriesAreNewest(log: seq<Posted>, a: AccountId)
    requires forall i, j :: 0 <= i < j < |log| ==> log[i].timestamp < log[j].timestamp
    ensures forall i, j :: 0 <= i < j < |EntriesOf(log, a)| ==>
      EntriesOf(log, a)[i].timestamp > EntriesOf(log, a)[j].timestamp
  {
    if log != [] {
      EntriesAreNewest(log[..|log| - 1], a);
      EntriesBelow(log[..|log| - 1], a, log[|log| - 1].timestamp);
    }
  }
}
