/** Opening a wallet and starting a transfer, as they are written: a chain of guards, then a row. */
module WalletService {
  import opened Common
  import opened LedgerModel
  import opened LedgerAdapter
  import opened WalletModel
  import TransferMachine

  const ACCOUNT_NUMBER_ATTEMPTS := 5
  const MIN_TRANSFER_MINOR := 100
  const MAX_TRANSFER_MINOR := 1_000_000_00

  type Wallets = map<Id, WalletRow>

  /** The unique index on account numbers. */
  ghost predicate UniqueAccounts(wallets: Wallets) {
    forall a, b :: a in wallets && b in wallets && wallets[a].account == wallets[b].account ==> a == b
  }

  /** A wallet's currency is one the ledger knows. */
  ghost predicate InSupportedCurrencies(wallets: Wallets) {
    forall w :: w in wallets ==> wallets[w].currency in CURRENCY_LEDGERS
  }

  /** A user holds at most one wallet in a currency. */
  ghost predicate OnePerCurrency(wallets: Wallets) {
    forall a, b :: a in wallets && b in wallets && wallets[a].user == wallets[b].user
      && wallets[a].currency == wallets[b].currency
      ==> a == b
  }

  predicate Taken(wallets: Wallets, account: string) {
    exists w :: w in wallets && wallets[w].account == account
  }

  predicate Owns(wallets: Wallets, user: Id, currency: string) {
    exists w :: w in wallets && wallets[w].user == user && wallets[w].currency == currency
  }

  /** The attempt that ends the search: the first whose number is not taken, or whose reply is lost. */
  function FirstTried(wallets: Wallets, candidates: seq<string>, replies: seq<Delivery>): (i: nat)
    requires |candidates| == |replies|
    ensures i <= |candidates|
    ensures i < |candidates| ==> !Taken(wallets, candidates[i]) || replies[i] != Replied
    ensures forall j :: 0 <= j < i ==> Taken(wallets, candidates[j]) && replies[j] == Replied
  {
    if candidates == [] || !Taken(wallets, candidates[0]) || replies[0] != Replied then 0
    else 1 + FirstTried(wallets, candidates[1..], replies[1..])
  }

  /** What the attempts leave in the table. */
  function Inserted(wallets: Wallets, id: Id, user: Id, code: string, candidates: seq<string>,
      replies: seq<Delivery>): Wallets
    requires |candidates| == |replies|
  {
    var i := FirstTried(wallets, candidates, replies);
    if i < |candidates| && !Taken(wallets, candidates[i]) && replies[i] != LostBefore
    then wallets[id := WalletRow(user, candidates[i], code, true)] else wallets
  }

  class Repository {
    var wallets: Wallets
    var transfers: map<Id, TransferMachine.TransferRow>

    constructor ()
      ensures wallets == map[] && transfers == map[]
    {
      wallets, transfers := map[], map[];
    }

    method GetWalletByUser(user: Id, currency: string, d: Delivery) returns (heard: bool, found: bool)
      ensures heard == (d == Replied)
      ensures heard ==> found == Owns(wallets, user, currency)
    {
      heard, found := d == Replied, Owns(wallets, user, currency);
    }

    /** Tries one account number after another, one insert each: a taken one is refused and the next is
        tried, if the refusal is heard; the first not taken decides. */
    method CreateWallet(id: Id, user: Id, currency: string, candidates: seq<string>, replies: seq<Delivery>)
      returns (account: Option<string>)
      requires id !in wallets && UniqueAccounts(wallets)
      requires |candidates| == |replies| == ACCOUNT_NUMBER_ATTEMPTS
      modifies this`wallets
      ensures UniqueAccounts(wallets)
      ensures wallets == Inserted(old(wallets), id, user, currency, candidates, replies)
      ensures var i := FirstTried(old(wallets), candidates, replies);
              && account == (if i < |candidates| && !Taken(old(wallets), candidates[i]) && replies[i] == Replied
                             then Some(candidates[i]) else None)
    {
      for attempt := 0 to |candidates|
        invariant wallets == old(wallets)
        invariant attempt <= FirstTried(wallets, candidates, replies)
      {
        if !Taken(wallets, candidates[attempt]) {
          if replies[attempt] != LostBefore {
            wallets := wallets[id := WalletRow(user, candidates[attempt], currency, true)];
          }
          account := if replies[attempt] == Replied then Some(candidates[attempt]) else None;
          return;
        }
        if replies[attempt] != Replied {
          return None;
        }
      }
      return None;
    }

    method GetWalletByID(id: Id, d: Delivery) returns (heard: bool, found: Option<WalletRow>)
      ensures heard == (d == Replied)
      ensures heard ==> found == if id in wallets then Some(wallets[id]) else None
    {
      heard, found := d == Replied, if id in wallets then Some(wallets[id]) else None;
    }

    method GetWalletByAccountNumber(account: string, d: Delivery) returns (heard: bool, found: Option<Id>)
      ensures heard == (d == Replied)
      ensures heard && found.Some? ==> found.value in wallets && wallets[found.value].account == account
      ensures heard && found.None? ==> !Taken(wallets, account)
    {
      heard, found := d == Replied, None;
      if heard && Taken(wallets, account) {
        var w :| w in wallets && wallets[w].account == account;
        found := Some(w);
      }
    }

    method CreateTransfer(id: Id, row: TransferMachine.TransferRow, d: Delivery) returns (heard: bool)
      modifies this`transfers
      ensures heard == (d == Replied)
      ensures transfers == if d == LostBefore then old(transfers) else old(transfers)[id := row]
    {
      heard := d == Replied;
      if d != LostBefore {
        transfers := transfers[id := row];
      }
    }
  }

  datatype WalletReply = WalletCreated | UnsupportedCurrency | AlreadyExists | CouldNotCreate

  datatype WalletReplies = WalletReplies(lookup: Delivery, inserts: seq<Delivery>, ledger: Weather)

  datatype WalletView = WalletView(id: Id, row: WalletRow, balance: Int64)

  datatype Refusal =
    | Accepted
    | AmountOutOfRange | WalletNotFound | WalletNotActive | AccountNotFound | SameWallet
    | DifferentCurrencies | CannotReceive | NotEnough | CouldNotLoad | CouldNotStart

  datatype TransferReplies = TransferReplies(sender: Delivery, recipient: Delivery, balances: Delivery,
    insert: Delivery)

  // ---- What a transfer must satisfy

  predicate OwnActive(wallets: Wallets, user: Id, wallet: Id) {
    wallet in wallets && wallets[wallet].user == user && wallets[wallet].active
  }

  predicate MayReceive(wallets: Wallets, sender: Id, recipient: Id)
    requires sender in wallets
  {
    && recipient in wallets && recipient != sender && wallets[recipient].active
    && EqualFold(wallets[recipient].currency, wallets[sender].currency)
  }

  /** The account number is this wallet's, and it is not the sender's. */
  predicate IsOther(wallets: Wallets, account: string, sender: Id, to: Id) {
    to in wallets && wallets[to].account == account && to != sender
  }

  /** The account is another wallet's, in another currency. */
  ghost predicate IsForeign(wallets: Wallets, account: string, sender: Id)
    requires sender in wallets
  {
    exists to :: IsOther(wallets, account, sender, to) && !EqualFold(wallets[to].currency, wallets[sender].currency)
  }

  /** The account is another wallet's in the same currency, and not active. */
  ghost predicate IsClosed(wallets: Wallets, account: string, sender: Id)
    requires sender in wallets
  {
    exists to ::
      && IsOther(wallets, account, sender, to) && EqualFold(wallets[to].currency, wallets[sender].currency)
      && !wallets[to].active
  }

  /** The account is another wallet's in the same currency, and active. */
  ghost predicate IsOpen(wallets: Wallets, account: string, sender: Id)
    requires sender in wallets
  {
    exists to :: IsOther(wallets, account, sender, to) && MayReceive(wallets, sender, to)
  }

  lemma OneRecipient(wallets: Wallets, account: string, sender: Id, to: Id)
    requires UniqueAccounts(wallets) && sender in wallets && to in wallets && wallets[to].account == account
    ensures Taken(wallets, account) && (wallets[sender].account == account <==> to == sender)
    ensures var same := EqualFold(wallets[to].currency, wallets[sender].currency);
            && (IsForeign(wallets, account, sender) <==> to != sender && !same)
            && (IsClosed(wallets, account, sender) <==> to != sender && same && !wallets[to].active)
            && (IsOpen(wallets, account, sender) <==> to != sender && same && wallets[to].active)
  {
    hide EqualFold;
    assert to != sender ==> IsOther(wallets, account, sender, to);
  }

  lemma NoRecipient(wallets: Wallets, account: string, sender: Id)
    requires sender in wallets && !Taken(wallets, account)
    ensures !IsForeign(wallets, account, sender) && !IsClosed(wallets, account, sender)
      && !IsOpen(wallets, account, sender) && wallets[sender].account != account
  {
    hide EqualFold;
  }

  predicate InRange(amount: Int64) { MIN_TRANSFER_MINOR <= amount <= MAX_TRANSFER_MINOR }

  class Service {
    const repository: Repository
    const ledger: LedgerAdapter.Ledger
    var events: seq<Id>

    constructor (repository: Repository, ledger: LedgerAdapter.Ledger)
      ensures this.repository == repository && this.ledger == ledger && events == []
    {
      this.repository, this.ledger, events := repository, ledger, [];
    }

    method CreateWallet(user: Id, currency: string, id: Id, candidates: seq<string>, r: WalletReplies)
        returns (e: WalletReply)
      requires id !in repository.wallets && |candidates| == |r.inserts| == ACCOUNT_NUMBER_ATTEMPTS
      requires UniqueAccounts(repository.wallets) && InSupportedCurrencies(repository.wallets)
      modifies repository`wallets, ledger.client
      ensures UniqueAccounts(repository.wallets) && InSupportedCurrencies(repository.wallets)
      ensures old(OnePerCurrency(repository.wallets)) ==> OnePerCurrency(repository.wallets)
      ensures var code := Normalised(currency);
              && (e == UnsupportedCurrency <==> code !in CURRENCY_LEDGERS)
              && (e == AlreadyExists <==>
                    code in CURRENCY_LEDGERS && r.lookup == Replied && old(Owns(repository.wallets, user, code)))
              && (e == WalletCreated <==>
                    && code in CURRENCY_LEDGERS && r.lookup == Replied && !old(Owns(repository.wallets, user, code))
                    && var i := FirstTried(old(repository.wallets), candidates, r.inserts);
                       i < |candidates| && !Taken(old(repository.wallets), candidates[i]) && r.inserts[i] == Replied)
      ensures repository.wallets ==
                if Normalised(currency) in CURRENCY_LEDGERS && r.lookup == Replied
                   && !old(Owns(repository.wallets, user, Normalised(currency)))
                then Inserted(old(repository.wallets), id, user, Normalised(currency), candidates, r.inserts)
                else old(repository.wallets)
      ensures e == WalletCreated ==>
                && id in repository.wallets && repository.wallets[id].user == user && repository.wallets[id].active
                && repository.wallets[id].currency == Normalised(currency)
                && repository.wallets[id].account in candidates
                && !Taken(old(repository.wallets), repository.wallets[id].account)
      ensures e == WalletCreated ==>
                ledger.client.State()
                  == Perform(old(ledger.client.State()), EnsureCall(id, Normalised(currency)), r.ledger).0
      ensures e != WalletCreated ==> ledger.client.State() == old(ledger.client.State())
    {
      hide Normalised, CURRENCY_LEDGERS, Perform;
      var code := Normalised(currency);
      if code !in CURRENCY_LEDGERS {
        return UnsupportedCurrency;
      }
      var heard, found := repository.GetWalletByUser(user, code, r.lookup);
      if !heard {
        return CouldNotCreate;
      }
      if found {
        return AlreadyExists;
      }
      var account := repository.CreateWallet(id, user, code, candidates, r.inserts);
      if account.None? {
        return CouldNotCreate;
      }
      // a ledger that cannot be reached does not undo the wallet
      var outcome := ledger.EnsureWalletAccount(id, code, r.ledger);
      e := WalletCreated;
    }

    /** Every wallet with its balance, in order, or nothing if the ledger could not be asked. */
    method withBalances(wallets: seq<Id>, d: Delivery) returns (views: Option<seq<WalletView>>)
      requires forall w :: w in wallets ==> w in repository.wallets
      ensures views.Some? <==> wallets == [] || d == Replied
      ensures views.Some? ==>
                && |views.value| == |wallets|
                && forall i :: 0 <= i < |wallets| ==>
                     views.value[i] == WalletView(wallets[i], repository.wallets[wallets[i]],
                       BalanceOf(ledger.client.State(), wallets[i]))
    {
      hide BalanceOf;
      var balances, lookup := ledger.Balances(wallets, d);
      if lookup != NoError {
        return None;
      }
      var result: seq<WalletView> := [];
      for i := 0 to |wallets|
        invariant |result| == i
        invariant forall j :: 0 <= j < i ==>
          result[j] == WalletView(wallets[j], repository.wallets[wallets[j]],
            BalanceOf(ledger.client.State(), wallets[j]))
      {
        result := result + [WalletView(wallets[i], repository.wallets[wallets[i]], balances[wallets[i]])];
      }
      return Some(result);
    }

    method checkSufficientBalance(sender: Id, amount: Int64, d: Delivery) returns (ok: bool)
      ensures ok <==> d != Replied || BalanceOf(ledger.client.State(), sender) >= amount
    {
      var balances, lookup := ledger.Balances([sender], d);
      ok := lookup != NoError || balances[sender] >= amount;
    }

    /** The wallet an account number leads to, or which guard on it does not hold. */
    method findRecipient(sender: Id, account: string, d: Delivery) returns (to: Option<Id>, e: Refusal)
      requires UniqueAccounts(repository.wallets) && sender in repository.wallets
      ensures to.Some? <==> e == Accepted
      ensures to.Some? ==> IsOther(repository.wallets, account, sender, to.value)
      ensures to.Some? ==> MayReceive(repository.wallets, sender, to.value)
      ensures e in {Accepted, CouldNotLoad, AccountNotFound, SameWallet, DifferentCurrencies, CannotReceive}
      ensures var wallets := repository.wallets;
              var heard := d == Replied;
              && (e == CouldNotLoad <==> !heard)
              && (e == AccountNotFound <==> heard && !Taken(wallets, account))
              && (e == SameWallet <==> heard && wallets[sender].account == account)
              && (e == DifferentCurrencies <==> heard && IsForeign(wallets, account, sender))
              && (e == CannotReceive <==> heard && IsClosed(wallets, account, sender))
              && (e == Accepted <==> heard && IsOpen(wallets, account, sender))
    {
      hide EqualFold, IsForeign, IsClosed, IsOpen, UniqueAccounts, Taken;
      to := None;
      var heard, found := repository.GetWalletByAccountNumber(account, d);
      if !heard {
        return None, CouldNotLoad;
      }
      if found.None? {
        NoRecipient(repository.wallets, account, sender);
        return None, AccountNotFound;
      }
      OneRecipient(repository.wallets, account, sender, found.value);
      if found.value == sender {
        return None, SameWallet;
      }
      var recipient := repository.wallets[found.value];
      if !EqualFold(recipient.currency, repository.wallets[sender].currency) {
        return None, DifferentCurrencies;
      }
      if !recipient.active {
        return None, CannotReceive;
      }
      return found, Accepted;
    }

    /** Which of its eleven replies a transfer gets, exactly: the first guard that does not hold, or the first
        query that is not answered, decides. The row is written once every guard holds, unless the insert fails. */
    method InitiateTransfer(user: Id, sender: Id, accountNumber: string, amount: Int64, id: Id, r: TransferReplies)
      returns (e: Refusal)
      requires UniqueAccounts(repository.wallets) && id !in repository.transfers
      modifies repository`transfers, this`events
      ensures var wallets, account := repository.wallets, TrimSpace(accountNumber);
              var known := InRange(amount) && r.sender == Replied;
              var owned := known && sender in wallets && wallets[sender].user == user;
              var asked := owned && wallets[sender].active;
              var heard := asked && r.recipient == Replied;
              && (e == AmountOutOfRange <==> !(100 <= amount <= 100_000_000))
              && (e == CouldNotLoad <==>
                    InRange(amount) && (r.sender != Replied || (asked && r.recipient != Replied)))
              && (e == WalletNotFound <==> known && !owned)
              && (e == WalletNotActive <==> owned && !asked)
              && (e == AccountNotFound <==> heard && !Taken(wallets, account))
              && (e == SameWallet <==> heard && wallets[sender].account == account)
              && (e == DifferentCurrencies <==> heard && IsForeign(wallets, account, sender))
              && (e == CannotReceive <==> heard && IsClosed(wallets, account, sender))
      ensures var wallets, account := repository.wallets, TrimSpace(accountNumber);
              var passed := InRange(amount) && r.sender == r.recipient == Replied && OwnActive(wallets, user, sender)
                && IsOpen(wallets, account, sender);
              var short := r.balances == Replied && BalanceOf(ledger.client.State(), sender) < amount;
              && (e == NotEnough <==> passed && short)
              && (e == CouldNotStart <==> passed && !short && r.insert != Replied)
              && (e == Accepted <==> passed && !short && r.insert == Replied)
              && (!(passed && !short && r.insert != LostBefore) ==>
                    repository.transfers == old(repository.transfers))
              && (passed && !short && r.insert != LostBefore ==>
                    exists to :: IsOther(wallets, account, sender, to) && MayReceive(wallets, sender, to)
                      && repository.transfers == old(repository.transfers)[
                           id := TransferMachine.TransferRow(sender, to, amount, PENDING, "")])
      ensures events == if e == Accepted then old(events) + [id] else old(events)
    {
      hide TrimSpace, EqualFold, BalanceOf, IsForeign, IsClosed, IsOpen, UniqueAccounts, Taken, MayReceive,
        IsOther;
      if amount < MIN_TRANSFER_MINOR || amount > MAX_TRANSFER_MINOR {
        return AmountOutOfRange;
      }
      var heard, from := repository.GetWalletByID(sender, r.sender);
      if !heard {
        return CouldNotLoad;
      }
      if from.None? || from.value.user != user {
        return WalletNotFound;
      }
      if !from.value.active {
        return WalletNotActive;
      }
      var to;
      to, e := findRecipient(sender, TrimSpace(accountNumber), r.recipient);
      if to.None? {
        return e;
      }
      var enough := checkSufficientBalance(sender, amount, r.balances);
      if !enough {
        return NotEnough;
      }
      heard := repository.CreateTransfer(id, TransferMachine.TransferRow(sender, to.value, amount, PENDING, ""),
        r.insert);
      if !heard {
        return CouldNotStart;
      }
      events := events + [id];
      e := Accepted;
    }
  }
}
