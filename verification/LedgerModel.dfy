/** The TigerBeetle cluster as the wallet relies on it, and the ledger adapter's requests to it, as values. */
module LedgerModel {
  import opened Common

  // ---- Currencies, account and transfer codes

  const CURRENCY_LEDGERS: map<string, nat> := map[
    "NGN" := 1, "USD" := 2, "EUR" := 3, "GBP" := 4, "JPY" := 5, "AUD" := 6,
    "CAD" := 7, "CHF" := 8, "CNY" := 9, "SEK" := 10, "NZD" := 11
  ]

  function LedgerForCurrency(currency: string): Option<nat> {
    if currency in CURRENCY_LEDGERS then Some(CURRENCY_LEDGERS[currency]) else None
  }

  /** The number of some currency's ledger. */
  predicate IsLedger(number: nat) {
    exists currency :: currency in CURRENCY_LEDGERS && CURRENCY_LEDGERS[currency] == number
  }

  const ACCOUNT_WALLET := 1
  const ACCOUNT_SETTLEMENT := 2
  const TRANSFER_DEPOSIT := 1
  const TRANSFER_INTERNAL := 2

  // ---- The cluster

  /** A wallet's account carries the wallet's uuid, a settlement account its ledger number (see AccountKeys). */
  datatype AccountId = WalletAccount(wallet: Id) | SettlementAccount(number: nat)

  /** What an account is opened with; `capped` is DebitsMustNotExceedCredits. */
  datatype AccountSpec = AccountSpec(ledger: nat, code: nat, capped: bool)

  datatype Account = Account(spec: AccountSpec, debits: nat, credits: nat)

  datatype Transfer = Transfer(id: Id, debit: AccountId, credit: AccountId, amount: nat, ledger: nat, code: nat)

  datatype Posted = Posted(transfer: Transfer, timestamp: nat)

  /** `log` holds every posted transfer in commit order. */
  datatype Cluster = Cluster(accounts: map<AccountId, Account>, log: seq<Posted>)

  datatype AccountStatus = AccountCreated | AccountExists | AccountConflict

  datatype TransferStatus = TransferCreated | TransferExists | TransferExceedsCredits | TransferOtherStatus

  function Find(log: seq<Posted>, id: Id): Option<Transfer> {
    if log == [] then None
    else
      var last := log[|log| - 1].transfer;
      if last.id == id then Some(last) else Find(log[..|log| - 1], id)
  }

  function CreateAccount(c: Cluster, id: AccountId, spec: AccountSpec): (Cluster, AccountStatus) {
    if id !in c.accounts then
      (c.(accounts := c.accounts[id := Account(spec, 0, 0)]), AccountCreated)
    else if c.accounts[id].spec == spec then (c, AccountExists)
    else (c, AccountConflict)
  }

  function Stamp(log: seq<Posted>, clock: nat): nat {
    if log == [] || log[|log| - 1].timestamp < clock then clock else log[|log| - 1].timestamp + 1
  }

  function Post(c: Cluster, t: Transfer, clock: nat): Cluster
    requires t.debit in c.accounts && t.credit in c.accounts && t.debit != t.credit
  {
    var d := c.accounts[t.debit];
    var k := c.accounts[t.credit];
    Cluster(
      c.accounts[t.debit := d.(debits := d.debits + t.amount)][t.credit := k.(credits := k.credits + t.amount)],
      c.log + [Posted(t, Stamp(c.log, clock))]
    )
  }

  /** Everything but the balance and the id that a fresh transfer must satisfy. */
  predicate Postable(c: Cluster, t: Transfer) {
    && t.debit in c.accounts && t.credit in c.accounts && t.debit != t.credit
    && c.accounts[t.debit].spec.ledger == t.ledger
    && c.accounts[t.credit].spec.ledger == t.ledger
  }

  predicate Overdraws(c: Cluster, t: Transfer)
    requires t.debit in c.accounts
  {
    c.accounts[t.debit].spec.capped && c.accounts[t.debit].debits + t.amount > c.accounts[t.debit].credits
  }

  /** A known id is recognised before anything else is looked at. A fresh one may also be
      `refused` for a reason of the cluster's own, such as an id whose first attempt failed. */
  function CreateTransfer(c: Cluster, t: Transfer, refused: bool, clock: nat): (Cluster, TransferStatus) {
    var prior := Find(c.log, t.id);
    if prior.Some? then (c, if prior.value == t then TransferExists else TransferOtherStatus)
    else if refused || !Postable(c, t) then (c, TransferOtherStatus)
    else if Overdraws(c, t) then (c, TransferExceedsCredits)
    else (Post(c, t, clock), TransferCreated)
  }

  // ---- The adapter

  /** A wallet, and its currency's settlement account, are open on the currency's ledger. */
  predicate AccountsOpen(c: Cluster, ledger: nat, wallet: Id) {
    && SettlementAccount(ledger) in c.accounts && c.accounts[SettlementAccount(ledger)].spec == SettlementSpec(ledger)
    && WalletAccount(wallet) in c.accounts && c.accounts[WalletAccount(wallet)].spec == WalletSpec(ledger)
  }

  /** The wallet's account is not taken by another currency's ledger. */
  predicate Openable(c: Cluster, ledger: nat, wallet: Id) {
    WalletAccount(wallet) in c.accounts ==> c.accounts[WalletAccount(wallet)].spec.ledger == ledger
  }

  datatype LedgerError = NoError | Rejected | InsufficientFunds | CrossCurrency | Unavailable

  datatype DepositParam = DepositParam(id: Id, wallet: Id, currency: string, amount: Int64)

  datatype TransferParam =
    TransferParam(id: Id, sender: Id, recipient: Id, senderCurrency: string, recipientCurrency: string, amount: Int64)

  /** The cluster's side of one adapter call: what became of each request, and its clock. */
  datatype Weather = Weather(first: Delivery, second: Delivery, post: Delivery, refused: bool, clock: nat)

  function SettlementSpec(ledger: nat): AccountSpec { AccountSpec(ledger, ACCOUNT_SETTLEMENT, false) }

  function WalletSpec(ledger: nat): AccountSpec { AccountSpec(ledger, ACCOUNT_WALLET, true) }

  /** One request opening a ledger's settlement account and a wallet's account. */
  function OpenAccounts(c: Cluster, ledger: nat, wallet: Id): (Cluster, AccountStatus, AccountStatus) {
    var (c1, s1) := CreateAccount(c, SettlementAccount(ledger), SettlementSpec(ledger));
    var (c2, s2) := CreateAccount(c1, WalletAccount(wallet), WalletSpec(ledger));
    (c2, s1, s2)
  }

  function EnsureAccounts(c: Cluster, ledger: nat, wallet: Id, d: Delivery): (Cluster, LedgerError) {
    var (c', s1, s2) := OpenAccounts(c, ledger, wallet);
    match d
    case LostBefore => (c, Unavailable)
    case LostAfter => (c', Unavailable)
    case Replied => (c', if s1.AccountConflict? || s2.AccountConflict? then Rejected else NoError)
  }

  function TransferError(s: TransferStatus, overdraft: LedgerError): LedgerError {
    match s
    case TransferCreated => NoError
    case TransferExists => NoError
    case TransferExceedsCredits => overdraft
    case TransferOtherStatus => Rejected
  }

  /** One create-transfers request. `overdraft` is what the caller makes of TransferExceedsCredits. */
  function Submit(c: Cluster, t: Transfer, overdraft: LedgerError, w: Weather): (Cluster, LedgerError) {
    var (c', s) := CreateTransfer(c, t, w.refused, w.clock);
    match w.post
    case LostBefore => (c, Unavailable)
    case LostAfter => (c', Unavailable)
    case Replied => (c', TransferError(s, overdraft))
  }

  function DepositEntry(id: Id, wallet: Id, ledger: nat, amount: nat): Transfer {
    Transfer(id, SettlementAccount(ledger), WalletAccount(wallet), amount, ledger, TRANSFER_DEPOSIT)
  }

  function InternalEntry(id: Id, sender: Id, recipient: Id, ledger: nat, amount: nat): Transfer {
    Transfer(id, WalletAccount(sender), WalletAccount(recipient), amount, ledger, TRANSFER_INTERNAL)
  }

  /** The entry a deposit would post, or nothing if its arguments are refused. */
  function DepositRequest(p: DepositParam): Option<Transfer> {
    if p.amount <= 0 then None
    else
      match LedgerForCurrency(p.currency)
      case None => None
      case Some(ledger) => Some(DepositEntry(p.id, p.wallet, ledger, p.amount))
  }

  function Deposit(c: Cluster, p: DepositParam, w: Weather): (Cluster, LedgerError) {
    match DepositRequest(p)
    case None => (c, Rejected)
    case Some(t) =>
      var (c1, e1) := EnsureAccounts(c, t.ledger, p.wallet, w.first);
      if e1 != NoError then (c1, e1) else Submit(c1, t, Rejected, w)
  }

  /** The argument guards of a transfer: the entry it would post, or why it is refused. */
  function TransferRequest(p: TransferParam): (LedgerError, Option<Transfer>) {
    if p.amount <= 0 || p.sender == p.recipient then (Rejected, None)
    else if !EqualFold(p.senderCurrency, p.recipientCurrency) then (CrossCurrency, None)
    else
      match LedgerForCurrency(p.senderCurrency)
      case None => (Rejected, None)
      case Some(ledger) => (NoError, Some(InternalEntry(p.id, p.sender, p.recipient, ledger, p.amount)))
  }

  function InternalTransfer(c: Cluster, p: TransferParam, w: Weather): (Cluster, LedgerError) {
    match TransferRequest(p)
    case (e, None) => (c, e)
    case (_, Some(t)) =>
      var (c1, e1) := EnsureAccounts(c, t.ledger, p.sender, w.first);
      if e1 != NoError then (c1, e1) else
      var (c2, e2) := EnsureAccounts(c1, t.ledger, p.recipient, w.second);
      if e2 != NoError then (c2, e2) else Submit(c2, t, InsufficientFunds, w)
  }

  // ---- Whole histories of adapter calls

  datatype Command =
    | DepositCall(deposit: DepositParam)
    | TransferCall(transfer: TransferParam)
    | EnsureCall(wallet: Id, currency: string)

  function Perform(c: Cluster, call: Command, w: Weather): (Cluster, LedgerError) {
    match call
    case DepositCall(p) => Deposit(c, p, w)
    case TransferCall(p) => InternalTransfer(c, p, w)
    case EnsureCall(wallet, currency) =>
      match LedgerForCurrency(currency)
      case None => (c, Rejected)
      case Some(ledger) => EnsureAccounts(c, ledger, wallet, w.first)
  }

  function PerformAll(c: Cluster, calls: seq<(Command, Weather)>): Cluster
    decreases |calls|
  {
    if calls == [] then c
    else PerformAll(Perform(c, calls[0].0, calls[0].1).0, calls[1..])
  }

  /** The id a call may post under. */
  predicate PostsUnder(call: Command, id: Id) {
    match call
    case DepositCall(p) => p.id == id
    case TransferCall(p) => p.id == id
    case EnsureCall(_, _) => false
  }

  // ---- Reading the log

  function Debited(log: seq<Posted>, a: AccountId): nat {
    if log == [] then 0
    else
      var t := log[|log| - 1].transfer;
      Debited(log[..|log| - 1], a) + (if t.debit == a then t.amount else 0)
  }

  function Credited(log: seq<Posted>, a: AccountId): nat {
    if log == [] then 0
    else
      var t := log[|log| - 1].transfer;
      Credited(log[..|log| - 1], a) + (if t.credit == a then t.amount else 0)
  }

  // ---- What every reachable cluster satisfies

  predicate SpecOk(id: AccountId, spec: AccountSpec) {
    match id
    case WalletAccount(_) => spec == WalletSpec(spec.ledger)
    case SettlementAccount(n) => spec == SettlementSpec(n)
  }

  /** A deposit from the settlement account, or a move between two wallets. */
  predicate EntryOk(t: Transfer) {
    && 0 < t.amount <= INT64_MAX
    && t.credit.WalletAccount?
    && (t.code == TRANSFER_DEPOSIT ==> t.debit == SettlementAccount(t.ledger))
    && (t.code != TRANSFER_DEPOSIT ==> t.code == TRANSFER_INTERNAL && t.debit.WalletAccount? && t.debit != t.credit)
  }

  ghost predicate AccountsOk(c: Cluster) {
    forall a :: a in c.accounts ==>
      && SpecOk(a, c.accounts[a].spec)
      && c.accounts[a].debits == Debited(c.log, a)
      && c.accounts[a].credits == Credited(c.log, a)
      && (c.accounts[a].spec.capped ==> c.accounts[a].debits <= c.accounts[a].credits)
  }

  /** A posted entry's accounts, and its currency's settlement account, are open on its ledger. */
  predicate Settled(c: Cluster, t: Transfer) {
    Postable(c, t) && SettlementAccount(t.ledger) in c.accounts
  }

  ghost predicate LogOk(c: Cluster) {
    && (forall i :: 0 <= i < |c.log| ==> EntryOk(c.log[i].transfer) && Settled(c, c.log[i].transfer))
    && (forall i, j :: 0 <= i < j < |c.log| ==> c.log[i].transfer.id != c.log[j].transfer.id)
    && (forall i, j :: 0 <= i < j < |c.log| ==> c.log[i].timestamp < c.log[j].timestamp)
  }

  ghost predicate ClusterOk(c: Cluster) {
    AccountsOk(c) && LogOk(c)
  }

  /** What no request ever takes back: an account's terms, a posted transfer. */
  ghost predicate Extends(c: Cluster, c': Cluster) {
    && (forall a :: a in c.accounts ==> a in c'.accounts && c'.accounts[a].spec == c.accounts[a].spec)
    && c.log <= c'.log
    && (forall id :: Find(c.log, id).Some? ==> Find(c'.log, id) == Find(c.log, id))
  }
}
