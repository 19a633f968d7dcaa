/** How often one payment shows up in a user's history. */
module HistoryCounts {
  import opened Common
  import opened LedgerModel
  import opened LedgerSafety
  import opened StableSort
  import opened LedgerAdapter
  import opened HistoryModel
  import opened HistoryTheorems
  import DepositMachine
  import DepositSafety
  import DepositWitness
  import TransferMachine
  import TransferSafety

  function Count<T>(s: seq<Keyed<T>>, p: T -> bool): nat {
    if s == [] then 0 else (if p(s[0].row) then 1 else 0) + Count(s[1..], p)
  }

  lemma CountCons<T>(x: Keyed<T>, s: seq<Keyed<T>>, p: T -> bool)
    ensures Count([x] + s, p) == (if p(x.row) then 1 else 0) + Count(s, p)
  {
    assert ([x] + s)[1..] == s;
  }

  lemma {:induction false} CountConcat<T>(a: seq<Keyed<T>>, b: seq<Keyed<T>>, p: T -> bool)
    ensures Count(a + b, p) == Count(a, p) + Count(b, p)
  {
    if a == [] {
      assert a + b == b;
    } else {
      CountConcat(a[1..], b, p);
      assert a + b == [a[0]] + (a[1..] + b);
      CountCons(a[0], a[1..] + b, p);
    }
  }

  lemma {:induction false} CountMerge<T>(a: seq<Keyed<T>>, b: seq<Keyed<T>>, p: T -> bool)
    ensures Count(Merge(a, b), p) == Count(a, p) + Count(b, p)
    decreases |a| + |b|
  {
    if a == [] || b == [] {
    } else if a[0].key >= b[0].key {
      CountMerge(a[1..], b, p);
      CountCons(a[0], Merge(a[1..], b), p);
    } else {
      CountMerge(a, b[1..], p);
      CountCons(b[0], Merge(a, b[1..]), p);
    }
  }

  lemma {:induction false} CountSorted<T>(s: seq<Keyed<T>>, p: T -> bool)
    ensures Count(Sorted(s), p) == Count(s, p)
  {
    if s != [] {
      CountSorted(s[1..], p);
      CountMerge([s[0]], Sorted(s[1..]), p);
    }
  }

  lemma {:induction false} CountMap<A(!new), B(!new)>(f: A -> B, s: seq<Keyed<A>>, p: B -> bool, q: A -> bool)
    requires forall x :: q(x) == p(f(x))
    ensures Count(MapRows(f, s), p) == Count(s, q)
  {
    if s != [] {
      CountMap(f, s[1..], p, q);
      assert MapRows(f, s)[1..] == MapRows(f, s[1..]);
    }
  }

  // ---- In the ledger's half

  /** A history row about a given payment. */
  function About(id: Id, kind: Kind): Transaction -> bool {
    (row: Transaction) => row.reference == id && row.kind == kind
  }

  function KindOf(code: nat): Kind {
    if code == TRANSFER_DEPOSIT then DEPOSIT else TRANSFER
  }

  function MovedUnder(id: Id, kind: Kind): Movement -> bool {
    (m: Movement) => m.transfer == id && KindOf(m.code) == kind
  }

  /** The posted entry of a payment has the wallet on one of its sides. */
  predicate Touches(log: seq<Posted>, id: Id, kind: Kind, wallet: Id) {
    match Find(log, id)
    case None => false
    case Some(t) => KindOf(t.code) == kind && (t.debit == WalletAccount(wallet) || t.credit == WalletAccount(wallet))
  }

  predicate DistinctIds(log: seq<Posted>) {
    forall i, j :: 0 <= i < j < |log| ==> log[i].transfer.id != log[j].transfer.id
  }

  lemma LastCounts(last: Posted, rest: seq<Posted>, id: Id, kind: Kind, wallet: Id)
    ensures Count(MovementsOf(wallet, [last] + rest), MovedUnder(id, kind))
            == (if last.transfer.id == id && KindOf(last.transfer.code) == kind then 1 else 0)
               + Count(MovementsOf(wallet, rest), MovedUnder(id, kind))
    ensures [] + rest == rest
  {
    assert MovementsOf(wallet, [last] + rest) == [MovementOf(wallet, last)] + MovementsOf(wallet, rest);
    CountCons(MovementOf(wallet, last), MovementsOf(wallet, rest), MovedUnder(id, kind));
  }

  lemma {:induction false} WalletCount(log: seq<Posted>, id: Id, kind: Kind, wallet: Id)
    requires DistinctIds(log)
    ensures Count(MovementsOf(wallet, EntriesOf(log, WalletAccount(wallet))), MovedUnder(id, kind))
            == if Touches(log, id, kind, wallet) then 1 else 0
  {
    if log != [] {
      var last, front := log[|log| - 1], log[..|log| - 1];
      WalletCount(front, id, kind, wallet);
      FindIsMembership(front, id);
      LastCounts(last, EntriesOf(front, WalletAccount(wallet)), id, kind, wallet);
      LastEntry(log, |log| - 1, WalletAccount(wallet));
      assert log[..|log|] == log;
      hide Count, EntriesOf, MovementsOf;
    }
  }

  /** How many of the listed wallets the entry touches. */
  function Sides(log: seq<Posted>, id: Id, kind: Kind, wallets: seq<Id>): nat {
    if wallets == [] then 0
    else
      Sides(log, id, kind, wallets[..|wallets| - 1])
      + (if Touches(log, id, kind, wallets[|wallets| - 1]) then 1 else 0)
  }

  lemma {:induction false} PerWalletCount(log: seq<Posted>, id: Id, kind: Kind, wallets: seq<Id>, scan: nat)
    requires DistinctIds(log) && |log| <= scan
    ensures Count(PerWallet(log, wallets, scan), MovedUnder(id, kind)) == Sides(log, id, kind, wallets)
  {
    if wallets != [] {
      var last, front := wallets[|wallets| - 1], wallets[..|wallets| - 1];
      PerWalletCount(log, id, kind, front, scan);
      EntriesOfIsShort(log, WalletAccount(last));
      WalletCount(log, id, kind, last);
      CountConcat(PerWallet(log, front, scan), MovementsOf(last, EntriesOf(log, WalletAccount(last))),
        MovedUnder(id, kind));
    }
  }

  lemma SettledCount(s: Store, id: Id, kind: Kind)
    requires DistinctIds(s.log)
    ensures Count(SettledRows(s, Everything(s)), About(id, kind)) == Sides(s.log, id, kind, s.wallets)
  {
    hide Sorted, MapRows, PerWallet;
    var movements := PerWallet(s.log, s.wallets, Everything(s));
    CountMap(MovementView(s.user, s.intents), Sorted(movements), About(id, kind), MovedUnder(id, kind));
    CountSorted(movements, MovedUnder(id, kind));
    PerWalletCount(s.log, id, kind, s.wallets, Everything(s));
  }

  predicate DistinctWallets(wallets: seq<Id>) {
    forall i, j :: 0 <= i < j < |wallets| ==> wallets[i] != wallets[j]
  }

  /** An entry's wallets, among the listed ones. */
  function OwnSides(t: Transfer, wallets: seq<Id>): set<Id> {
    set w | w in wallets && (t.debit == WalletAccount(w) || t.credit == WalletAccount(w))
  }

  lemma {:induction false} SidesAreOwn(log: seq<Posted>, id: Id, kind: Kind, wallets: seq<Id>)
    requires DistinctWallets(wallets) && Find(log, id).Some? && KindOf(Find(log, id).value.code) == kind
    ensures Sides(log, id, kind, wallets) == |OwnSides(Find(log, id).value, wallets)|
  {
    if wallets != [] {
      var last, front := wallets[|wallets| - 1], wallets[..|wallets| - 1];
      SidesAreOwn(log, id, kind, front);
      var t := Find(log, id).value;
      assert wallets == front + [last];
      if Touches(log, id, kind, last) {
        assert OwnSides(t, wallets) == OwnSides(t, front) + {last};
      } else {
        assert OwnSides(t, wallets) == OwnSides(t, front);
      }
    }
  }

  lemma {:induction false} NoSides(log: seq<Posted>, id: Id, kind: Kind, wallets: seq<Id>)
    requires Find(log, id).None? || KindOf(Find(log, id).value.code) != kind
    ensures Sides(log, id, kind, wallets) == 0
  {
    if wallets != [] {
      NoSides(log, id, kind, wallets[..|wallets| - 1]);
    }
  }

  // ---- In Postgres' half

  function IntentWith(id: Id): ListedIntent -> bool {
    (row: ListedIntent) => row.id == id
  }

  function TransferWith(id: Id): ListedTransfer -> bool {
    (row: ListedTransfer) => row.id == id
  }

  lemma {:induction false} IntentAbsent(user: Id, rows: seq<ListedIntent>, id: Id)
    requires forall i :: 0 <= i < |rows| ==> rows[i].id != id
    ensures Count(UnsettledIntents(user, rows), IntentWith(id)) == 0
  {
    if rows != [] {
      var last, front := rows[|rows| - 1], rows[..|rows| - 1];
      IntentAbsent(user, front, id);
      CountConcat(UnsettledIntents(user, front), [Keyed(last.createdAt, last)], IntentWith(id));
      assert UnsettledIntents(user, front) + [] == UnsettledIntents(user, front);
    }
  }

  lemma {:induction false} IntentListed(user: Id, rows: seq<ListedIntent>, k: nat)
    requires k < |rows| && forall i, j :: 0 <= i < j < |rows| ==> rows[i].id != rows[j].id
    ensures Count(UnsettledIntents(user, rows), IntentWith(rows[k].id))
            == if rows[k].user == user && rows[k].status != SUCCESS then 1 else 0
  {
    var last, front := rows[|rows| - 1], rows[..|rows| - 1];
    if k == |rows| - 1 {
      IntentAbsent(user, front, last.id);
    } else {
      IntentListed(user, front, k);
    }
    CountConcat(UnsettledIntents(user, front), [Keyed(last.createdAt, last)], IntentWith(rows[k].id));
    assert UnsettledIntents(user, front) + [] == UnsettledIntents(user, front);
  }

  predicate Party(row: ListedTransfer, user: Id) {
    row.senderUser == user || row.recipientUser == user
  }

  lemma {:induction false} TransferAbsent(user: Id, rows: seq<ListedTransfer>, id: Id)
    requires forall i :: 0 <= i < |rows| ==> rows[i].id != id
    ensures Count(UnsettledTransfers(user, rows), TransferWith(id)) == 0
  {
    if rows != [] {
      var last, front := rows[|rows| - 1], rows[..|rows| - 1];
      TransferAbsent(user, front, id);
      CountConcat(UnsettledTransfers(user, front), [Keyed(last.createdAt, last)], TransferWith(id));
      assert UnsettledTransfers(user, front) + [] == UnsettledTransfers(user, front);
    }
  }

  lemma {:induction false} TransferListed(user: Id, rows: seq<ListedTransfer>, k: nat)
    requires k < |rows| && forall i, j :: 0 <= i < j < |rows| ==> rows[i].id != rows[j].id
    ensures Count(UnsettledTransfers(user, rows), TransferWith(rows[k].id))
            == if Party(rows[k], user) && rows[k].status != SUCCESS then 1 else 0
  {
    var last, front := rows[|rows| - 1], rows[..|rows| - 1];
    if k == |rows| - 1 {
      TransferAbsent(user, front, last.id);
    } else {
      TransferListed(user, front, k);
    }
    CountConcat(UnsettledTransfers(user, front), [Keyed(last.createdAt, last)], TransferWith(rows[k].id));
    assert UnsettledTransfers(user, front) + [] == UnsettledTransfers(user, front);
  }

  lemma {:induction false} CountNone<T>(s: seq<Keyed<T>>, p: T -> bool)
    requires forall i :: 0 <= i < |s| ==> !p(s[i].row)
    ensures Count(s, p) == 0
  {
    if s != [] {
      CountNone(s[1..], p);
    }
  }

  lemma IntentRowsUncut(s: Store)
    ensures IntentRows(s, Everything(s)) == MapRows(DescribeIntent, Sorted(UnsettledIntents(s.user, s.intents)))
    ensures TransferRows(s, Everything(s))
      == MapRows(TransferView(s.user), Sorted(UnsettledTransfers(s.user, s.transfers)))
  {
    hide Sorted, MapRows;
    UnsettledIntentsShort(s.user, s.intents);
    UnsettledTransfersShort(s.user, s.transfers);
  }

  lemma IntentRowsCount(s: Store, id: Id)
    ensures Count(IntentRows(s, Everything(s)), About(id, DEPOSIT))
      == Count(UnsettledIntents(s.user, s.intents), IntentWith(id))
    ensures Count(IntentRows(s, Everything(s)), About(id, TRANSFER)) == 0
  {
    hide Sorted, IntentRows, Count;
    IntentRowsUncut(s);
    CountMap(DescribeIntent, Sorted(UnsettledIntents(s.user, s.intents)), About(id, DEPOSIT), IntentWith(id));
    CountSorted(UnsettledIntents(s.user, s.intents), IntentWith(id));
    CountNone(IntentRows(s, Everything(s)), About(id, TRANSFER));
  }

  lemma TransferRowsCount(s: Store, id: Id)
    ensures Count(TransferRows(s, Everything(s)), About(id, TRANSFER))
      == Count(UnsettledTransfers(s.user, s.transfers), TransferWith(id))
    ensures Count(TransferRows(s, Everything(s)), About(id, DEPOSIT)) == 0
  {
    hide Sorted, TransferRows, Count;
    IntentRowsUncut(s);
    CountMap(TransferView(s.user), Sorted(UnsettledTransfers(s.user, s.transfers)), About(id, TRANSFER),
      TransferWith(id));
    CountSorted(UnsettledTransfers(s.user, s.transfers), TransferWith(id));
    CountNone(TransferRows(s, Everything(s)), About(id, DEPOSIT));
  }

  // ---- In the whole history

  lemma HistoryCount(s: Store, id: Id, kind: Kind)
    requires DistinctIds(s.log)
    ensures Count(FullHistory(s), About(id, kind))
            == Sides(s.log, id, kind, s.wallets)
               + (if kind == DEPOSIT then Count(UnsettledIntents(s.user, s.intents), IntentWith(id))
                  else Count(UnsettledTransfers(s.user, s.transfers), TransferWith(id)))
  {
    hide Sorted, Count, SettledRows, IntentRows, TransferRows;
    var all, p := Everything(s), About(id, kind);
    CountSorted(SettledRows(s, all) + (IntentRows(s, all) + TransferRows(s, all)), p);
    CountConcat(SettledRows(s, all), IntentRows(s, all) + TransferRows(s, all), p);
    CountConcat(IntentRows(s, all), TransferRows(s, all), p);
    SettledCount(s, id, kind);
    IntentRowsCount(s, id);
    TransferRowsCount(s, id);
  }

  /** A user's rows have distinct ids, and so have the wallets and the ledger's entries. */
  predicate Keys(s: Store) {
    && DistinctIds(s.log) && DistinctWallets(s.wallets)
    && (forall i, j :: 0 <= i < j < |s.intents| ==> s.intents[i].id != s.intents[j].id)
    && (forall i, j :: 0 <= i < j < |s.transfers| ==> s.transfers[i].id != s.transfers[j].id)
  }

  predicate IsPosted(s: Store, id: Id) { Find(s.log, id).Some? }

  /** One of the user's deposits is listed once by the ledger if it is credited and once by Postgres
      if it does not say SUCCESS: exactly once if and only if SUCCESS means credited, and back. */
  lemma DepositAppears(s: Store, k: nat)
    requires Keys(s) && k < |s.intents| && s.intents[k].user == s.user && s.intents[k].wallet in s.wallets
    requires forall t :: Find(s.log, s.intents[k].id) == Some(t) ==>
               t.code == TRANSFER_DEPOSIT && t.debit.SettlementAccount?
                 && t.credit == WalletAccount(s.intents[k].wallet)
    ensures var i := s.intents[k];
            var n := Count(FullHistory(s), About(i.id, DEPOSIT));
            && n == (if IsPosted(s, i.id) then 1 else 0) + (if i.status != SUCCESS then 1 else 0)
            && (n == 1 <==> (i.status == SUCCESS <==> IsPosted(s, i.id)))
  {
    hide Count, FullHistory, Sides, Find;
    var i := s.intents[k];
    HistoryCount(s, i.id, DEPOSIT);
    IntentListed(s.user, s.intents, k);
    if IsPosted(s, i.id) {
      var t := Find(s.log, i.id).value;
      SidesAreOwn(s.log, i.id, DEPOSIT, s.wallets);
      assert OwnSides(t, s.wallets) == {i.wallet};
    } else {
      NoSides(s.log, i.id, DEPOSIT, s.wallets);
    }
  }

  /** A transfer the user is party to is listed once for each of the user's wallets it touched, if it
      moved, and once by Postgres if it does not say SUCCESS. */
  lemma TransferAppears(s: Store, k: nat)
    requires Keys(s) && k < |s.transfers| && Party(s.transfers[k], s.user)
    requires forall t :: Find(s.log, s.transfers[k].id) == Some(t) ==>
               && t.code == TRANSFER_INTERNAL
               && t.debit == WalletAccount(s.transfers[k].senderWallet)
               && t.credit == WalletAccount(s.transfers[k].recipientWallet)
    ensures var t := s.transfers[k];
            var own := set w | w in s.wallets && w in {t.senderWallet, t.recipientWallet};
            Count(FullHistory(s), About(t.id, TRANSFER))
            == (if IsPosted(s, t.id) then |own| else 0) + (if t.status != SUCCESS then 1 else 0)
  {
    hide Count, FullHistory, Sides, Find;
    var t := s.transfers[k];
    HistoryCount(s, t.id, TRANSFER);
    TransferListed(s.user, s.transfers, k);
    if IsPosted(s, t.id) {
      SidesAreOwn(s.log, t.id, TRANSFER, s.wallets);
      assert OwnSides(Find(s.log, t.id).value, s.wallets) == set w | w in s.wallets
        && w in {t.senderWallet, t.recipientWallet};
    } else {
      NoSides(s.log, t.id, TRANSFER, s.wallets);
    }
  }

  /** The store shows the user's rows of a world of the deposit saga, and its ledger. */
  predicate Shows(s: Store, w: DepositMachine.World) {
    && s.log == w.cluster.log
    && (forall k :: 0 <= k < |s.intents| ==>
          && s.intents[k].id in w.intents
          && s.intents[k].wallet == w.intents[s.intents[k].id].wallet
          && s.intents[k].status == w.intents[s.intents[k].id].status)
  }

  /** Whenever a user looks, whatever the payment tasks are doing: none of the user's deposits is
      missing from the history, and one shows twice exactly as long as it is credited and does not say
      SUCCESS. */
  lemma NoDepositGoesMissing(c: DepositMachine.Config, events: seq<DepositMachine.Event>, s: Store, k: nat)
    requires DepositMachine.Initial(c) && Shows(s, DepositMachine.Run(c, events).world)
    requires Keys(s) && k < |s.intents| && s.intents[k].user == s.user && s.intents[k].wallet in s.wallets
    ensures var i := s.intents[k];
            Count(FullHistory(s), About(i.id, DEPOSIT))
            == if i.status != SUCCESS && DepositMachine.IsCredited(DepositMachine.Run(c, events).world, i.id) then 2
               else 1
  {
    DepositSafety.RunKeeps(c, events);
    hide Count, FullHistory, Find, ClusterOk, DepositMachine.Run, DepositMachine.Exec;
    var w, id := DepositMachine.Run(c, events).world, s.intents[k].id;
    assert DepositSafety.FileOk(id, DepositSafety.FileOf(w, id));
    DepositAppears(s, k);
  }

  /** From any beginning, some run has a user look while the deposit is listed twice. */
  lemma DepositShowsTwice(c: DepositMachine.Config, user: Id, id: Id, wallet: Id, amount: Int64)
    returns (events: seq<DepositMachine.Event>, s: Store)
    requires DepositMachine.Initial(c) && DepositWitness.Unseen(c, id, wallet, amount)
    ensures Keys(s) && Shows(s, DepositMachine.Run(c, events).world) && s.user == user && s.wallets == [wallet]
    ensures Count(FullHistory(s), About(id, DEPOSIT)) == 2
  {
    hide Count, FullHistory, Find, DepositMachine.Run, DepositMachine.Exec;
    events := DepositWitness.CreditedStillPending(c, id, wallet, amount);
    var w := DepositMachine.Run(c, events).world;
    s := Store(user, [wallet], [ListedIntent(id, user, wallet, amount, PENDING, "", 0)], [], w.cluster.log);
    DepositSafety.RunKeeps(c, events) by { assert DepositSafety.ConfigOk(c); }
    NoDepositGoesMissing(c, events, s, 0);
  }

  /** The store shows the user's rows of a world of the transfer saga, and its ledger. */
  predicate ShowsTransfers(s: Store, w: TransferMachine.World) {
    && s.log == w.cluster.log
    && (forall k :: 0 <= k < |s.transfers| ==>
          && s.transfers[k].id in w.transfers
          && s.transfers[k].senderWallet == w.transfers[s.transfers[k].id].sender
          && s.transfers[k].recipientWallet == w.transfers[s.transfers[k].id].recipient
          && s.transfers[k].status == w.transfers[s.transfers[k].id].status)
  }

  /** Whenever a user looks, whatever the transfer tasks are doing: a transfer from or to one of the
      user's wallets is in the history, once for each of those wallets if it moved, and once more until it
      says SUCCESS. */
  lemma NoTransferGoesMissing(
    c: TransferMachine.Config, events: seq<TransferMachine.Event>, s: Store, k: nat)
    requires TransferMachine.Initial(c) && ShowsTransfers(s, TransferMachine.Run(c, events).world)
    requires Keys(s) && k < |s.transfers| && Party(s.transfers[k], s.user)
    requires s.transfers[k].senderWallet in s.wallets || s.transfers[k].recipientWallet in s.wallets
    ensures var t := s.transfers[k];
            var own := set w | w in s.wallets && w in {t.senderWallet, t.recipientWallet};
            var moved := TransferMachine.HasMoved(TransferMachine.Run(c, events).world, t.id);
            var n := Count(FullHistory(s), About(t.id, TRANSFER));
            && n == (if moved then |own| else 0) + (if t.status != SUCCESS then 1 else 0)
            && n >= 1
  {
    TransferSafety.RunKeeps(c, events);
    hide Count, FullHistory, Find, ClusterOk, TransferMachine.Run, TransferMachine.Exec;
    var w, t := TransferMachine.Run(c, events).world, s.transfers[k];
    assert TransferSafety.FileOk(t.id, w.transfers[t.id], Find(w.cluster.log, t.id));
    TransferAppears(s, k);
    var own := set w | w in s.wallets && w in {t.senderWallet, t.recipientWallet};
    assert own != {} by {
      assert t.senderWallet in own || t.recipientWallet in own;
    }
  }
}
