/** The listing as it is written: queries answered or lost, rows appended in loops, one sort, one page
    copied out. */
module HistoryService {
  import opened Common
  import opened LedgerModel
  import opened StableSort
  import opened LedgerAdapter
  import opened HistoryModel
  import opened HistoryTheorems

  /** LIMIT; a negative one is no limit. */
  function Limited<T>(rows: seq<T>, limit: int): seq<T> {
    if limit < 0 then rows else Take(rows, limit)
  }

  class TransactionRepository {
    var wallets: map<Id, seq<Id>>
    var intents: seq<ListedIntent>
    var transfers: seq<ListedTransfer>

    constructor (wallets: map<Id, seq<Id>>, intents: seq<ListedIntent>, transfers: seq<ListedTransfer>)
      ensures this.wallets == wallets && this.intents == intents && this.transfers == transfers
    {
      this.wallets, this.intents, this.transfers := wallets, intents, transfers;
    }

    function WalletsOf(user: Id): seq<Id>
      reads this
    {
      if user in wallets then wallets[user] else []
    }

    /** WHERE user_id = ? AND status <> SUCCESS ORDER BY created_at DESC LIMIT ?. */
    method ListUnsettledIntents(user: Id, limit: int, d: Delivery) returns (heard: bool, rows: seq<Keyed<ListedIntent>>)
      ensures heard == (d == Replied)
      ensures heard ==> rows == Limited(Sorted(UnsettledIntents(user, intents)), limit)
    {
      heard, rows := d == Replied, [];
      for i := 0 to |intents|
        invariant rows == UnsettledIntents(user, intents[..i])
      {
        assert intents[..i + 1][..i] == intents[..i];
        if intents[i].user == user && intents[i].status != SUCCESS {
          rows := rows + [Keyed(intents[i].createdAt, intents[i])];
        }
      }
      assert intents[..|intents|] == intents;
      rows := Limited(Sorted(rows), limit);
    }

    /** WHERE (sender_user_id = ? OR recipient_user_id = ?) AND status <> SUCCESS ORDER BY created_at DESC LIMIT ?. */
    method ListUnsettledTransfers(user: Id, limit: int, d: Delivery)
        returns (heard: bool, rows: seq<Keyed<ListedTransfer>>)
      ensures heard == (d == Replied)
      ensures heard ==> rows == Limited(Sorted(UnsettledTransfers(user, transfers)), limit)
    {
      heard, rows := d == Replied, [];
      for i := 0 to |transfers|
        invariant rows == UnsettledTransfers(user, transfers[..i])
      {
        assert transfers[..i + 1][..i] == transfers[..i];
        var row := transfers[i];
        if (row.senderUser == user || row.recipientUser == user) && row.status != SUCCESS {
          rows := rows + [Keyed(row.createdAt, row)];
        }
      }
      assert transfers[..|transfers|] == transfers;
      rows := Limited(Sorted(rows), limit);
    }

    /** Asks nothing, and cannot fail, when there is nothing to look for. */
    method GetIntentsByIDs(ids: seq<Id>, d: Delivery) returns (heard: bool, found: map<Id, ListedIntent>)
      ensures heard == (ids == [] || d == Replied)
      ensures heard ==> forall id :: id in ids ==>
                if id in found then FindIntent(intents, id) == Some(found[id]) else FindIntent(intents, id).None?
      ensures forall id :: id in found ==> id in ids
    {
      found := map[];
      heard := ids == [] || d == Replied;
      if ids == [] || !heard {
        return;
      }
      for i := 0 to |intents|
        invariant forall id :: id in found ==> id in ids
        invariant forall id :: id in ids ==>
          if id in found then FindIntent(intents[..i], id) == Some(found[id]) else FindIntent(intents[..i], id).None?
      {
        assert intents[..i + 1][..i] == intents[..i];
        if intents[i].id in ids {
          found := found[intents[i].id := intents[i]];
        }
      }
      assert intents[..|intents|] == intents;
    }
  }

  /** What becomes of the listing's five queries. */
  datatype Replies = Replies(wallets: Delivery, movements: Delivery, providers: Delivery, intents: Delivery,
    transfers: Delivery)

  datatype Failure = NoFailure | InternalServerError | BadGateway

  datatype TransactionList = TransactionList(transactions: seq<Transaction>, total: nat, limit: nat, offset: nat)

  predicate HasDeposit(movements: seq<Keyed<Movement>>) {
    exists i :: 0 <= i < |movements| && movements[i].row.code == TRANSFER_DEPOSIT
  }

  /** The first query to fail decides; a query that is not needed cannot fail. */
  function SettledTrouble(s: Store, scan: nat, r: Replies): Failure {
    if r.wallets != Replied then InternalServerError
    else if s.wallets == [] then NoFailure
    else if scan > 0 && r.movements != Replied then BadGateway
    else if HasDeposit(Sorted(PerWallet(s.log, s.wallets, scan))) && r.providers != Replied then InternalServerError
    else NoFailure
  }

  function UnsettledTrouble(r: Replies): Failure {
    if r.intents != Replied || r.transfers != Replied then InternalServerError else NoFailure
  }

  const DEFAULT_ACTIVITY_LIMIT := 20
  const MAX_ACTIVITY_LIMIT := 100

  /** The page a caller may ask for is clamped into 1..100 rows from a position of at least 0. */
  function Normalise(limit: Option<int>, offset: Option<int>): (page: (nat, nat))
    ensures 1 <= page.0 <= 100
    ensures limit.Some? && 1 <= limit.value <= 100 ==> page.0 == limit.value
    ensures limit.None? || limit.value < 1 ==> page.0 == 20
    ensures limit.Some? && limit.value > 100 ==> page.0 == 100
    ensures page.1 == if offset.Some? && offset.value >= 0 then offset.value else 0
  {
    var asked := if limit.Some? then limit.value else DEFAULT_ACTIVITY_LIMIT;
    var positive := if asked < 1 then DEFAULT_ACTIVITY_LIMIT else asked;
    (if positive > MAX_ACTIVITY_LIMIT then MAX_ACTIVITY_LIMIT else positive,
     if offset.Some? && offset.value > 0 then offset.value else 0)
  }

  /** The window, as the 64-bit sum comes out: negative if it wraps. */
  function Window(offset: nat, limit: nat): int {
    var sum := Wrap64(offset + limit);
    if sum > MAX_HISTORY_SCAN then MAX_HISTORY_SCAN else sum
  }

  /** The ledger is asked with the window's low 32 bits. */
  function LedgerWindow(offset: nat, limit: nat): nat { Window(offset, limit) % 0x1_0000_0000 }

  function UnsettledRows(s: Store, scan: int): seq<Keyed<Transaction>> {
    var limit: nat := if scan < 0 then Everything(s) else scan;
    IntentRows(s, limit) + TransferRows(s, limit)
  }

  /** The rows the page is cut from. */
  function Listed(s: Store, offset: nat, limit: nat): seq<Keyed<Transaction>> {
    Sorted(SettledRows(s, LedgerWindow(offset, limit)) + UnsettledRows(s, Window(offset, limit)))
  }

  /** If the sum does not wrap, they are the merged sources. */
  lemma ListedIsMerged(s: Store, offset: nat, limit: nat)
    requires offset + limit <= INT64_MAX
    ensures LedgerWindow(offset, limit) == Scan(offset, limit)
    ensures Listed(s, offset, limit) == Merged(s, Scan(offset, limit))
  {
    hide Sorted, SettledRows, IntentRows, TransferRows;
  }

  lemma NoLimitIsEverything(s: Store)
    ensures Take(Sorted(UnsettledIntents(s.user, s.intents)), Everything(s))
            == Sorted(UnsettledIntents(s.user, s.intents))
    ensures Take(Sorted(UnsettledTransfers(s.user, s.transfers)), Everything(s))
            == Sorted(UnsettledTransfers(s.user, s.transfers))
  {
    hide Sorted;
    UnsettledIntentsShort(s.user, s.intents);
    UnsettledTransfersShort(s.user, s.transfers);
  }

  class Service {
    const repository: TransactionRepository
    const ledger: LedgerAdapter.Ledger

    constructor (repository: TransactionRepository, ledger: LedgerAdapter.Ledger)
      ensures this.repository == repository && this.ledger == ledger
    {
      this.repository, this.ledger := repository, ledger;
    }

    function StoreOf(user: Id): Store
      reads repository, ledger.client
    {
      Store(user, repository.WalletsOf(user), repository.intents, repository.transfers, ledger.client.log)
    }

    method depositIDs(movements: seq<Keyed<Movement>>) returns (ids: seq<Id>)
      ensures ids != [] <==> HasDeposit(movements)
      ensures forall i :: 0 <= i < |movements| && movements[i].row.code == TRANSFER_DEPOSIT ==>
        movements[i].row.transfer in ids
    {
      ids := [];
      for i := 0 to |movements|
        invariant ids != [] <==> exists j :: 0 <= j < i && movements[j].row.code == TRANSFER_DEPOSIT
        invariant forall j :: 0 <= j < i && movements[j].row.code == TRANSFER_DEPOSIT ==>
          movements[j].row.transfer in ids
      {
        if movements[i].row.code == TRANSFER_DEPOSIT {
          ids := ids + [movements[i].row.transfer];
        }
      }
    }

    method describeMovements(user: Id, movements: seq<Keyed<Movement>>, intents: map<Id, ListedIntent>)
      returns (rows: seq<Keyed<Transaction>>)
      requires forall i :: 0 <= i < |movements| && movements[i].row.code == TRANSFER_DEPOSIT ==>
                 var id := movements[i].row.transfer;
                 if id in intents then FindIntent(repository.intents, id) == Some(intents[id])
                 else FindIntent(repository.intents, id).None?
      ensures rows == MapRows(MovementView(user, repository.intents), movements)
    {
      hide FindIntent;
      rows := [];
      for i := 0 to |movements|
        invariant |rows| == i
        invariant forall j :: 0 <= j < i ==>
          rows[j] == Keyed(movements[j].key, DescribeMovement(user, repository.intents, movements[j].row))
      {
        var movement := movements[i].row;
        var kind, provider := TRANSFER, PROVIDER_INTERNAL;
        if movement.code == TRANSFER_DEPOSIT {
          kind := DEPOSIT;
          provider := if movement.transfer in intents then intents[movement.transfer].provider else "";
        }
        var row := Transaction(movement.transfer, user, movement.wallet, movement.amount, SUCCESS, provider, kind,
          movement.direction);
        rows := rows + [Keyed(movements[i].key, row)];
      }
    }

    method settledTransactions(user: Id, scan: nat, r: Replies) returns (rows: seq<Keyed<Transaction>>, e: Failure)
      ensures e == SettledTrouble(StoreOf(user), scan, r)
      ensures e == NoFailure ==> rows == SettledRows(StoreOf(user), scan)
    {
      hide Sorted, FindIntent, HasDeposit, MapRows;
      rows := [];
      if r.wallets != Replied {
        return rows, InternalServerError;
      }
      var wallets := repository.WalletsOf(user);
      if wallets == [] {
        NoWalletsNoRows(StoreOf(user), scan);
        return rows, NoFailure;
      }
      var movements, lookup := ledger.WalletMovements(wallets, scan, r.movements);
      if lookup != NoError {
        return rows, BadGateway;
      }
      var ids := depositIDs(movements);
      var heard, intents := repository.GetIntentsByIDs(ids, r.providers);
      if !heard {
        return rows, InternalServerError;
      }
      rows := describeMovements(user, movements, intents);
      e := NoFailure;
    }

    method describeIntents(intents: seq<Keyed<ListedIntent>>) returns (rows: seq<Keyed<Transaction>>)
      ensures rows == MapRows(DescribeIntent, intents)
    {
      rows := [];
      for i := 0 to |intents|
        invariant |rows| == i
        invariant forall j :: 0 <= j < i ==> rows[j] == Keyed(intents[j].key, DescribeIntent(intents[j].row))
      {
        var intent := intents[i].row;
        var row := Transaction(intent.id, intent.user, intent.wallet, intent.amount, intent.status, intent.provider,
          DEPOSIT, CREDIT);
        rows := rows + [Keyed(intents[i].key, row)];
      }
    }

    method describeTransfers(user: Id, transfers: seq<Keyed<ListedTransfer>>) returns (rows: seq<Keyed<Transaction>>)
      ensures rows == MapRows(TransferView(user), transfers)
    {
      rows := [];
      for i := 0 to |transfers|
        invariant |rows| == i
        invariant forall j :: 0 <= j < i ==>
          rows[j] == Keyed(transfers[j].key, DescribeTransfer(user, transfers[j].row))
      {
        var transfer := transfers[i].row;
        var direction, wallet := DEBIT, transfer.senderWallet;
        if transfer.recipientUser == user {
          direction, wallet := CREDIT, transfer.recipientWallet;
        }
        var row := Transaction(transfer.id, user, wallet, transfer.amount, transfer.status, PROVIDER_INTERNAL, TRANSFER,
          direction);
        rows := rows + [Keyed(transfers[i].key, row)];
      }
    }

    method unsettledTransactions(user: Id, scan: int, r: Replies) returns (rows: seq<Keyed<Transaction>>, e: Failure)
      ensures e == UnsettledTrouble(r)
      ensures e == NoFailure ==> rows == UnsettledRows(StoreOf(user), scan)
    {
      hide Sorted, MapRows, Take;
      NoLimitIsEverything(StoreOf(user));
      rows := [];
      var heard, intents := repository.ListUnsettledIntents(user, scan, r.intents);
      if !heard {
        return rows, InternalServerError;
      }
      var transfers;
      heard, transfers := repository.ListUnsettledTransfers(user, scan, r.transfers);
      if !heard {
        return rows, InternalServerError;
      }
      var deposits := describeIntents(intents);
      var moves := describeTransfers(user, transfers);
      return deposits + moves, NoFailure;
    }

    method copyPage(merged: seq<Keyed<Transaction>>, offset: nat, limit: nat) returns (transactions: seq<Transaction>)
      ensures transactions == PageOf(merged, offset, limit)
    {
      transactions := [];
      var i := offset;
      while i < |merged| && |transactions| < limit
        invariant i == offset + |transactions|
        invariant |transactions| <= limit && (transactions == [] || i <= |merged|)
        invariant forall j :: 0 <= j < |transactions| ==> transactions[j] == merged[offset + j].row
      {
        transactions := transactions + [merged[i].row];
        i := i + 1;
      }
    }

    /** The listing succeeds if and only if every query it needs is answered, and then returns the page of
        the merged sources; past the end of the rows, and so for any offset near the end of the integers, an
        empty one. */
    method ListMyTransactions(user: Id, askedLimit: Option<Int64>, askedOffset: Option<Int64>, r: Replies)
      returns (list: Option<TransactionList>, e: Failure)
      ensures var (limit, offset) := Normalise(askedLimit, askedOffset);
              var s := StoreOf(user);
              && (list.Some? <==> e == NoFailure)
              && (e == NoFailure <==>
                    SettledTrouble(s, LedgerWindow(offset, limit), r) == UnsettledTrouble(r) == NoFailure)
              && (e == NoFailure ==> r.wallets == r.intents == r.transfers == Replied)
              && (e == BadGateway <==>
                    r.wallets == Replied && s.wallets != [] && LedgerWindow(offset, limit) > 0
                    && r.movements != Replied)
              && (list.Some? ==>
                    && list.value.total == |Listed(s, offset, limit)|
                    && list.value.limit == limit && list.value.offset == offset
                    && (offset + limit <= INT64_MAX ==> list.value.transactions == Page(s, offset, limit))
                    && (list.value.total <= offset ==> list.value.transactions == []))
    {
      hide SettledRows, IntentRows, TransferRows, Sorted, SettledTrouble, PageOf, Merged, Listed;
      SettledTroubleIs(StoreOf(user), LedgerWindow(Normalise(askedLimit, askedOffset).1,
        Normalise(askedLimit, askedOffset).0), r);
      var (limit, offset) := Normalise(askedLimit, askedOffset);
      var scan: int := Wrap64(offset + limit);
      if scan > MAX_HISTORY_SCAN {
        scan := MAX_HISTORY_SCAN;
      }
      var settled, trouble := settledTransactions(user, scan % 0x1_0000_0000, r);
      if trouble != NoFailure {
        return None, trouble;
      }
      var unsettled;
      unsettled, e := unsettledTransactions(user, scan, r);
      if e != NoFailure {
        return None, e;
      }
      var merged := Sorted(settled + unsettled);
      var transactions := copyPage(merged, offset, limit);
      list := Some(TransactionList(transactions, |merged|, limit, offset));
      ListedRows(StoreOf(user), offset, limit);
      if offset + limit <= INT64_MAX {
        ListedIsMerged(StoreOf(user), offset, limit);
      }
    }
  }

  lemma ListedRows(s: Store, offset: nat, limit: nat)
    ensures Listed(s, offset, limit)
            == Sorted(SettledRows(s, LedgerWindow(offset, limit)) + UnsettledRows(s, Window(offset, limit)))
  {
  }

  lemma SettledTroubleIs(s: Store, scan: nat, r: Replies)
    ensures SettledTrouble(s, scan, r) == BadGateway <==>
              r.wallets == Replied && s.wallets != [] && scan > 0 && r.movements != Replied
    ensures SettledTrouble(s, scan, r) == NoFailure ==> r.wallets == Replied
  {
  }

  lemma NoWalletsNoRows(s: Store, scan: nat)
    requires s.wallets == []
    ensures SettledRows(s, scan) == []
  {
  }
}
