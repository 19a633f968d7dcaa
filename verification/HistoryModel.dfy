/** A user's transaction history: settled rows from the ledger, unsettled rows from Postgres, merged newest
    first and paged. */
module HistoryModel {
  import opened Common
  import opened LedgerModel
  import opened StableSort
  import opened LedgerAdapter

  const MAX_HISTORY_SCAN: nat := 500
  const PROVIDER_INTERNAL := "wallet"

  datatype Kind = DEPOSIT | TRANSFER

  datatype Transaction = Transaction(
    reference: Id, user: Id, wallet: Id, amount: Int64, status: Status, provider: string, kind: Kind,
      direction: Direction)

  /** Rows of the two Postgres tables; the key they are listed by is their creation time. */
  datatype ListedIntent = ListedIntent(id: Id, user: Id, wallet: Id, amount: Int64, status: Status, provider: string,
    createdAt: int)

  datatype ListedTransfer = ListedTransfer(
    id: Id, senderUser: Id, senderWallet: Id, recipientUser: Id, recipientWallet: Id,
    amount: Int64, status: Status, createdAt: int)

  /** What the listing reads: the user's wallets, the tables, the ledger's log. */
  datatype Store = Store(user: Id, wallets: seq<Id>, intents: seq<ListedIntent>, transfers: seq<ListedTransfer>,
    log: seq<Posted>)

  // ---- The three sources

  function UnsettledIntents(user: Id, rows: seq<ListedIntent>): seq<Keyed<ListedIntent>> {
    if rows == [] then []
    else
      var last := rows[|rows| - 1];
      UnsettledIntents(user, rows[..|rows| - 1])
      + (if last.user == user && last.status != SUCCESS then [Keyed(last.createdAt, last)] else [])
  }

  function UnsettledTransfers(user: Id, rows: seq<ListedTransfer>): seq<Keyed<ListedTransfer>> {
    if rows == [] then []
    else
      var last := rows[|rows| - 1];
      UnsettledTransfers(user, rows[..|rows| - 1])
      + (if (last.senderUser == user || last.recipientUser == user) && last.status != SUCCESS
         then [Keyed(last.createdAt, last)] else [])
  }

  function FindIntent(rows: seq<ListedIntent>, id: Id): Option<ListedIntent> {
    if rows == [] then None
    else if rows[|rows| - 1].id == id then Some(rows[|rows| - 1])
    else FindIntent(rows[..|rows| - 1], id)
  }

  // ---- One row of each, as the user sees it

  function DescribeMovement(user: Id, intents: seq<ListedIntent>, m: Movement): Transaction {
    if m.code == TRANSFER_DEPOSIT then
      var intent := FindIntent(intents, m.transfer);
      Transaction(m.transfer, user, m.wallet, m.amount, SUCCESS, if intent.Some? then intent.value.provider else "",
                  DEPOSIT, m.direction)
    else Transaction(m.transfer, user, m.wallet, m.amount, SUCCESS, PROVIDER_INTERNAL, TRANSFER, m.direction)
  }

  function DescribeIntent(i: ListedIntent): Transaction {
    Transaction(i.id, i.user, i.wallet, i.amount, i.status, i.provider, DEPOSIT, CREDIT)
  }

  function DescribeTransfer(user: Id, t: ListedTransfer): Transaction {
    if t.recipientUser == user
    then Transaction(t.id, user, t.recipientWallet, t.amount, t.status, PROVIDER_INTERNAL, TRANSFER, CREDIT)
    else Transaction(t.id, user, t.senderWallet, t.amount, t.status, PROVIDER_INTERNAL, TRANSFER, DEBIT)
  }

  function MapRows<A, B>(f: A -> B, s: seq<Keyed<A>>): (r: seq<Keyed<B>>)
    ensures |r| == |s|
    ensures forall i :: 0 <= i < |s| ==> r[i] == Keyed(s[i].key, f(s[i].row))
  {
    seq(|s|, i requires 0 <= i < |s| => Keyed(s[i].key, f(s[i].row)))
  }

  function MovementView(user: Id, intents: seq<ListedIntent>): Movement -> Transaction {
    m => DescribeMovement(user, intents, m)
  }

  function TransferView(user: Id): ListedTransfer -> Transaction {
    t => DescribeTransfer(user, t)
  }

  function SettledRows(s: Store, scan: nat): seq<Keyed<Transaction>> {
    MapRows(MovementView(s.user, s.intents), Sorted(PerWallet(s.log, s.wallets, scan)))
  }

  function IntentRows(s: Store, scan: nat): seq<Keyed<Transaction>> {
    MapRows(DescribeIntent, Take(Sorted(UnsettledIntents(s.user, s.intents)), scan))
  }

  function TransferRows(s: Store, scan: nat): seq<Keyed<Transaction>> {
    MapRows(TransferView(s.user), Take(Sorted(UnsettledTransfers(s.user, s.transfers)), scan))
  }

  /** Every source cut to `scan` rows, then merged. */
  function Merged(s: Store, scan: nat): seq<Keyed<Transaction>> {
    Sorted(SettledRows(s, scan) + (IntentRows(s, scan) + TransferRows(s, scan)))
  }

  /** No source is longer than this. */
  function Everything(s: Store): nat {
    |s.log| + |s.intents| + |s.transfers|
  }

  /** Every row there is. */
  function FullHistory(s: Store): seq<Keyed<Transaction>> {
    Merged(s, Everything(s))
  }

  function PageOf(rows: seq<Keyed<Transaction>>, offset: nat, limit: nat): (page: seq<Transaction>)
    ensures |page| == if offset >= |rows| then 0 else if offset + limit <= |rows| then limit else |rows| - offset
    ensures forall i :: 0 <= i < |page| ==> page[i] == rows[offset + i].row
  {
    var n := if offset >= |rows| then 0 else if offset + limit <= |rows| then limit else |rows| - offset;
    seq(n, i requires 0 <= i < n => rows[offset + i].row)
  }

  function Scan(offset: nat, limit: nat): nat {
    if offset + limit > MAX_HISTORY_SCAN then MAX_HISTORY_SCAN else offset + limit
  }

  /** The page the listing returns. */
  function Page(s: Store, offset: nat, limit: nat): seq<Transaction> {
    PageOf(Merged(s, Scan(offset, limit)), offset, limit)
  }
}
