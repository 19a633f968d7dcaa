/** What every row of a transaction history says, read off the tables and the ledger's log. */
module HistoryRows {
  import opened Common
  import opened LedgerModel
  import opened StableSort
  import opened LedgerAdapter
  import opened HistoryModel

  // ---- The three kinds of row

  /** An unsettled deposit: money coming in to its wallet. */
  predicate ShowsDeposit(r: Keyed<Transaction>, i: ListedIntent) {
    && i.status != SUCCESS
    && r.key == i.createdAt && r.row.reference == i.id && r.row.user == i.user && r.row.wallet == i.wallet
    && r.row.amount == i.amount && r.row.status == i.status && r.row.provider == i.provider
    && r.row.kind == DEPOSIT && r.row.direction == CREDIT
  }

  /** An unsettled transfer: money coming in to its recipient's wallet for the recipient, going out of its
      sender's wallet for anybody else. */
  predicate ShowsTransfer(r: Keyed<Transaction>, t: ListedTransfer, user: Id) {
    && t.status != SUCCESS && (t.senderUser == user || t.recipientUser == user)
    && r.key == t.createdAt && r.row.reference == t.id && r.row.user == user
    && r.row.amount == t.amount && r.row.status == t.status && r.row.provider == "wallet" && r.row.kind == TRANSFER
    && (r.row.direction == CREDIT <==> t.recipientUser == user)
    && (t.recipientUser == user ==> r.row.wallet == t.recipientWallet)
    && (t.recipientUser != user ==> r.row.wallet == t.senderWallet)
  }

  /** A posted entry, seen from one of the user's wallets: going out of it if the entry debits it, coming in
      otherwise. */
  predicate ShowsEntry(r: Keyed<Transaction>, p: Posted, user: Id, wallet: Id) {
    var t := p.transfer;
    && (t.debit == WalletAccount(wallet) || t.credit == WalletAccount(wallet))
    && r.key == p.timestamp && r.row.reference == t.id && r.row.user == user && r.row.wallet == wallet
    && r.row.amount == Wrap64(t.amount) && r.row.status == SUCCESS
    && (r.row.direction == DEBIT <==> t.debit == WalletAccount(wallet))
    && (r.row.kind == DEPOSIT <==> t.code == TRANSFER_DEPOSIT)
  }

  /** A deposit's provider is its intent's, or blank without one; a transfer has none. */
  predicate NamesProvider(row: Transaction, intents: seq<ListedIntent>) {
    if row.kind == TRANSFER then row.provider == "wallet"
    else
      || (row.provider == "" && forall j :: 0 <= j < |intents| ==> intents[j].id != row.reference)
      || exists j :: 0 <= j < |intents| && intents[j].id == row.reference && intents[j].provider == row.provider
  }

  predicate FromDeposit(r: Keyed<Transaction>, s: Store) {
    exists j :: 0 <= j < |s.intents| && s.intents[j].user == s.user && ShowsDeposit(r, s.intents[j])
  }

  predicate FromTransfer(r: Keyed<Transaction>, s: Store) {
    exists j :: 0 <= j < |s.transfers| && ShowsTransfer(r, s.transfers[j], s.user)
  }

  predicate FromEntry(r: Keyed<Transaction>, s: Store) {
    && NamesProvider(r.row, s.intents) && r.row.wallet in s.wallets
    && exists j :: 0 <= j < |s.log| && ShowsEntry(r, s.log[j], s.user, r.row.wallet)
  }

  // ---- Each source

  lemma SortedHas<T(!new)>(s: seq<Keyed<T>>, i: nat)
    requires i < |Sorted(s)|
    ensures Sorted(s)[i] in s
  {
    SortedPermutes(s);
    assert Sorted(s)[i] in multiset(Sorted(s));
    hide Sorted;
  }

  lemma {:induction false} UnsettledIntentIs(user: Id, rows: seq<ListedIntent>, k: Keyed<ListedIntent>)
    requires k in UnsettledIntents(user, rows)
    ensures exists j :: 0 <= j < |rows| && rows[j] == k.row && k.row.user == user && k.row.status != SUCCESS
                        && k.key == k.row.createdAt
  {
    var n := |rows| - 1;
    if k in UnsettledIntents(user, rows[..n]) {
      UnsettledIntentIs(user, rows[..n], k);
      var j :| 0 <= j < |rows[..n]| && rows[..n][j] == k.row;
      assert rows[j] == k.row;
    } else {
      assert rows[n] == k.row;
    }
  }

  lemma {:induction false} UnsettledTransferIs(user: Id, rows: seq<ListedTransfer>, k: Keyed<ListedTransfer>)
    requires k in UnsettledTransfers(user, rows)
    ensures exists j :: 0 <= j < |rows| && rows[j] == k.row && k.row.status != SUCCESS && k.key == k.row.createdAt
                        && (k.row.senderUser == user || k.row.recipientUser == user)
  {
    var n := |rows| - 1;
    if k in UnsettledTransfers(user, rows[..n]) {
      UnsettledTransferIs(user, rows[..n], k);
      var j :| 0 <= j < |rows[..n]| && rows[..n][j] == k.row;
      assert rows[j] == k.row;
    } else {
      assert rows[n] == k.row;
    }
  }

  lemma {:induction false} EntryIs(log: seq<Posted>, a: AccountId, p: Posted)
    requires p in EntriesOf(log, a)
    ensures p in log && (p.transfer.debit == a || p.transfer.credit == a)
  {
    if p in EntriesOf(log[..|log| - 1], a) {
      EntryIs(log[..|log| - 1], a, p);
    }
  }

  lemma {:induction false} MovementIs(log: seq<Posted>, wallets: seq<Id>, limit: nat, m: Keyed<Movement>)
    requires m in PerWallet(log, wallets, limit)
    ensures m.row.wallet in wallets
    ensures exists p :: p in log && m == MovementOf(m.row.wallet, p)
                        && (p.transfer.debit == WalletAccount(m.row.wallet)
                            || p.transfer.credit == WalletAccount(m.row.wallet))
  {
    hide EntriesOf;
    var n := |wallets| - 1;
    if m in PerWallet(log, wallets[..n], limit) {
      MovementIs(log, wallets[..n], limit, m);
    } else {
      var entries := Take(EntriesOf(log, WalletAccount(wallets[n])), limit);
      var j :| 0 <= j < |entries| && m == MovementOf(wallets[n], entries[j]);
      EntryIs(log, WalletAccount(wallets[n]), entries[j]);
    }
  }

  lemma {:induction false} FoundIntent(rows: seq<ListedIntent>, id: Id)
    ensures FindIntent(rows, id).Some? ==>
              exists j :: 0 <= j < |rows| && rows[j] == FindIntent(rows, id).value && rows[j].id == id
    ensures FindIntent(rows, id).None? ==> forall j :: 0 <= j < |rows| ==> rows[j].id != id
  {
    if rows != [] {
      FoundIntent(rows[..|rows| - 1], id);
    }
  }

  lemma MovementShown(s: Store, p: Posted, wallet: Id)
    requires p in s.log && wallet in s.wallets
    requires p.transfer.debit == WalletAccount(wallet) || p.transfer.credit == WalletAccount(wallet)
    ensures var m := MovementOf(wallet, p);
            FromEntry(Keyed(m.key, DescribeMovement(s.user, s.intents, m.row)), s)
  {
    FoundIntent(s.intents, p.transfer.id);
    hide FindIntent;
    var m := MovementOf(wallet, p);
    var r := Keyed(m.key, DescribeMovement(s.user, s.intents, m.row));
    var j :| 0 <= j < |s.log| && s.log[j] == p;
    assert ShowsEntry(r, s.log[j], s.user, wallet);
  }

  lemma SettledRowIs(s: Store, scan: nat, r: Keyed<Transaction>)
    requires r in SettledRows(s, scan)
    ensures FromEntry(r, s)
  {
    hide PerWallet, FromEntry, DescribeMovement, MovementOf;
    var movements := Sorted(PerWallet(s.log, s.wallets, scan));
    var i :| 0 <= i < |movements| && r == Keyed(movements[i].key, MovementView(s.user, s.intents)(movements[i].row));
    SortedHas(PerWallet(s.log, s.wallets, scan), i);
    hide Sorted;
    MovementIs(s.log, s.wallets, scan, movements[i]);
    var p :| p in s.log && movements[i] == MovementOf(movements[i].row.wallet, p)
             && (p.transfer.debit == WalletAccount(movements[i].row.wallet)
                 || p.transfer.credit == WalletAccount(movements[i].row.wallet));
    MovementShown(s, p, movements[i].row.wallet);
  }

  lemma IntentRowIs(s: Store, scan: nat, r: Keyed<Transaction>)
    requires r in IntentRows(s, scan)
    ensures FromDeposit(r, s)
  {
    var listed := UnsettledIntents(s.user, s.intents);
    var i :| 0 <= i < |Take(Sorted(listed), scan)|
             && r == Keyed(Sorted(listed)[i].key, DescribeIntent(Sorted(listed)[i].row));
    SortedHas(listed, i);
    hide Sorted;
    UnsettledIntentIs(s.user, s.intents, Sorted(listed)[i]);
    hide UnsettledIntents;
    var j :| 0 <= j < |s.intents| && s.intents[j] == Sorted(listed)[i].row;
    assert ShowsDeposit(r, s.intents[j]);
  }

  lemma TransferRowIs(s: Store, scan: nat, r: Keyed<Transaction>)
    requires r in TransferRows(s, scan)
    ensures FromTransfer(r, s)
  {
    var listed := UnsettledTransfers(s.user, s.transfers);
    var i :| 0 <= i < |Take(Sorted(listed), scan)|
             && r == Keyed(Sorted(listed)[i].key, TransferView(s.user)(Sorted(listed)[i].row));
    SortedHas(listed, i);
    hide Sorted;
    UnsettledTransferIs(s.user, s.transfers, Sorted(listed)[i]);
    hide UnsettledTransfers;
    var j :| 0 <= j < |s.transfers| && s.transfers[j] == Sorted(listed)[i].row;
    assert ShowsTransfer(r, s.transfers[j], s.user);
  }

  // ---- The history and its pages

  /** Every row of a history, however its sources were cut, is one of the user's unsettled deposits, one of the
      user's unsettled transfers seen from the user's side, or a posted entry seen from one of the user's
      wallets. */
  lemma RowsAreTrue(s: Store, scan: nat, i: nat)
    requires i < |Merged(s, scan)|
    ensures var r := Merged(s, scan)[i];
            FromDeposit(r, s) || FromTransfer(r, s) || FromEntry(r, s)
  {
    hide SettledRows, IntentRows, TransferRows, FromDeposit, FromTransfer, FromEntry;
    var r := Merged(s, scan)[i];
    SortedHas(SettledRows(s, scan) + (IntentRows(s, scan) + TransferRows(s, scan)), i);
    hide Sorted;
    if r in SettledRows(s, scan) {
      SettledRowIs(s, scan, r);
    } else if r in IntentRows(s, scan) {
      IntentRowIs(s, scan, r);
    } else {
      TransferRowIs(s, scan, r);
    }
  }

  /** So is every row of a page. */
  lemma PageRowsAreTrue(s: Store, offset: nat, limit: nat, i: nat)
    requires i < |Page(s, offset, limit)|
    ensures exists key :: var r := Keyed(key, Page(s, offset, limit)[i]);
                          FromDeposit(r, s) || FromTransfer(r, s) || FromEntry(r, s)
  {
    hide Merged, FromDeposit, FromTransfer, FromEntry;
    var r := Merged(s, Scan(offset, limit))[offset + i];
    RowsAreTrue(s, Scan(offset, limit), offset + i);
    assert r == Keyed(r.key, Page(s, offset, limit)[i]);
  }
}
