/** The page assembled from truncated sources is a page of the full history. */
module HistoryTheorems {
  import opened Common
  import opened LedgerModel
  import opened LedgerSafety
  import opened StableSort
  import opened LedgerAdapter
  import opened HistoryModel

  // ---- Each source, cut, is a beginning of the source uncut

  lemma MapNewest<A(!new), B(!new)>(f: A -> B, s: seq<Keyed<A>>)
    requires Newest(s)
    ensures Newest(MapRows(f, s))
  {
  }

  lemma MapTake<A, B>(f: A -> B, s: seq<Keyed<A>>, n: nat)
    ensures Take(MapRows(f, s), n) == MapRows(f, Take(s, n))
  {
  }

  lemma TakeNewest<T(!new)>(s: seq<Keyed<T>>, n: nat)
    requires Newest(s)
    ensures Newest(Take(s, n))
  {
  }

  lemma MovementsNewest(log: seq<Posted>, wallet: Id, limit: nat)
    requires forall i, j :: 0 <= i < j < |log| ==> log[i].timestamp < log[j].timestamp
    ensures Newest(MovementsOf(wallet, Take(EntriesOf(log, WalletAccount(wallet)), limit)))
  {
    EntriesAreNewest(log, WalletAccount(wallet));
  }

  /** Cutting every wallet's entries at `m` leaves the first n movements of all wallets together. */
  lemma {:induction false} PerWalletTake(log: seq<Posted>, wallets: seq<Id>, n: nat, m: nat, full: nat)
    requires forall i, j :: 0 <= i < j < |log| ==> log[i].timestamp < log[j].timestamp
    requires n <= m && n <= full
    ensures Take(Sorted(PerWallet(log, wallets, m)), n) == Take(Sorted(PerWallet(log, wallets, full)), n)
  {
    if wallets != [] {
      var last, front := wallets[|wallets| - 1], wallets[..|wallets| - 1];
      PerWalletTake(log, front, n, m, full);
      var entries := EntriesOf(log, WalletAccount(last));
      MovementsNewest(log, last, m);
      MovementsNewest(log, last, full);
      SortedAlready(MovementsOf(last, Take(entries, m)));
      SortedAlready(MovementsOf(last, Take(entries, full)));
      SortedConcat(PerWallet(log, front, m), MovementsOf(last, Take(entries, m)));
      SortedConcat(PerWallet(log, front, full), MovementsOf(last, Take(entries, full)));
      MovementsTake(last, entries, n, m);
      MovementsTake(last, entries, n, full);
      MergeOfPrefixes(Sorted(PerWallet(log, front, m)), MovementsOf(last, Take(entries, m)),
                      Sorted(PerWallet(log, front, full)), MovementsOf(last, Take(entries, full)), n);
      hide Sorted, Take, Newest, EntriesOf;
    }
  }

  lemma MovementsTake(wallet: Id, entries: seq<Posted>, n: nat, m: nat)
    requires n <= m
    ensures Take(MovementsOf(wallet, Take(entries, m)), n) == MovementsOf(wallet, Take(entries, n))
  {
  }

  predicate LogInOrder(log: seq<Posted>) {
    forall i, j :: 0 <= i < j < |log| ==> log[i].timestamp < log[j].timestamp
  }

  lemma SettledTake(s: Store, n: nat, m: nat, full: nat)
    requires LogInOrder(s.log) && n <= m && n <= full
    ensures Take(SettledRows(s, m), n) == Take(SettledRows(s, full), n)
    ensures Newest(SettledRows(s, m))
  {
    hide Sorted, Take, MapRows, PerWallet;
    PerWalletTake(s.log, s.wallets, n, m, full);
    var view := MovementView(s.user, s.intents);
    MapTake(view, Sorted(PerWallet(s.log, s.wallets, m)), n);
    MapTake(view, Sorted(PerWallet(s.log, s.wallets, full)), n);
    SortedIsNewest(PerWallet(s.log, s.wallets, m));
    MapNewest(view, Sorted(PerWallet(s.log, s.wallets, m)));
  }

  lemma ListedTake<A(!new), B(!new)>(f: A -> B, rows: seq<Keyed<A>>, n: nat, m: nat)
    requires n <= m
    ensures Take(MapRows(f, Take(Sorted(rows), m)), n) == MapRows(f, Take(Sorted(rows), n))
    ensures Newest(MapRows(f, Take(Sorted(rows), m)))
  {
    hide Sorted, MapRows;
    MapTake(f, Take(Sorted(rows), m), n);
    TakeTwice(Sorted(rows), n, m);
    SortedIsNewest(rows);
    TakeNewest(Sorted(rows), m);
    MapNewest(f, Take(Sorted(rows), m));
  }

  /** Merging three sorted sources. */
  lemma MergedAsMerge(s: Store, scan: nat)
    requires Newest(SettledRows(s, scan)) && Newest(IntentRows(s, scan)) && Newest(TransferRows(s, scan))
    ensures Merged(s, scan) == Merge(SettledRows(s, scan), Merge(IntentRows(s, scan), TransferRows(s, scan)))
  {
    hide Sorted, SettledRows, IntentRows, TransferRows;
    SortedConcat(SettledRows(s, scan), IntentRows(s, scan) + TransferRows(s, scan));
    SortedConcat(IntentRows(s, scan), TransferRows(s, scan));
    SortedAlready(SettledRows(s, scan));
    SortedAlready(IntentRows(s, scan));
    SortedAlready(TransferRows(s, scan));
  }

  lemma SourcesAgree(s: Store, n: nat, m: nat, full: nat)
    requires LogInOrder(s.log) && n <= m && n <= full
    ensures Take(SettledRows(s, m), n) == Take(SettledRows(s, full), n)
    ensures Take(IntentRows(s, m), n) == Take(IntentRows(s, full), n)
    ensures Take(TransferRows(s, m), n) == Take(TransferRows(s, full), n)
    ensures Newest(SettledRows(s, m)) && Newest(IntentRows(s, m)) && Newest(TransferRows(s, m))
  {
    hide Sorted, Take, MapRows, SettledRows;
    SettledTake(s, n, m, full);
    ListedTake(DescribeIntent, UnsettledIntents(s.user, s.intents), n, m);
    ListedTake(DescribeIntent, UnsettledIntents(s.user, s.intents), n, full);
    ListedTake(TransferView(s.user), UnsettledTransfers(s.user, s.transfers), n, m);
    ListedTake(TransferView(s.user), UnsettledTransfers(s.user, s.transfers), n, full);
  }

  /** Cutting every source at `m` rows leaves the first n rows of the merge, ties included. */
  lemma MergedTake(s: Store, n: nat, m: nat, full: nat)
    requires LogInOrder(s.log) && n <= m && n <= full
    ensures Take(Merged(s, m), n) == Take(Merged(s, full), n)
  {
    hide Sorted, Take, SettledRows, IntentRows, TransferRows, Merged, Newest;
    SourcesAgree(s, n, m, full);
    SourcesAgree(s, n, full, full);
    MergedAsMerge(s, m);
    MergedAsMerge(s, full);
    MergeOfPrefixes(IntentRows(s, m), TransferRows(s, m), IntentRows(s, full), TransferRows(s, full), n);
    MergeOfPrefixes(SettledRows(s, m), Merge(IntentRows(s, m), TransferRows(s, m)),
                    SettledRows(s, full), Merge(IntentRows(s, full), TransferRows(s, full)), n);
  }

  // ---- A cut longer than every source cuts nothing

  lemma {:induction false} UnsettledIntentsShort(user: Id, rows: seq<ListedIntent>)
    ensures |UnsettledIntents(user, rows)| <= |rows|
  {
    if rows != [] {
      UnsettledIntentsShort(user, rows[..|rows| - 1]);
    }
  }

  lemma {:induction false} UnsettledTransfersShort(user: Id, rows: seq<ListedTransfer>)
    ensures |UnsettledTransfers(user, rows)| <= |rows|
  {
    if rows != [] {
      UnsettledTransfersShort(user, rows[..|rows| - 1]);
    }
  }

  lemma {:induction false} PerWalletUncut(log: seq<Posted>, wallets: seq<Id>, m: nat, n: nat)
    requires |log| <= m && |log| <= n
    ensures PerWallet(log, wallets, m) == PerWallet(log, wallets, n)
  {
    if wallets != [] {
      PerWalletUncut(log, wallets[..|wallets| - 1], m, n);
      EntriesOfIsShort(log, WalletAccount(wallets[|wallets| - 1]));
    }
  }

  lemma Uncut(s: Store, m: nat)
    requires Everything(s) <= m
    ensures Merged(s, m) == FullHistory(s)
  {
    hide Sorted, MapRows;
    PerWalletUncut(s.log, s.wallets, m, Everything(s));
    UnsettledIntentsShort(s.user, s.intents);
    UnsettledTransfersShort(s.user, s.transfers);
  }

  /** The first n rows of the merge, for n within the cut, are the first n of the full history. */
  lemma MergedBeginsFull(s: Store, n: nat, scan: nat)
    requires LogInOrder(s.log) && n <= scan
    ensures Take(Merged(s, scan), n) == Take(FullHistory(s), n)
  {
    var full := if n <= Everything(s) then Everything(s) else n;
    Uncut(s, full);
    hide Merged, Take, FullHistory, Everything;
    MergedTake(s, n, scan, full);
  }

  // ---- Pages

  lemma PageReadsItsPrefix(a: seq<Keyed<Transaction>>, b: seq<Keyed<Transaction>>, offset: nat, limit: nat)
    requires Take(a, offset + limit) == Take(b, offset + limit)
    ensures PageOf(a, offset, limit) == PageOf(b, offset, limit)
  {
    var n := offset + limit;
    assert |Take(a, n)| == |Take(b, n)|;
    assert forall i :: 0 <= i < n && i < |a| ==> a[i] == Take(a, n)[i] == Take(b, n)[i] == b[i];
  }

  /** Within the cap, the page assembled from truncated sources is the page of the full history,
      for any number of wallets and any ties. */
  lemma PageIsExact(s: Store, offset: nat, limit: nat)
    requires LogInOrder(s.log) && offset + limit <= MAX_HISTORY_SCAN
    ensures Page(s, offset, limit) == PageOf(FullHistory(s), offset, limit)
  {
    hide Merged, Take, FullHistory, PageOf;
    MergedBeginsFull(s, offset + limit, Scan(offset, limit));
    PageReadsItsPrefix(Merged(s, Scan(offset, limit)), FullHistory(s), offset, limit);
  }

  lemma TakeAt<T>(a: seq<T>, b: seq<T>, n: nat)
    requires Take(a, n) == Take(b, n)
    ensures |a| < n || |b| < n ==> a == b
    ensures forall i :: 0 <= i < n && i < |a| && i < |b| ==> a[i] == b[i]
  {
    assert |Take(a, n)| == |Take(b, n)|;
    assert forall i :: 0 <= i < n && i < |a| ==> a[i] == Take(a, n)[i];
    assert forall i :: 0 <= i < n && i < |b| ==> b[i] == Take(b, n)[i];
  }

  /** Past the cap, the rows below index 500 are still all there and still right. */
  lemma PageBelowTheCap(s: Store, offset: nat, limit: nat, i: nat)
    requires LogInOrder(s.log) && i < limit && offset + i < MAX_HISTORY_SCAN
    ensures i < |Page(s, offset, limit)| <==> offset + i < |FullHistory(s)|
    ensures i < |Page(s, offset, limit)| ==> Page(s, offset, limit)[i] == FullHistory(s)[offset + i].row
  {
    hide Merged, Take, FullHistory;
    var scan := Scan(offset, limit);
    MergedBeginsFull(s, scan, scan);
    TakeAt(Merged(s, scan), FullHistory(s), scan);
  }

  // ---- The cap is exactly where paging stops being exact

  function PendingIntents(n: nat): seq<ListedIntent> {
    seq(n, i requires 0 <= i < n => ListedIntent(i, 0, 0, 0, PENDING, "", 0))
  }

  /** A user with n pending deposits and nothing else. */
  function PendingStore(n: nat): Store {
    Store(0, [], PendingIntents(n), [], [])
  }

  lemma {:induction false} AllPendingUnsettled(rows: seq<ListedIntent>)
    requires forall i :: 0 <= i < |rows| ==> rows[i].user == 0 && rows[i].status == PENDING
    ensures |UnsettledIntents(0, rows)| == |rows|
  {
    if rows != [] {
      AllPendingUnsettled(rows[..|rows| - 1]);
    }
  }

  lemma PendingMerged(n: nat, scan: nat)
    ensures |Merged(PendingStore(n), scan)| == if scan < n then scan else n
  {
    var s := PendingStore(n);
    AllPendingUnsettled(s.intents);
    assert PerWallet(s.log, s.wallets, scan) == [];
    assert UnsettledTransfers(s.user, s.transfers) == [];
  }

  lemma PendingPageFallsShort(offset: nat, limit: nat)
    requires limit > 0 && offset + limit > MAX_HISTORY_SCAN
    ensures var s := PendingStore(offset + limit);
            Page(s, offset, limit) != PageOf(FullHistory(s), offset, limit)
  {
    var s := PendingStore(offset + limit);
    PendingMerged(offset + limit, MAX_HISTORY_SCAN);
    PendingMerged(offset + limit, Everything(s));
    hide Merged, PendingStore;
    assert |Page(s, offset, limit)| < limit == |PageOf(FullHistory(s), offset, limit)|;
  }

  /** A page is right for every store if and only if it ends within the cap. */
  lemma PagingIsExactExactly(offset: nat, limit: nat)
    requires limit > 0
    ensures (forall s: Store :: LogInOrder(s.log) ==> Page(s, offset, limit) == PageOf(FullHistory(s), offset, limit))
            <==> offset + limit <= 500
  {
    hide Page, PageOf, FullHistory;
    if offset + limit <= MAX_HISTORY_SCAN {
      forall s: Store | LogInOrder(s.log) {
        PageIsExact(s, offset, limit);
      }
    } else {
      PendingPageFallsShort(offset, limit);
      assert LogInOrder(PendingStore(offset + limit).log);
    }
  }

  // ---- Fetching page after page

  function Plain(rows: seq<Keyed<Transaction>>): (r: seq<Transaction>)
    ensures |r| == |rows|
    ensures forall i :: 0 <= i < |r| ==> r[i] == rows[i].row
  {
    PageOf(rows, 0, |rows|)
  }

  /** The first k pages of `limit` rows, one after the other. */
  function Pages(s: Store, limit: nat, k: nat): seq<Transaction> {
    if k == 0 then [] else Pages(s, limit, k - 1) + Page(s, (k - 1) * limit, limit)
  }

  function Min(a: nat, b: nat): nat { if a <= b then a else b }

  /** How many of a page's rows lie below the cap, and that they are the full history's. */
  lemma PageWithinTheCap(s: Store, offset: nat, limit: nat)
    requires LogInOrder(s.log) && offset < MAX_HISTORY_SCAN && offset < |FullHistory(s)|
    ensures var m := Min(limit, Min(MAX_HISTORY_SCAN, |FullHistory(s)|) - offset);
            && m <= |Page(s, offset, limit)|
            && Page(s, offset, limit)[..m] == Plain(FullHistory(s))[offset..offset + m]
            && (m < limit && offset + m < MAX_HISTORY_SCAN ==> |Page(s, offset, limit)| == m)
  {
    hide FullHistory, Page;
    var m := Min(limit, Min(MAX_HISTORY_SCAN, |FullHistory(s)|) - offset);
    if m > 0 {
      PageBelowTheCap(s, offset, limit, m - 1);
    }
    if m < limit && offset + m < MAX_HISTORY_SCAN {
      PageBelowTheCap(s, offset, limit, m);
    }
    forall i | 0 <= i < m
      ensures Page(s, offset, limit)[i] == Plain(FullHistory(s))[offset + i]
    {
      PageBelowTheCap(s, offset, limit, i);
    }
  }

  lemma JoinTaken<T>(full: seq<T>, before: seq<T>, page: seq<T>, offset: nat, limit: nat, cap: nat)
    requires before == Take(full, offset) && offset < cap && offset < |full|
    requires var m := Min(limit, Min(cap, |full|) - offset);
             && m <= |page| && page[..m] == full[offset..offset + m]
             && (m < limit && offset + m < cap ==> |page| == m)
             && |page| <= limit
    ensures Take(before + page, cap) == Take(Take(full, offset + limit), cap)
  {
    var m := Min(limit, Min(cap, |full|) - offset);
    assert before + page[..m] == full[..offset + m];
    assert Take(before + page, cap) == before + page[..m];
  }

  lemma TakeLonger<T>(before: seq<T>, more: seq<T>, cap: nat)
    requires cap <= |before|
    ensures Take(before + more, cap) == Take(before, cap)
  {
  }

  lemma TakeBoth<T>(full: seq<T>, n: nat, m: nat, cap: nat)
    requires cap <= n <= m || |full| <= n <= m
    ensures Take(Take(full, m), cap) == Take(Take(full, n), cap)
  {
  }

  /** What was fetched before the cap is reached is all there is so far. */
  lemma BeforeTheCap<T>(full: seq<T>, before: seq<T>, offset: nat, cap: nat)
    requires Take(before, cap) == Take(Take(full, offset), cap) && |before| < cap
    ensures before == Take(full, offset)
    ensures offset < |full| ==> offset < cap
    ensures offset >= |full| ==> |full| < cap
  {
    assert |Take(before, cap)| == |before|;
  }

  lemma AtTheCap<T>(full: seq<T>, before: seq<T>, offset: nat, cap: nat)
    requires Take(before, cap) == Take(Take(full, offset), cap) && |before| >= cap
    ensures cap <= offset
  {
    assert |Take(before, cap)| == cap;
  }

  lemma PageContinues(s: Store, offset: nat, limit: nat, before: seq<Transaction>)
    requires LogInOrder(s.log)
    requires Take(before, MAX_HISTORY_SCAN) == Take(Take(Plain(FullHistory(s)), offset), MAX_HISTORY_SCAN)
    ensures Take(before + Page(s, offset, limit), MAX_HISTORY_SCAN)
            == Take(Take(Plain(FullHistory(s)), offset + limit), MAX_HISTORY_SCAN)
  {
    hide FullHistory, Page, Plain, Take, Min, LogInOrder;
    var full, page := Plain(FullHistory(s)), Page(s, offset, limit);
    if |before| >= MAX_HISTORY_SCAN {
      AtTheCap(full, before, offset, MAX_HISTORY_SCAN);
      TakeLonger(before, page, MAX_HISTORY_SCAN);
      TakeBoth(full, offset, offset + limit, MAX_HISTORY_SCAN);
    } else {
      BeforeTheCap(full, before, offset, MAX_HISTORY_SCAN);
      if offset < |full| {
        PageWithinTheCap(s, offset, limit);
        PageNotLonger(s, offset, limit);
        JoinTaken(full, before, page, offset, limit, MAX_HISTORY_SCAN);
      } else {
        PagePastTheEnd(s, offset, limit);
        assert before + page == before;
        TakeBoth(full, offset, offset + limit, MAX_HISTORY_SCAN);
      }
    }
  }

  lemma PageNotLonger(s: Store, offset: nat, limit: nat)
    ensures |Page(s, offset, limit)| <= limit
  {
  }

  lemma PagePastTheEnd(s: Store, offset: nat, limit: nat)
    requires LogInOrder(s.log) && |FullHistory(s)| <= offset && |FullHistory(s)| < MAX_HISTORY_SCAN
    ensures Page(s, offset, limit) == []
  {
    hide Merged, FullHistory, Take;
    var scan := Scan(offset, limit);
    MergedBeginsFull(s, scan, scan);
    TakeAt(Merged(s, scan), FullHistory(s), scan);
  }

  /** Page after page of any size joins up, with no gap and no repeat, to the beginning of the full
      history, as far as row 500. */
  lemma {:induction false} PagesJoinUp(s: Store, limit: nat, k: nat)
    requires LogInOrder(s.log)
    ensures Take(Pages(s, limit, k), MAX_HISTORY_SCAN)
            == Take(Take(Plain(FullHistory(s)), k * limit), MAX_HISTORY_SCAN)
  {
    hide Page, Plain, FullHistory;
    if k > 0 {
      PagesJoinUp(s, limit, k - 1);
      PageContinues(s, (k - 1) * limit, limit, Pages(s, limit, k - 1));
      assert (k - 1) * limit + limit == k * limit;
      hide Take;
    }
  }
}
