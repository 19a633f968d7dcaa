/** Wallet rows, the currencies they are opened in, and what the ledger makes of them. */
module WalletModel {
  import opened Common
  import opened LedgerModel
  import opened LedgerSafety
  import opened LedgerTheorems

  const DEFAULT_DEPOSIT_CURRENCY := "NGN"

  datatype WalletRow = WalletRow(user: Id, account: string, currency: string, active: bool)

  // ---- Currency normalisation

  predicate IsSpace(c: char) { c == ' ' || c == '\t' || c == '\n' || c == '\r' || c == '\U{0B}' || c == '\U{0C}' }

  function TrimLeft(s: string): string {
    if s != "" && IsSpace(s[0]) then TrimLeft(s[1..]) else s
  }

  function TrimRight(s: string): string {
    if s != "" && IsSpace(s[|s| - 1]) then TrimRight(s[..|s| - 1]) else s
  }

  /** strings.TrimSpace, for ASCII. */
  function TrimSpace(s: string): string { TrimRight(TrimLeft(s)) }

  predicate IsBlank(s: string) {
    forall i :: 0 <= i < |s| ==> IsSpace(s[i])
  }

  lemma {:induction false} TrimLeftTakes(s: string) returns (blanks: string)
    ensures s == blanks + TrimLeft(s) && IsBlank(blanks)
    ensures TrimLeft(s) != "" ==> !IsSpace(TrimLeft(s)[0])
  {
    blanks := "";
    if s != "" && IsSpace(s[0]) {
      var rest := TrimLeftTakes(s[1..]);
      blanks := [s[0]] + rest;
      assert s == [s[0]] + s[1..];
    }
  }

  lemma {:induction false} TrimRightTakes(s: string) returns (blanks: string)
    ensures s == TrimRight(s) + blanks && IsBlank(blanks)
    ensures TrimRight(s) != "" ==> TrimRight(s)[0] == s[0] && !IsSpace(TrimRight(s)[|TrimRight(s)| - 1])
  {
    blanks := "";
    if s != "" && IsSpace(s[|s| - 1]) {
      var rest := TrimRightTakes(s[..|s| - 1]);
      blanks := rest + [s[|s| - 1]];
      assert s == s[..|s| - 1] + [s[|s| - 1]];
    }
  }

  /** Trimming takes blanks away at both ends, all of them, and nothing else. */
  lemma TrimSpaceExactly(s: string) returns (before: string, after: string)
    ensures s == before + TrimSpace(s) + after && IsBlank(before) && IsBlank(after)
    ensures var t := TrimSpace(s); t != "" ==> !IsSpace(t[0]) && !IsSpace(t[|t| - 1])
  {
    before := TrimLeftTakes(s);
    after := TrimRightTakes(TrimLeft(s));
    hide TrimLeft, TrimRight;
    assert before + (TrimSpace(s) + after) == before + TrimSpace(s) + after;
  }

  function Upper(c: char): char {
    if 'a' <= c <= 'z' then c - 'a' + 'A' else c
  }

  /** strings.ToUpper, for ASCII. */
  function ToUpper(s: string): (r: string)
    ensures |r| == |s|
    ensures forall i :: 0 <= i < |s| ==> r[i] == Upper(s[i])
  {
    seq(|s|, i requires 0 <= i < |s| => Upper(s[i]))
  }

  function Normalised(currency: string): string {
    var trimmed := ToUpper(TrimSpace(currency));
    if trimmed == "" then DEFAULT_DEPOSIT_CURRENCY else trimmed
  }

  predicate IsUpper(s: string) {
    forall i :: 0 <= i < |s| ==> 'A' <= s[i] <= 'Z'
  }

  lemma SupportedIsUpper(currency: string)
    requires currency in CURRENCY_LEDGERS
    ensures IsUpper(currency) && |currency| == 3
  {
  }

  /** Two supported codes that agree up to case are the same code. */
  lemma SupportedFoldsToItself(a: string, b: string)
    requires a in CURRENCY_LEDGERS && b in CURRENCY_LEDGERS
    ensures EqualFold(a, b) <==> a == b
  {
    SupportedIsUpper(a);
    SupportedIsUpper(b);
    if EqualFold(a, b) {
      forall i | 0 <= i < |a|
        ensures a[i] == b[i]
      {
        assert Lower(a[i]) == Lower(b[i]);
      }
    }
  }

  /** A wallet may be opened for exactly the supported codes, in any case and with any blanks around
      them, and for blanks alone; it is stored under the code itself. */
  lemma NormalisedAccepts(currency: string)
    ensures Normalised(currency) in CURRENCY_LEDGERS <==>
              || TrimSpace(currency) == ""
              || exists code :: code in CURRENCY_LEDGERS && EqualFold(TrimSpace(currency), code)
    ensures forall code :: code in CURRENCY_LEDGERS && EqualFold(TrimSpace(currency), code) ==>
      Normalised(currency) == code
    ensures TrimSpace(currency) == "" ==> Normalised(currency) == "NGN"
  {
    var trimmed := TrimSpace(currency);
    hide CURRENCY_LEDGERS, TrimSpace;
    forall code | code in CURRENCY_LEDGERS && EqualFold(trimmed, code)
      ensures Normalised(currency) == code
    {
      SupportedIsUpper(code);
      UpperOfFold(trimmed, code);
    }
    if Normalised(currency) in CURRENCY_LEDGERS && trimmed != "" {
      FoldOfUpper(trimmed);
    }
    if trimmed == "" {
      DefaultIsSupported();
    }
  }

  lemma DefaultIsSupported()
    ensures DEFAULT_DEPOSIT_CURRENCY in CURRENCY_LEDGERS
  {
  }

  lemma UpperOfFold(s: string, code: string)
    requires EqualFold(s, code) && IsUpper(code)
    ensures ToUpper(s) == code
  {
    forall i | 0 <= i < |s|
      ensures Upper(s[i]) == code[i]
    {
      assert Lower(s[i]) == Lower(code[i]);
    }
  }

  lemma FoldOfUpper(s: string)
    ensures EqualFold(s, ToUpper(s))
  {
  }

  // ---- Ledger calls that name each wallet with its own currency

  predicate Supported(currencies: map<Id, string>) {
    forall w :: w in currencies ==> currencies[w] in CURRENCY_LEDGERS
  }

  predicate Names(currencies: map<Id, string>, wallet: Id, currency: string) {
    wallet in currencies && currencies[wallet] == currency
  }

  predicate NamesWallets(currencies: map<Id, string>, call: Command) {
    match call
    case DepositCall(p) => Names(currencies, p.wallet, p.currency)
    case TransferCall(p) => Names(currencies, p.sender, p.senderCurrency)
      && Names(currencies, p.recipient, p.recipientCurrency)
    case EnsureCall(wallet, currency) => Names(currencies, wallet, currency)
  }

  /** Every wallet's account is on its currency's ledger. */
  ghost predicate OnOwnLedgers(c: Cluster, currencies: map<Id, string>) {
    forall w :: WalletAccount(w) in c.accounts ==>
      w in currencies && LedgerForCurrency(currencies[w]) == Some(c.accounts[WalletAccount(w)].spec.ledger)
  }

  lemma EnsureOnOwnLedger(c: Cluster, currencies: map<Id, string>, ledger: nat, wallet: Id, d: Delivery)
    requires OnOwnLedgers(c, currencies) && wallet in currencies
      && LedgerForCurrency(currencies[wallet]) == Some(ledger)
    ensures OnOwnLedgers(EnsureAccounts(c, ledger, wallet, d).0, currencies)
  {
    hide LedgerForCurrency;
  }

  lemma SubmitOnOwnLedgers(c: Cluster, currencies: map<Id, string>, t: Transfer, overdraft: LedgerError, w: Weather)
    requires OnOwnLedgers(c, currencies)
    ensures OnOwnLedgers(Submit(c, t, overdraft, w).0, currencies)
  {
    SubmitCases(c, t, overdraft, w);
    hide LedgerForCurrency, Submit;
  }

  lemma PerformOnOwnLedgers(c: Cluster, currencies: map<Id, string>, call: Command, w: Weather)
    requires OnOwnLedgers(c, currencies) && Supported(currencies) && NamesWallets(currencies, call)
    ensures OnOwnLedgers(Perform(c, call, w).0, currencies)
  {
    hide OnOwnLedgers, LedgerForCurrency, EnsureAccounts, Submit, EqualFold;
    match call
    case DepositCall(p) =>
      if DepositRequest(p).Some? {
        var t := DepositRequest(p).value;
        EnsureOnOwnLedger(c, currencies, t.ledger, p.wallet, w.first);
        SubmitOnOwnLedgers(EnsureAccounts(c, t.ledger, p.wallet, w.first).0, currencies, t, Rejected, w);
      }
    case TransferCall(p) =>
      if TransferRequest(p).1.Some? {
        var t := TransferRequest(p).1.value;
        SupportedFoldsToItself(p.senderCurrency, p.recipientCurrency);
        EnsureOnOwnLedger(c, currencies, t.ledger, p.sender, w.first);
        var c1 := EnsureAccounts(c, t.ledger, p.sender, w.first).0;
        EnsureOnOwnLedger(c1, currencies, t.ledger, p.recipient, w.second);
        SubmitOnOwnLedgers(EnsureAccounts(c1, t.ledger, p.recipient, w.second).0, currencies, t, InsufficientFunds, w);
      }
    case EnsureCall(wallet, currency) =>
      if LedgerForCurrency(currency).Some? {
        EnsureOnOwnLedger(c, currencies, LedgerForCurrency(currency).value, wallet, w.first);
      }
  }

  lemma {:induction false} PerformAllOnOwnLedgers(c: Cluster, currencies: map<Id, string>,
      calls: seq<(Command, Weather)>)
    requires OnOwnLedgers(c, currencies) && Supported(currencies)
    requires forall i :: 0 <= i < |calls| ==> NamesWallets(currencies, calls[i].0)
    ensures OnOwnLedgers(PerformAll(c, calls), currencies)
    decreases |calls|
  {
    hide OnOwnLedgers, Supported, NamesWallets, Perform;
    if calls != [] {
      PerformOnOwnLedgers(c, currencies, calls[0].0, calls[0].1);
      PerformAllOnOwnLedgers(Perform(c, calls[0].0, calls[0].1).0, currencies, calls[1..]);
    }
  }

  // ---- What the ledger can still say to a transfer between two such wallets

  /** A wallet's funds; an account not yet opened holds none. */
  function Funds(c: Cluster, wallet: Id): int {
    if WalletAccount(wallet) !in c.accounts then 0
    else c.accounts[WalletAccount(wallet)].credits - c.accounts[WalletAccount(wallet)].debits
  }

  lemma OpensOnOwnLedger(c: Cluster, currencies: map<Id, string>, ledger: nat, wallet: Id)
    requires ClusterOk(c) && OnOwnLedgers(c, currencies) && wallet in currencies
    requires LedgerForCurrency(currencies[wallet]) == Some(ledger)
    ensures var (c', e) := EnsureAccounts(c, ledger, wallet, Replied);
            && e == NoError && AccountsOpen(c', ledger, wallet) && c'.log == c.log
            && forall w :: Funds(c', w) == Funds(c, w)
  {
    hide LedgerForCurrency, LogOk;
    if WalletAccount(wallet) in c.accounts {
      assert SpecOk(WalletAccount(wallet), c.accounts[WalletAccount(wallet)].spec);
    }
    if SettlementAccount(ledger) in c.accounts {
      assert SpecOk(SettlementAccount(ledger), c.accounts[SettlementAccount(ledger)].spec);
    }
  }

  /** An account once open on its ledger stays so. */
  lemma StaysOpen(c: Cluster, ledger: nat, wallet: Id, other: Id, d: Delivery)
    requires AccountsOpen(c, ledger, wallet)
    ensures AccountsOpen(EnsureAccounts(c, ledger, other, d).0, ledger, wallet)
  {
  }

  lemma BothOpen(c: Cluster, currencies: map<Id, string>, p: TransferParam, ledger: nat)
    requires ClusterOk(c) && OnOwnLedgers(c, currencies)
    requires p.sender in currencies && p.recipient in currencies
    requires LedgerForCurrency(currencies[p.sender]) == LedgerForCurrency(currencies[p.recipient]) == Some(ledger)
    ensures var (c1, e1) := EnsureAccounts(c, ledger, p.sender, Replied);
            var (c2, e2) := EnsureAccounts(c1, ledger, p.recipient, Replied);
            && e1 == NoError && e2 == NoError && c2.log == c.log
            && AccountsOpen(c2, ledger, p.sender) && AccountsOpen(c2, ledger, p.recipient)
            && Funds(c2, p.sender) == Funds(c, p.sender)
  {
    hide LedgerForCurrency, EnsureAccounts, ClusterOk, OnOwnLedgers, Funds, AccountsOpen;
    OpensOnOwnLedger(c, currencies, ledger, p.sender);
    var c1 := EnsureAccounts(c, ledger, p.sender, Replied).0;
    EnsureAccountsKeeps(c, ledger, p.sender, Replied);
    EnsureOnOwnLedger(c, currencies, ledger, p.sender, Replied);
    OpensOnOwnLedger(c1, currencies, ledger, p.recipient);
    StaysOpen(c1, ledger, p.sender, p.recipient, Replied);
  }

  lemma SubmitDecides(c: Cluster, t: Transfer, w: Weather)
    requires t.debit.WalletAccount? && t.credit.WalletAccount? && t.debit != t.credit
    requires AccountsOpen(c, t.ledger, t.debit.wallet) && AccountsOpen(c, t.ledger, t.credit.wallet)
    requires w.post == Replied && !w.refused && (Find(c.log, t.id).Some? ==> Find(c.log, t.id) == Some(t))
    ensures Submit(c, t, InsufficientFunds, w).1
            == if Find(c.log, t.id).None? && Funds(c, t.debit.wallet) < t.amount then InsufficientFunds else NoError
  {
    hide Find;
  }

  lemma NothingYet(currencies: map<Id, string>)
    ensures ClusterOk(EMPTY) && OnOwnLedgers(EMPTY, currencies)
  {
  }

  /** The transfer's entry is not posted, or it is what is posted under its id. */
  ghost predicate NotMistaken(c: Cluster, p: TransferParam) {
    Find(c.log, p.id).Some? ==> HasPosted(c, TransferCall(p))
  }

  lemma DecidedByFunds(c: Cluster, currencies: map<Id, string>, p: TransferParam, w: Weather)
    requires ClusterOk(c) && OnOwnLedgers(c, currencies) && Supported(currencies)
      && NamesWallets(currencies, TransferCall(p))
    requires p.amount > 0 && p.sender != p.recipient && EqualFold(p.senderCurrency, p.recipientCurrency)
    requires w.first == w.second == w.post == Replied && !w.refused && NotMistaken(c, p)
    ensures TransferRequest(p).1.Some?
    ensures InternalTransfer(c, p, w).1
            == if Find(c.log, p.id).None? && Funds(c, p.sender) < p.amount then InsufficientFunds else NoError
  {
    hide ClusterOk, Find, EnsureAccounts, Submit, CURRENCY_LEDGERS, AccountsOpen, Funds, EqualFold;
    SupportedFoldsToItself(p.senderCurrency, p.recipientCurrency);
    var t := TransferRequest(p).1.value;
    BothOpen(c, currencies, p, t.ledger);
    var c2 := EnsureAccounts(EnsureAccounts(c, t.ledger, p.sender, Replied).0, t.ledger, p.recipient, Replied).0;
    SubmitDecides(c2, t, w);
  }

  /** Whatever deposits, transfers and wallet openings came before, with any replies lost, as long as
      each names a wallet with the currency it was opened in: a positive transfer between two of those
      wallets in one currency, its calls answered, succeeds if it was already made or the sender has the
      funds, and otherwise fails for insufficient funds and nothing else. */
  lemma FailsOnlyForFunds(calls: seq<(Command, Weather)>, currencies: map<Id, string>, p: TransferParam, w: Weather)
    requires Supported(currencies) && forall i :: 0 <= i < |calls| ==> NamesWallets(currencies, calls[i].0)
    requires NamesWallets(currencies, TransferCall(p))
    requires p.amount > 0 && p.sender != p.recipient && EqualFold(p.senderCurrency, p.recipientCurrency)
    requires w.first == w.second == w.post == Replied && !w.refused && NotMistaken(PerformAll(EMPTY, calls), p)
    ensures var c := PerformAll(EMPTY, calls);
            InternalTransfer(c, p, w).1
            == if Find(c.log, p.id).None? && Funds(c, p.sender) < p.amount then InsufficientFunds else NoError
  {
    hide InternalTransfer, Find, Funds, EqualFold, NotMistaken, OnOwnLedgers, ClusterOk, PerformAll, NamesWallets,
      Supported;
    NothingYet(currencies);
    PerformAllKeeps(EMPTY, calls);
    PerformAllOnOwnLedgers(EMPTY, currencies, calls);
    DecidedByFunds(PerformAll(EMPTY, calls), currencies, p, w);
  }
}
