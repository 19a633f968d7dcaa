/** One wallet per user and currency: a lookup, then an insert, with nothing in the table to hold the two
    together. When calls overlap, when that goes wrong. */
module WalletRace {
  import opened Common
  import opened Fresh
  import opened LedgerModel
  import opened WalletModel
  import opened WalletService

  // ---- CreateWallet, two steps at a time

  datatype Stage = LookUp | Insert | Finished

  /** A call that has normalised its currency and found it supported. */
  datatype Creation = Creation(user: Id, code: string, stage: Stage)

  datatype Config = Config(wallets: Wallets, calls: seq<Creation>)

  /** An insert gets a fresh uuid, and the first account number not taken, if one of its five is not. */
  datatype Event =
    | Begin(user: Id, code: string)
    | Deliver(k: nat, delivery: Delivery, id: Id, account: Option<string>)
    | Crash(k: nat)

  predicate Enabled(c: Config, e: Event) {
    match e
    case Begin(_, _) => true
    case Deliver(k, _, id, account) =>
      k < |c.calls| && id !in c.wallets && (account.Some? ==> !Taken(c.wallets, account.value))
    case Crash(k) => k < |c.calls|
  }

  function Step(wallets: Wallets, call: Creation, d: Delivery, id: Id, account: Option<string>): (Wallets, Stage) {
    match call.stage
    case LookUp => (wallets, if d == Replied && !Owns(wallets, call.user, call.code) then Insert else Finished)
    case Insert =>
      (if d == LostBefore || account.None? then wallets
       else wallets[id := WalletRow(call.user, account.value, call.code, true)], Finished)
    case Finished => (wallets, Finished)
  }

  function Exec(c: Config, e: Event): Config {
    if !Enabled(c, e) then c
    else
      match e
      case Begin(user, code) => c.(calls := c.calls + [Creation(user, code, LookUp)])
      case Deliver(k, d, id, account) =>
        var (wallets, stage) := Step(c.wallets, c.calls[k], d, id, account);
        Config(wallets, c.calls[k := c.calls[k].(stage := stage)])
      case Crash(k) => c.(calls := c.calls[k := c.calls[k].(stage := Finished)])
  }

  function Run(c: Config, events: seq<Event>): Config
    decreases |events|
  {
    if events == [] then c else Run(Exec(c, events[0]), events[1..])
  }

  // ---- The hypothesis, and safety under it

  /** The call has found no wallet and is about to insert one. */
  predicate Armed(call: Creation, user: Id, code: string) {
    call.stage == Insert && call.user == user && call.code == code
  }

  /** No lookup comes back empty while another call for the same user and currency stands between its
      lookup and its insert. */
  ghost predicate Permitted(c: Config, e: Event) {
    Enabled(c, e) && e.Deliver? && e.delivery == Replied && c.calls[e.k].stage == LookUp ==>
    forall j :: 0 <= j < |c.calls| && j != e.k ==> !Armed(c.calls[j], c.calls[e.k].user, c.calls[e.k].code)
  }

  ghost predicate Obeys(c: Config, events: seq<Event>)
    decreases |events|
  {
    events == [] || (Permitted(c, events[0]) && Obeys(Exec(c, events[0]), events[1..]))
  }

  /** No two calls are about to insert for the same user and currency, and none for one that has a wallet. */
  ghost predicate Separate(c: Config) {
    forall k :: 0 <= k < |c.calls| && c.calls[k].stage == Insert ==>
      && !Owns(c.wallets, c.calls[k].user, c.calls[k].code)
      && forall j :: 0 <= j < |c.calls| && j != k ==> !Armed(c.calls[j], c.calls[k].user, c.calls[k].code)
  }

  lemma SafeStep(c: Config, e: Event)
    requires OnePerCurrency(c.wallets) && Separate(c) && Permitted(c, e)
    ensures OnePerCurrency(Exec(c, e).wallets) && Separate(Exec(c, e))
  {
    var c' := Exec(c, e);
    if Enabled(c, e) {
      match e
      case Begin(_, _) => assert forall j :: 0 <= j < |c.calls| ==> c'.calls[j] == c.calls[j];
      case Crash(k) => assert forall j :: 0 <= j < |c.calls| && j != k ==> c'.calls[j] == c.calls[j];
      case Deliver(k, _, _, _) => assert forall j :: 0 <= j < |c.calls| && j != k ==> c'.calls[j] == c.calls[j];
    }
  }

  lemma {:induction false} SafeRun(c: Config, events: seq<Event>)
    requires OnePerCurrency(c.wallets) && Separate(c) && Obeys(c, events)
    ensures OnePerCurrency(Run(c, events).wallets)
    decreases |events|
  {
    hide OnePerCurrency, Separate, Permitted, Exec;
    if events != [] {
      SafeStep(c, events[0]);
      SafeRun(Exec(c, events[0]), events[1..]);
    }
  }

  // ---- The hypothesis is exact

  lemma RunFirst(c: Config, e: Event, rest: seq<Event>)
    ensures Run(c, [e] + rest) == Run(Exec(c, e), rest)
  {
    hide Exec;
    assert ([e] + rest)[1..] == rest;
  }

  /** A schedule that keeps the hypothesis and still leaves a user two wallets in one currency. */
  ghost predicate Doubles(c: Config, events: seq<Event>) {
    Obeys(c, events) && !OnePerCurrency(Run(c, events).wallets)
  }

  lemma DoublesLater(c: Config, e: Event, rest: seq<Event>)
    requires Permitted(c, e) && Doubles(Exec(c, e), rest)
    ensures Doubles(c, [e] + rest)
  {
    hide Run, Exec, Permitted, OnePerCurrency;
    RunFirst(c, e, rest);
    assert ([e] + rest)[1..] == rest;
  }

  /** The insert of call k, with a uuid and an account number not in use. */
  lemma FreshInsert(c: Config, k: nat) returns (e: Event)
    requires k < |c.calls| && c.calls[k].stage == Insert
    ensures Enabled(c, e) && Permitted(c, e)
    ensures var call := c.calls[k];
            && e.Deliver? && e.k == k && e.id !in c.wallets
            && Exec(c, e).calls == c.calls[k := call.(stage := Finished)]
            && exists account :: Exec(c, e).wallets == c.wallets[e.id := WalletRow(call.user, account, call.code, true)]
  {
    var id := SomeAbove(c.wallets.Keys);
    var accounts := set w | w in c.wallets :: c.wallets[w].account;
    var account := UnusedString(accounts);
    assert !Taken(c.wallets, account) by {
      assert forall w :: w in c.wallets ==> c.wallets[w].account in accounts;
    }
    e := Deliver(k, Replied, id, Some(account));
  }

  lemma InsertForAnOwner(c: Config, k: nat) returns (events: seq<Event>)
    requires k < |c.calls| && c.calls[k].stage == Insert && Owns(c.wallets, c.calls[k].user, c.calls[k].code)
    ensures Doubles(c, events)
  {
    var e := FreshInsert(c, k);
    var c' := Exec(c, e);
    var w :| w in c.wallets && c.wallets[w].user == c.calls[k].user && c.wallets[w].currency == c.calls[k].code;
    assert w in c'.wallets && e.id in c'.wallets && w != e.id;
    assert !OnePerCurrency(c'.wallets);
    hide Exec, Permitted, OnePerCurrency;
    RunFirst(c, e, []);
    assert ([e] + [])[0] == e && ([e] + [])[1..] == [];
    assert Run(c', []) == c' && Obeys(c', []);
    events := [e] + [];
  }

  lemma TwoInserts(c: Config, j: nat, k: nat) returns (events: seq<Event>)
    requires j < |c.calls| && k < |c.calls| && j != k
    requires c.calls[k].stage == Insert && Armed(c.calls[j], c.calls[k].user, c.calls[k].code)
    ensures Doubles(c, events)
  {
    var e := FreshInsert(c, j);
    var c' := Exec(c, e);
    assert c'.calls[k] == c.calls[k];
    assert e.id in c'.wallets && Owns(c'.wallets, c.calls[k].user, c.calls[k].code);
    hide Exec, Permitted, Owns;
    var rest := InsertForAnOwner(c', k);
    DoublesLater(c, e, rest);
    events := [e] + rest;
  }

  /** With the hypothesis kept from here on, every schedule leaves each user one wallet per currency if
      and only if no two calls for the same user and currency stand between lookup and insert now, and
      none stands there for a user who has that wallet. */
  lemma OnePerCurrencyExactly(c: Config)
    requires OnePerCurrency(c.wallets)
    ensures (forall events :: !Doubles(c, events)) <==> Separate(c)
  {
    hide OnePerCurrency, Exec, Run, Permitted;
    if Separate(c) {
      forall events
        ensures !Doubles(c, events)
      {
        if Obeys(c, events) {
          SafeRun(c, events);
        }
      }
    } else {
      var k :| 0 <= k < |c.calls| && c.calls[k].stage == Insert &&
        (Owns(c.wallets, c.calls[k].user, c.calls[k].code)
         || exists j :: 0 <= j < |c.calls| && j != k && Armed(c.calls[j], c.calls[k].user, c.calls[k].code));
      if Owns(c.wallets, c.calls[k].user, c.calls[k].code) {
        var events := InsertForAnOwner(c, k);
      } else {
        var j :| 0 <= j < |c.calls| && j != k && Armed(c.calls[j], c.calls[k].user, c.calls[k].code);
        var events := TwoInserts(c, j, k);
      }
    }
  }

  /** A lookup that comes back empty is harmless exactly when no other call for the same user and currency
      is about to insert: the hypothesis asks for nothing that can be spared. */
  lemma EmptyLookupExactly(c: Config, e: Event)
    requires OnePerCurrency(c.wallets) && Separate(c)
    requires Enabled(c, e) && e.Deliver? && e.delivery == Replied && c.calls[e.k].stage == LookUp
    requires !Owns(c.wallets, c.calls[e.k].user, c.calls[e.k].code)
    ensures (forall events :: !Doubles(Exec(c, e), events)) <==>
              forall j :: 0 <= j < |c.calls| && j != e.k ==> !Armed(c.calls[j], c.calls[e.k].user, c.calls[e.k].code)
  {
    hide Obeys, Run, Doubles, OnePerCurrency;
    var c' := Exec(c, e);
    assert c' == c.(calls := c.calls[e.k := c.calls[e.k].(stage := Insert)]);
    OnePerCurrencyExactly(c');
    if j :| 0 <= j < |c.calls| && j != e.k && Armed(c.calls[j], c.calls[e.k].user, c.calls[e.k].code) {
      assert c'.calls[j] == c.calls[j] && c'.calls[e.k].stage == Insert;
      assert !Separate(c');
    } else {
      assert Permitted(c, e);
      SafeStep(c, e);
    }
  }

  // ---- It happens, and it does not happen to a call on its own

  /** What CreateWallet leaves in the table, for a supported currency, is what its two steps leave. */
  lemma CreateWalletIsTwoSteps(wallets: Wallets, user: Id, code: string, look: Delivery, id: Id,
      candidates: seq<string>, replies: seq<Delivery>) returns (insert: Delivery, account: Option<string>)
    requires id !in wallets && |candidates| == |replies|
    ensures account.Some? ==> account.value in candidates && !Taken(wallets, account.value)
    ensures Run(Config(wallets, [Creation(user, code, LookUp)]),
                [Deliver(0, look, id, account), Deliver(0, insert, id, account)]).wallets
            == if look == Replied && !Owns(wallets, user, code)
               then Inserted(wallets, id, user, code, candidates, replies) else wallets
  {
    hide Owns, Taken, Run;
    insert, account := Replied, None;
    var i := FirstTried(wallets, candidates, replies);
    if i < |candidates| && !Taken(wallets, candidates[i]) {
      insert, account := replies[i], Some(candidates[i]);
    }
    CreationAlone(wallets, user, code, look, insert, id, account);
  }

  const NO_WALLETS: Config := Config(map[], [])

  /** Two overlapping calls give a new user two wallets in one currency. */
  lemma TwoWallets(user: Id, code: string) returns (events: seq<Event>)
    ensures !OnePerCurrency(Run(NO_WALLETS, events).wallets)
  {
    var begin := Begin(user, code);
    var look0, look1 := Deliver(0, Replied, 0, None), Deliver(1, Replied, 0, None);
    var c1 := Exec(NO_WALLETS, begin);
    var c2 := Exec(c1, begin);
    var c3 := Exec(c2, look0);
    var c4 := Exec(c3, look1);
    var armed := Creation(user, code, Insert);
    assert c4.calls == [armed, armed];
    var rest := TwoInserts(c4, 0, 1);
    hide Exec, Obeys;
    RunFirst(c3, look1, rest);
    RunFirst(c2, look0, [look1] + rest);
    RunFirst(c1, begin, [look0] + ([look1] + rest));
    RunFirst(NO_WALLETS, begin, [begin] + ([look0] + ([look1] + rest)));
    events := [begin] + ([begin] + ([look0] + ([look1] + rest)));
  }

  /** Undisturbed, the two steps insert at most one row, and only for a user without such a wallet. */
  lemma CreationAlone(wallets: Wallets, user: Id, code: string, look: Delivery, insert: Delivery, id: Id,
      account: Option<string>)
    requires id !in wallets && (account.Some? ==> !Taken(wallets, account.value))
    ensures var c := Config(wallets, [Creation(user, code, LookUp)]);
            Run(c, [Deliver(0, look, id, account), Deliver(0, insert, id, account)]).wallets
            == if look == Replied && !Owns(wallets, user, code) && insert != LostBefore && account.Some?
               then wallets[id := WalletRow(user, account.value, code, true)] else wallets
  {
    hide Owns, Taken;
    var c := Config(wallets, [Creation(user, code, LookUp)]);
    var e1, e2 := Deliver(0, look, id, account), Deliver(0, insert, id, account);
    var c1 := Exec(c, e1);
    var c2 := Exec(c1, e2);
    assert [e1, e2][1..] == [e2] && [e2][1..] == [];
    assert Run(c1, [e2]) == Run(c2, []);
  }
}
