/** The store as it is written, over one Redis database with two keys for each identifier. */
module OtpStore {
  import opened Common
  import opened OtpMachine

  /** A value with its time to live; a code is a string, a counter a number. */
  datatype Entry = CodeEntry(code: Code) | CounterEntry(counter: Counter)

  function CodeKey(identifier: string): string { "otp:code:" + identifier }

  function AttemptKey(identifier: string): string { "otp:attempts:" + identifier }

  /** No identifier's key is another identifier's, of either kind. */
  lemma KeysDiffer(a: string, b: string)
    ensures CodeKey(a) != AttemptKey(b)
    ensures CodeKey(a) == CodeKey(b) <==> a == b
    ensures AttemptKey(a) == AttemptKey(b) <==> a == b
  {
    assert CodeKey(a)[4] == 'c' && AttemptKey(b)[4] == 'a';
    assert CodeKey(a)[9..] == a && CodeKey(b)[9..] == b;
    assert AttemptKey(a)[13..] == a && AttemptKey(b)[13..] == b;
  }

  /** Codes under code keys, counters under attempt keys. */
  ghost predicate Typed(keys: map<string, Entry>) {
    forall identifier: string ::
      && (CodeKey(identifier) in keys ==> keys[CodeKey(identifier)].CodeEntry?)
      && (AttemptKey(identifier) in keys ==> keys[AttemptKey(identifier)].CounterEntry?)
  }

  /** The two keys of one identifier. */
  function View(keys: map<string, Entry>, identifier: string): Pair
    requires Typed(keys)
  {
    Pair(if CodeKey(identifier) in keys then Some(keys[CodeKey(identifier)].code) else None,
         if AttemptKey(identifier) in keys then Some(keys[AttemptKey(identifier)].counter) else None)
  }

  /** Every other identifier's keys are untouched. */
  ghost predicate OnlyTouches(before: map<string, Entry>, after: map<string, Entry>, identifier: string) {
    forall key :: key != CodeKey(identifier) && key != AttemptKey(identifier) ==>
      (key in after <==> key in before) && (key in before ==> after[key] == before[key])
  }

  // ---- One call on its own

  datatype Command = IncrAttempts | ExpireAttempts | DelLocked | GetCode | DelVerified

  function CommandOf(stage: Stage): Command
    requires !stage.Done?
  {
    match stage
    case CountAttempt(_) => IncrAttempts
    case SetExpiry(_, _) => ExpireAttempts
    case LockOut => DelLocked
    case Fetch(_) => GetCode
    case DropKeys => DelVerified
  }

  function Ahead(stage: Stage): nat {
    match stage
    case CountAttempt(_) => 4
    case SetExpiry(_, _) => 3
    case Fetch(_) => 2
    case LockOut => 1
    case DropKeys => 1
    case Done(_) => 0
  }

  lemma StepAdvances(p: Pair, stage: Stage, s: Settings, hash: string -> string, now: nat, d: Delivery)
    ensures stage.Done? || Ahead(Step(p, stage, s, hash, now, d).1) < Ahead(stage)
  {
  }

  /** An uninterrupted Verify: what it leaves and what it returns. */
  function VerifyAlone(p: Pair, stage: Stage, s: Settings, hash: string -> string, now: nat,
      replies: Command -> Delivery): (Pair, Result)
    decreases Ahead(stage)
  {
    if stage.Done? then (p, stage.result)
    else
      StepAdvances(p, stage, s, hash, now, replies(CommandOf(stage)));
      var (p', stage') := Step(p, stage, s, hash, now, replies(CommandOf(stage)));
      VerifyAlone(p', stage', s, hash, now, replies)
  }

  lemma Onward(p: Pair, stage: Stage, s: Settings, hash: string -> string, now: nat, replies: Command -> Delivery)
    requires !stage.Done?
    ensures var (p', stage') := Step(p, stage, s, hash, now, replies(CommandOf(stage)));
            VerifyAlone(p, stage, s, hash, now, replies) == VerifyAlone(p', stage', s, hash, now, replies)
  {
    hide Step;
  }

  lemma Over(p: Pair, r: Result, s: Settings, hash: string -> string, now: nat, replies: Command -> Delivery)
    ensures VerifyAlone(p, Done(r), s, hash, now, replies) == (p, r)
  {
  }

  /** A Verify on its own is one schedule of the machine, among whatever other calls there are. */
  lemma {:induction false} VerifyIsASchedule(c: Config, k: nat, s: Settings, hash: string -> string,
      replies: Command -> Delivery)
    returns (events: seq<Event>)
    requires k < |c.calls|
    ensures var (pair, r) := VerifyAlone(c.pair, c.calls[k], s, hash, c.now, replies);
            var c' := Run(c, events, s, hash);
            c'.pair == pair && c'.calls == c.calls[k := Done(r)] && c'.now == c.now
    decreases Ahead(c.calls[k])
  {
    events := [];
    if !c.calls[k].Done? {
      var d := replies(CommandOf(c.calls[k]));
      var c1 := Exec(c, Deliver(k, d), s, hash);
      StepAdvances(c.pair, c.calls[k], s, hash, c.now, d);
      hide Step, InFlight;
      var rest := VerifyIsASchedule(c1, k, s, hash, replies);
      events := [Deliver(k, d)] + rest;
      assert events[1..] == rest;
    }
  }

  class Store {
    var keys: map<string, Entry>
    const settings: Settings
    const hash: string -> string

    constructor (settings: Settings, hash: string -> string)
      ensures this.settings == settings && this.hash == hash && keys == map[] && Typed(keys)
    {
      this.settings, this.hash, keys := settings, hash, map[];
    }

    method incr(identifier: string, now: nat, d: Delivery) returns (n: nat)
      requires Typed(keys)
      modifies this
      ensures Typed(keys) && OnlyTouches(old(keys), keys, identifier)
      ensures View(keys, identifier) == Outcome(View(old(keys), identifier), Incr(View(old(keys), identifier), now), d)
      ensures n == Incr(View(old(keys), identifier), now).attempts.value.n
    {
      KeysAllDiffer(identifier);
      var key := AttemptKey(identifier);
      var counter := Counter(1, None);
      if key in keys && CounterAlive(Pair(None, Some(keys[key].counter)), now) {
        counter := keys[key].counter.(n := keys[key].counter.n + 1);
      }
      n := counter.n;
      if d != LostBefore {
        keys := keys[key := CounterEntry(counter)];
      }
    }

    method expire(identifier: string, now: nat, d: Delivery)
      requires Typed(keys)
      modifies this
      ensures Typed(keys) && OnlyTouches(old(keys), keys, identifier)
      ensures View(keys, identifier)
        == Outcome(View(old(keys), identifier), Expire(View(old(keys), identifier), settings, now), d)
    {
      KeysAllDiffer(identifier);
      var key := AttemptKey(identifier);
      if d != LostBefore && key in keys && CounterAlive(Pair(None, Some(keys[key].counter)), now) {
        keys := keys[key := CounterEntry(keys[key].counter.(until := Some(now + settings.ttl)))];
      }
    }

    method del(identifier: string, d: Delivery)
      requires Typed(keys)
      modifies this
      ensures Typed(keys) && OnlyTouches(old(keys), keys, identifier)
      ensures View(keys, identifier) == Outcome(View(old(keys), identifier), Del(View(old(keys), identifier)), d)
    {
      KeysAllDiffer(identifier);
      if d != LostBefore {
        keys := keys - {CodeKey(identifier), AttemptKey(identifier)};
      }
    }

    method Generate(identifier: string, code: string, now: nat, d: Delivery) returns (ok: bool)
      requires Typed(keys)
      modifies this
      ensures Typed(keys) && OnlyTouches(old(keys), keys, identifier)
      ensures ok == (d == Replied)
      ensures View(keys, identifier)
              == Outcome(View(old(keys), identifier), Issue(View(old(keys), identifier), hash(code), settings, now), d)
    {
      KeysAllDiffer(identifier);
      ok := d == Replied;
      if d != LostBefore {
        keys := keys[CodeKey(identifier) := CodeEntry(Code(hash(code), now + settings.ttl))];
        keys := keys - {AttemptKey(identifier)};
      }
    }

    method get(identifier: string, now: nat) returns (stored: Option<string>)
      requires Typed(keys)
      ensures var p := View(keys, identifier); stored == if CodeAlive(p, now) then Some(p.code.value.hash) else None
    {
      stored := None;
      var key := CodeKey(identifier);
      if key in keys && now < keys[key].code.until {
        stored := Some(keys[key].code.hash);
      }
    }

    method lockOut(identifier: string, now: nat, replies: Command -> Delivery) returns (r: Result)
      requires Typed(keys)
      modifies this
      ensures Typed(keys) && OnlyTouches(old(keys), keys, identifier)
      ensures (View(keys, identifier), r)
        == VerifyAlone(View(old(keys), identifier), LockOut, settings, hash, now, replies)
    {
      hide VerifyAlone, Typed, OnlyTouches, View;
      Onward(View(keys, identifier), LockOut, settings, hash, now, replies);
      del(identifier, replies(DelLocked));
      r := TooManyTries;
      Over(View(keys, identifier), r, settings, hash, now, replies);
    }

    method compare(identifier: string, code: string, now: nat, replies: Command -> Delivery) returns (r: Result)
      requires Typed(keys)
      modifies this
      ensures Typed(keys) && OnlyTouches(old(keys), keys, identifier)
      ensures (View(keys, identifier), r)
        == VerifyAlone(View(old(keys), identifier), Fetch(code), settings, hash, now, replies)
    {
      NothingTouched(keys, identifier);
      hide VerifyAlone, Typed, OnlyTouches, View;
      Onward(View(keys, identifier), Fetch(code), settings, hash, now, replies);
      var stored := get(identifier, now);
      if replies(GetCode) != Replied || stored.None? || stored.value != hash(code) {
        r := if replies(GetCode) != Replied then Failed else if stored.None? then NotFound else Mismatch;
        Over(View(keys, identifier), r, settings, hash, now, replies);
        return r;
      }
      Onward(View(keys, identifier), DropKeys, settings, hash, now, replies);
      del(identifier, replies(DelVerified));
      r := Verified;
      Over(View(keys, identifier), r, settings, hash, now, replies);
    }

    method Verify(identifier: string, code: string, now: nat, replies: Command -> Delivery) returns (r: Result)
      requires Typed(keys)
      modifies this
      ensures Typed(keys) && OnlyTouches(old(keys), keys, identifier)
      ensures (View(keys, identifier), r)
              == VerifyAlone(View(old(keys), identifier), CountAttempt(code), settings, hash, now, replies)
    {
      hide VerifyAlone, Typed, OnlyTouches, View;
      Onward(View(keys, identifier), CountAttempt(code), settings, hash, now, replies);
      var attempts := incr(identifier, now, replies(IncrAttempts));
      ghost var counted := keys;
      if replies(IncrAttempts) != Replied {
        Over(View(keys, identifier), Failed, settings, hash, now, replies);
        return Failed;
      }
      if attempts == 1 {
        Onward(View(keys, identifier), SetExpiry(attempts, code), settings, hash, now, replies);
        expire(identifier, now, replies(ExpireAttempts));
        TouchesAdd(old(keys), counted, keys, identifier);
      }
      ghost var expiring := keys;
      if attempts > settings.max {
        r := lockOut(identifier, now, replies);
      } else {
        r := compare(identifier, code, now, replies);
      }
      TouchesAdd(old(keys), expiring, keys, identifier);
    }
  }

  lemma NothingTouched(keys: map<string, Entry>, identifier: string)
    ensures OnlyTouches(keys, keys, identifier)
  {
  }

  lemma TouchesAdd(a: map<string, Entry>, b: map<string, Entry>, c: map<string, Entry>, identifier: string)
    requires OnlyTouches(a, b, identifier) && OnlyTouches(b, c, identifier)
    ensures OnlyTouches(a, c, identifier)
  {
  }

  lemma KeysAllDiffer(identifier: string)
    ensures forall other: string {:trigger AttemptKey(other)} ::
              CodeKey(identifier) != AttemptKey(other)
                && (AttemptKey(identifier) == AttemptKey(other) ==> identifier == other)
    ensures forall other: string {:trigger CodeKey(other)} ::
              AttemptKey(identifier) != CodeKey(other)
                && (CodeKey(identifier) == CodeKey(other) ==> identifier == other)
  {
    forall other: string {:trigger AttemptKey(other)}
      ensures CodeKey(identifier) != AttemptKey(other)
        && (AttemptKey(identifier) == AttemptKey(other) ==> identifier == other)
    {
      KeysDiffer(identifier, other);
    }
    forall other: string {:trigger CodeKey(other)}
      ensures AttemptKey(identifier) != CodeKey(other)
        && (CodeKey(identifier) == CodeKey(other) ==> identifier == other)
    {
      KeysDiffer(other, identifier);
      KeysDiffer(identifier, other);
    }
  }
}
