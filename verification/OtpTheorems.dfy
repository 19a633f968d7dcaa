/** When a one-time password can be used again, and when it cannot. */
module OtpTheorems {
  import opened Common
  import opened OtpMachine

  predicate NoGenerate(events: seq<Event>) {
    forall i :: 0 <= i < |events| ==> !events[i].Generate?
  }

  // ---- Another success: possible exactly when

  /** The call holds the right code and has been let through. */
  predicate Holds(c: Config, s: Settings, hash: string -> string, stage: Stage)
    requires c.pair.code.Some?
  {
    match stage
    case SetExpiry(n, guess) => n <= s.max && hash(guess) == c.pair.code.value.hash
    case Fetch(guess) => hash(guess) == c.pair.code.value.hash
    case _ => false
  }

  predicate AttemptsLeft(c: Config, s: Settings) {
    s.max > 0 && (CounterAlive(c.pair, c.now) ==> c.pair.attempts.value.n < s.max)
  }

  ghost predicate CanSucceed(c: Config, s: Settings, hash: string -> string) {
    || (exists k :: 0 <= k < |c.calls| && c.calls[k].DropKeys?)
    || (CodeAlive(c.pair, c.now) &&
          (AttemptsLeft(c, s) || exists k :: 0 <= k < |c.calls| && Holds(c, s, hash, c.calls[k])))
  }

  lemma ExhaustedStays(c: Config, e: Event, s: Settings, hash: string -> string)
    requires Guarded(c, s) && !CanSucceed(c, s, hash) && !e.Generate?
    ensures !CanSucceed(Exec(c, e, s, hash), s, hash)
    ensures Exec(c, e, s, hash).books.successes == c.books.successes
  {
    hide InFlight;
    var c' := Exec(c, e, s, hash);
    if e.Deliver? && e.k < |c.calls| {
      assert !c.calls[e.k].DropKeys?;
      assert forall j :: 0 <= j < |c'.calls| && j != e.k ==> c'.calls[j] == c.calls[j];
    }
  }

  lemma {:induction false} ExhaustedForGood(c: Config, events: seq<Event>, s: Settings, hash: string -> string)
    requires Guarded(c, s) && !CanSucceed(c, s, hash) && NoGenerate(events)
    ensures Run(c, events, s, hash).books.successes == c.books.successes
    decreases |events|
  {
    hide Guarded, CanSucceed, Exec;
    if events != [] {
      ExhaustedStays(c, events[0], s, hash);
      ExecGuarded(c, events[0], s, hash);
      ExhaustedForGood(Exec(c, events[0], s, hash), events[1..], s, hash);
    }
  }

  lemma RunFirst(c: Config, e: Event, rest: seq<Event>, s: Settings, hash: string -> string)
    ensures Run(c, [e] + rest, s, hash) == Run(Exec(c, e, s, hash), rest, s, hash)
  {
    hide Exec;
    assert ([e] + rest)[1..] == rest;
  }

  ghost predicate Succeeds(c: Config, events: seq<Event>, s: Settings, hash: string -> string) {
    NoGenerate(events) && Run(c, events, s, hash).books.successes > c.books.successes
  }

  lemma SucceedsLater(c: Config, e: Event, rest: seq<Event>, s: Settings, hash: string -> string)
    requires !e.Generate? && Exec(c, e, s, hash).books.successes == c.books.successes
    requires Succeeds(Exec(c, e, s, hash), rest, s, hash)
    ensures Succeeds(c, [e] + rest, s, hash)
  {
    hide Run, Exec;
    RunFirst(c, e, rest, s, hash);
  }

  lemma FromDropKeys(c: Config, k: nat, s: Settings, hash: string -> string)
    returns (events: seq<Event>)
    requires k < |c.calls| && c.calls[k].DropKeys?
    ensures Succeeds(c, events, s, hash)
  {
    var e := Deliver(k, Replied);
    assert Exec(c, e, s, hash).books.successes == c.books.successes + 1;
    RunFirst(c, e, [], s, hash);
    events := [e] + [];
  }

  lemma FromFetch(c: Config, k: nat, s: Settings, hash: string -> string)
    returns (events: seq<Event>)
    requires k < |c.calls| && c.calls[k].Fetch? && CodeAlive(c.pair, c.now) && Holds(c, s, hash, c.calls[k])
    ensures Succeeds(c, events, s, hash)
  {
    var e := Deliver(k, Replied);
    var c1 := Exec(c, e, s, hash);
    assert c1.calls[k] == DropKeys && c1.books.successes == c.books.successes;
    hide Exec;
    var rest := FromDropKeys(c1, k, s, hash);
    SucceedsLater(c, e, rest, s, hash);
    events := [e] + rest;
  }

  lemma FromHolder(c: Config, k: nat, s: Settings, hash: string -> string)
    returns (events: seq<Event>)
    requires k < |c.calls| && CodeAlive(c.pair, c.now) && Holds(c, s, hash, c.calls[k])
    ensures Succeeds(c, events, s, hash)
  {
    if c.calls[k].Fetch? {
      events := FromFetch(c, k, s, hash);
    } else {
      var e := Deliver(k, Replied);
      var c1 := Exec(c, e, s, hash);
      assert c1.calls[k] == Fetch(c.calls[k].guess) && c1.books.successes == c.books.successes
        && c1.pair.code == c.pair.code;
      hide Exec;
      var rest := FromFetch(c1, k, s, hash);
      SucceedsLater(c, e, rest, s, hash);
      events := [e] + rest;
    }
  }

  lemma FromAttempt(c: Config, guess: string, s: Settings, hash: string -> string)
    returns (events: seq<Event>)
    requires CodeAlive(c.pair, c.now) && AttemptsLeft(c, s) && hash(guess) == c.pair.code.value.hash
    ensures Succeeds(c, events, s, hash)
  {
    var k := |c.calls|;
    var c1 := Exec(c, Begin(guess), s, hash);
    var c2 := Exec(c1, Deliver(k, Replied), s, hash);
    assert c2.books.successes == c.books.successes && c2.pair.code == c.pair.code && Holds(c2, s, hash, c2.calls[k]);
    assert c1.books.successes == c.books.successes;
    hide Exec;
    var rest := FromHolder(c2, k, s, hash);
    SucceedsLater(c1, Deliver(k, Replied), rest, s, hash);
    SucceedsLater(c, Begin(guess), [Deliver(k, Replied)] + rest, s, hash);
    events := [Begin(guess)] + ([Deliver(k, Replied)] + rest);
  }

  /** Until the next Generate, some schedule makes a Verify succeed (again) if and only if a call has
      already matched the code, or the code is alive and someone may still try it. */
  lemma SuccessPossibleExactly(c: Config, guess: string, s: Settings, hash: string -> string)
    requires Guarded(c, s)
    requires c.pair.code.Some? ==> hash(guess) == c.pair.code.value.hash
    ensures (exists events :: Succeeds(c, events, s, hash)) <==> CanSucceed(c, s, hash)
  {
    if CanSucceed(c, s, hash) {
      if k :| 0 <= k < |c.calls| && c.calls[k].DropKeys? {
        var events := FromDropKeys(c, k, s, hash);
      } else if AttemptsLeft(c, s) {
        var events := FromAttempt(c, guess, s, hash);
      } else {
        var k :| 0 <= k < |c.calls| && Holds(c, s, hash, c.calls[k]);
        var events := FromHolder(c, k, s, hash);
      }
    } else {
      forall events: seq<Event> | NoGenerate(events) {
        ExhaustedForGood(c, events, s, hash);
      }
    }
    hide Run, Guarded, InFlight;
  }

  // ---- Calls that do not overlap

  predicate Active(stage: Stage) { !stage.Done? }

  ghost predicate Idle(c: Config) {
    forall k :: 0 <= k < |c.calls| ==> !Active(c.calls[k])
  }

  /** A call begins only when no other is under way, and the final DEL takes effect. */
  ghost predicate Permitted(c: Config, e: Event) {
    match e
    case Begin(_) => Idle(c)
    case Deliver(k, d) => k < |c.calls| && c.calls[k].DropKeys? ==> d != LostBefore
    case _ => true
  }

  ghost predicate Obeys(c: Config, events: seq<Event>, s: Settings, hash: string -> string)
    decreases |events|
  {
    events == [] || (Permitted(c, events[0]) && Obeys(Exec(c, events[0], s, hash), events[1..], s, hash))
  }

  ghost predicate Single(c: Config) {
    && (forall j, k :: 0 <= j < k < |c.calls| ==> !Active(c.calls[j]) || !Active(c.calls[k]))
    && c.books.successes <= 1
    && (c.books.successes == 1 ==>
          !CodeAlive(c.pair, c.now) && forall k :: 0 <= k < |c.calls| ==> !c.calls[k].DropKeys?)
  }

  lemma SingleStays(c: Config, e: Event, s: Settings, hash: string -> string)
    requires Single(c) && Permitted(c, e)
    ensures Single(Exec(c, e, s, hash))
  {
    hide InFlight;
    var c' := Exec(c, e, s, hash);
    if e.Deliver? && e.k < |c.calls| {
      assert forall j :: 0 <= j < |c.calls| && j != e.k ==> c'.calls[j] == c.calls[j];
      assert Active(c'.calls[e.k]) ==> Active(c.calls[e.k]);
    }
  }

  lemma {:induction false} SingleRun(c: Config, events: seq<Event>, s: Settings, hash: string -> string)
    requires Single(c) && Obeys(c, events, s, hash)
    ensures Single(Run(c, events, s, hash))
    decreases |events|
  {
    hide Single, Permitted, Exec;
    if events != [] {
      SingleStays(c, events[0], s, hash);
      SingleRun(Exec(c, events[0], s, hash), events[1..], s, hash);
    }
  }

  /** A code is accepted at most once if Verify calls do not overlap and the DEL after a match takes
      effect; once accepted it can never be compared again. */
  lemma AcceptedAtMostOnce(events: seq<Event>, s: Settings, hash: string -> string)
    requires Obeys(EMPTY, events, s, hash)
    ensures var c := Run(EMPTY, events, s, hash);
            c.books.successes <= 1 && (c.books.successes == 1 ==> !CodeAlive(c.pair, c.now) && !CanSucceed(c, s, hash))
  {
    hide Exec, Obeys;
    SingleRun(EMPTY, events, s, hash);
    hide Run, Holds;
  }

  /** Why calls must not overlap: two that fetched the code before either dropped it both succeed. */
  lemma OverlapAcceptsTwice(c: Config, j: nat, k: nat, s: Settings, hash: string -> string)
    requires j < |c.calls| && k < |c.calls| && j != k && CodeAlive(c.pair, c.now)
    requires c.calls[j].Fetch? && Holds(c, s, hash, c.calls[j]) && c.calls[k].Fetch? && Holds(c, s, hash, c.calls[k])
    ensures exists events :: NoGenerate(events) && Run(c, events, s, hash).books.successes == c.books.successes + 2
  {
    var ej, ek := Deliver(j, Replied), Deliver(k, Replied);
    var c1 := Exec(c, ej, s, hash);
    var c2 := Exec(c1, ek, s, hash);
    var c3 := Exec(c2, ej, s, hash);
    var c4 := Exec(c3, ek, s, hash);
    assert c2.calls[j] == c2.calls[k] == DropKeys && c4.books.successes == c.books.successes + 2;
    hide Exec;
    RunFirst(c3, ek, [], s, hash);
    RunFirst(c2, ej, [ek] + [], s, hash);
    RunFirst(c1, ek, [ej] + ([ek] + []), s, hash);
    RunFirst(c, ej, [ek] + ([ej] + ([ek] + [])), s, hash);
    assert NoGenerate([ej] + ([ek] + ([ej] + ([ek] + []))));
  }

  /** Why the bound on comparisons counts overtaken calls: one compares the new code although the new
      counter has not seen it. */
  lemma OvertakenIsNotCounted(c: Config, k: nat, newHash: string, s: Settings, hash: string -> string)
    requires k < |c.calls| && c.calls[k].Fetch? && s.ttl > 0
    ensures var c' := Run(c, [Generate(newHash), Deliver(k, Replied)], s, hash);
            c'.books.compared == 1 && c'.pair.attempts.None?
  {
    hide InFlight;
    var c1 := Exec(c, Generate(newHash), s, hash);
    var c2 := Exec(c1, Deliver(k, Replied), s, hash);
    assert c2.books.compared == 1 && c2.pair.attempts.None?;
    hide Exec;
    RunFirst(c1, Deliver(k, Replied), [], s, hash);
    RunFirst(c, Generate(newHash), [Deliver(k, Replied)], s, hash);
    assert [Deliver(k, Replied)] + [] == [Deliver(k, Replied)];
    assert [Generate(newHash)] + [Deliver(k, Replied)] == [Generate(newHash), Deliver(k, Replied)];
  }

  // ---- One comparison too many: possible exactly when

  lemma {:induction false} NobodyInFlight(s: Settings, calls: seq<Stage>)
    ensures InFlight(s, calls) > 0 <==> exists k :: 0 <= k < |calls| && Flying(s, calls[k])
  {
    if calls != [] {
      NobodyInFlight(s, calls[..|calls| - 1]);
    }
  }

  lemma {:induction false} RunLast(c: Config, events: seq<Event>, e: Event, s: Settings, hash: string -> string)
    ensures Run(c, events + [e], s, hash) == Exec(Run(c, events, s, hash), e, s, hash)
    decreases |events|
  {
    hide Exec;
    if events == [] {
      assert [] + [e] == [e] && [e][1..] == [];
    } else {
      assert (events + [e])[1..] == events[1..] + [e];
      RunLast(Exec(c, events[0], s, hash), events[1..], e, s, hash);
    }
  }

  lemma {:induction false} RunSplits(c: Config, a: seq<Event>, b: seq<Event>, s: Settings, hash: string -> string)
    ensures Run(c, a + b, s, hash) == Run(Run(c, a, s, hash), b, s, hash)
    decreases |a|
  {
    hide Exec;
    if a == [] {
      assert a + b == b;
    } else {
      assert (a + b)[1..] == a[1..] + b;
      RunSplits(Exec(c, a[0], s, hash), a[1..], b, s, hash);
    }
  }

  /** The code is alive, and `n` calls have been counted and have compared it. */
  predicate Tried(c: Config, n: nat) {
    && CodeAlive(c.pair, c.now) && c.books.compared == n
    && (if n == 0 then !CounterAlive(c.pair, c.now) else CounterAlive(c.pair, c.now) && c.pair.attempts.value.n == n)
  }

  /** One more call, from its start to its comparison. */
  lemma TryOnce(c: Config, n: nat, s: Settings, hash: string -> string) returns (events: seq<Event>)
    requires Tried(c, n) && n < s.max && s.ttl > 0
    ensures NoGenerate(events)
    ensures var c' := Run(c, events, s, hash);
            Tried(c', n + 1) && |c'.calls| == |c.calls| + 1 && c'.calls[..|c.calls|] == c.calls
  {
    hide InFlight;
    var k := |c.calls|;
    var c1 := Exec(c, Begin(""), s, hash);
    var c2 := Exec(c1, Deliver(k, Replied), s, hash);
    assert c2.calls == c.calls + [if n == 0 then SetExpiry(1, "") else Fetch("")];
    RunLast(c, [], Begin(""), s, hash);
    RunLast(c, [] + [Begin("")], Deliver(k, Replied), s, hash);
    events := [] + [Begin("")] + [Deliver(k, Replied)];
    var c3 := c2;
    if n == 0 {
      c3 := Exec(c2, Deliver(k, Replied), s, hash);
      RunLast(c, events, Deliver(k, Replied), s, hash);
      events := events + [Deliver(k, Replied)];
    }
    assert c3.calls == c.calls + [Fetch("")];
    var c4 := Exec(c3, Deliver(k, Replied), s, hash);
    assert c4.calls[..k] == c.calls;
    RunLast(c, events, Deliver(k, Replied), s, hash);
    events := events + [Deliver(k, Replied)];
  }

  /** Calls that were not there before use the whole allowance. */
  lemma {:induction false} TryOften(c: Config, n: nat, s: Settings, hash: string -> string) returns (events: seq<Event>)
    requires Tried(c, n) && n <= s.max && s.ttl > 0
    ensures NoGenerate(events)
    ensures var c' := Run(c, events, s, hash);
            Tried(c', s.max) && |c'.calls| >= |c.calls| && c'.calls[..|c.calls|] == c.calls
    decreases s.max - n
  {
    hide Tried, Exec;
    events := [];
    if n < s.max {
      var first := TryOnce(c, n, s, hash);
      var c1 := Run(c, first, s, hash);
      var rest := TryOften(c1, n + 1, s, hash);
      RunSplits(c, first, rest, s, hash);
      var c2 := Run(c1, rest, s, hash);
      assert c2.calls[..|c.calls|] == c2.calls[..|c1.calls|][..|c.calls|];
      events := first + rest;
    }
  }

  /** A call in flight compares, whatever has been counted since. */
  lemma OneInFlightCompares(c: Config, k: nat, s: Settings, hash: string -> string) returns (events: seq<Event>)
    requires k < |c.calls| && Flying(s, c.calls[k]) && CodeAlive(c.pair, c.now)
    ensures NoGenerate(events)
    ensures Run(c, events, s, hash).books.compared == c.books.compared + 1
  {
    hide InFlight;
    var e := Deliver(k, Replied);
    events := [];
    var c1 := c;
    if c.calls[k].SetExpiry? {
      c1 := Exec(c, e, s, hash);
      RunLast(c, [], e, s, hash);
      events := [] + [e];
    }
    assert c1.calls[k].Fetch? && CodeAlive(c1.pair, c1.now) && c1.books.compared == c.books.compared;
    RunLast(c, events, e, s, hash);
    events := events + [e];
  }

  lemma NeverPastTheBound(c: Config, events: seq<Event>, s: Settings, hash: string -> string)
    requires Guarded(c, s) && NoGenerate(events)
    ensures Run(c, events, s, hash).books.compared <= s.max + c.books.overtaken
    decreases |events|
  {
    hide Guarded, Exec, InFlight;
    RunGuarded(c, events, s, hash);
    OvertakenStays(c, events, s, hash);
    GuardedBounds(Run(c, events, s, hash), s);
  }

  lemma GuardedBounds(c: Config, s: Settings)
    requires Guarded(c, s)
    ensures c.books.compared <= s.max + c.books.overtaken
  {
  }

  lemma {:induction false} OvertakenStays(c: Config, events: seq<Event>, s: Settings, hash: string -> string)
    requires NoGenerate(events)
    ensures Run(c, events, s, hash).books.overtaken == c.books.overtaken
    decreases |events|
  {
    hide InFlight, Step;
    if events != [] {
      assert !events[0].Generate?;
      OvertakenStays(Exec(c, events[0], s, hash), events[1..], s, hash);
    }
  }

  /** After a Generate, and until the next, the code can be compared more than `max` times if and only if
      some call stood between its count and its comparison when the Generate came. */
  lemma ComparedTooOftenExactly(c: Config, newHash: string, s: Settings, hash: string -> string)
    requires Guarded(c, s) && s.ttl > 0
    ensures var c1 := Exec(c, Generate(newHash), s, hash);
            (exists events :: NoGenerate(events) && Run(c1, events, s, hash).books.compared > s.max)
            <==> InFlight(s, c.calls) > 0
  {
    var c1 := Exec(c, Generate(newHash), s, hash);
    ExecGuarded(c, Generate(newHash), s, hash);
    NobodyInFlight(s, c.calls);
    assert Tried(c1, 0) && c1.calls == c.calls && c1.books.overtaken == InFlight(s, c.calls);
    hide Run, Guarded, InFlight, Exec;
    if k :| 0 <= k < |c.calls| && Flying(s, c.calls[k]) {
      var often := TryOften(c1, 0, s, hash);
      var c2 := Run(c1, often, s, hash);
      assert c2.calls[k] == c2.calls[..|c.calls|][k];
      var once := OneInFlightCompares(c2, k, s, hash);
      RunSplits(c1, often, once, s, hash);
      assert NoGenerate(often + once);
    } else {
      forall events: seq<Event> | NoGenerate(events)
        ensures Run(c1, events, s, hash).books.compared <= s.max
      {
        NeverPastTheBound(c1, events, s, hash);
      }
    }
  }

  /** It happens: from an empty database, whenever codes live and may be tried at all. */
  lemma ComparedTooOften(s: Settings, hash: string -> string) returns (events: seq<Event>)
    requires s.ttl > 0 && s.max > 0
    ensures Run(EMPTY, events, s, hash).books.compared > s.max
  {
    var c1 := Exec(EMPTY, Begin(""), s, hash);
    var c2 := Exec(c1, Deliver(0, Replied), s, hash);
    assert c2.calls == [SetExpiry(1, "")];
    RunLast(EMPTY, [], Begin(""), s, hash);
    RunLast(EMPTY, [] + [Begin("")], Deliver(0, Replied), s, hash);
    var counted := [] + [Begin("")] + [Deliver(0, Replied)];
    NobodyInFlight(s, c2.calls);
    assert Flying(s, c2.calls[0]);
    RunGuarded(EMPTY, counted, s, hash);
    ComparedTooOftenExactly(c2, "", s, hash);
    hide Run, Guarded, InFlight, Exec;
    var c3 := Exec(c2, Generate(""), s, hash);
    var rest :| NoGenerate(rest) && Run(c3, rest, s, hash).books.compared > s.max;
    RunLast(EMPTY, counted, Generate(""), s, hash);
    RunSplits(EMPTY, counted + [Generate("")], rest, s, hash);
    events := counted + [Generate("")] + rest;
  }

  /** Two calls compare the same code, the one having overtaken a Generate, and both are accepted. */
  lemma AcceptedTwice(guess: string, s: Settings, hash: string -> string) returns (events: seq<Event>)
    requires s.ttl > 0 && s.max > 0
    ensures Run(EMPTY, events, s, hash).books.successes == 2
  {
    hide InFlight;
    var d0, d1 := Deliver(0, Replied), Deliver(1, Replied);
    var c1 := Exec(EMPTY, Begin(guess), s, hash);
    var c2 := Exec(c1, d0, s, hash);
    assert c2.calls == [SetExpiry(1, guess)];
    var c3 := Exec(c2, d0, s, hash);
    assert c3.calls == [Fetch(guess)];
    var c4 := Exec(c3, Generate(hash(guess)), s, hash);
    var c5 := Exec(c4, Begin(guess), s, hash);
    var c6 := Exec(c5, d1, s, hash);
    assert c6.calls == [Fetch(guess), SetExpiry(1, guess)];
    var c7 := Exec(c6, d1, s, hash);
    assert c7.calls == [Fetch(guess), Fetch(guess)] && c7.books.successes == 0 && CodeAlive(c7.pair, c7.now);
    hide Exec;
    OverlapAcceptsTwice(c7, 0, 1, s, hash);
    var rest :| NoGenerate(rest) && Run(c7, rest, s, hash).books.successes == 2;
    RunFirst(c6, d1, rest, s, hash);
    RunFirst(c5, d1, [d1] + rest, s, hash);
    RunFirst(c4, Begin(guess), [d1] + ([d1] + rest), s, hash);
    RunFirst(c3, Generate(hash(guess)), [Begin(guess)] + ([d1] + ([d1] + rest)), s, hash);
    var later := [Generate(hash(guess))] + ([Begin(guess)] + ([d1] + ([d1] + rest)));
    RunFirst(c2, d0, later, s, hash);
    RunFirst(c1, d0, [d0] + later, s, hash);
    RunFirst(EMPTY, Begin(guess), [d0] + ([d0] + later), s, hash);
    events := [Begin(guess)] + ([d0] + ([d0] + later));
  }
}
