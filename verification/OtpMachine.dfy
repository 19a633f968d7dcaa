/** One-time passwords: a code and an attempt counter, two expiring Redis keys shared by any number of
    concurrent Verify calls. */
module OtpMachine {
  import opened Common

  /** How long a code lives and how often it may be tried. */
  datatype Settings = Settings(ttl: nat, max: nat)

  datatype Code = Code(hash: string, until: nat)

  /** A counter that was never given an expiry lives on. */
  datatype Counter = Counter(n: nat, until: Option<nat>)

  /** The two keys of one identifier; an expired key is as good as gone. */
  datatype Pair = Pair(code: Option<Code>, attempts: Option<Counter>)

  predicate CodeAlive(p: Pair, now: nat) { p.code.Some? && now < p.code.value.until }

  predicate CounterAlive(p: Pair, now: nat) {
    p.attempts.Some? && (p.attempts.value.until.None? || now < p.attempts.value.until.value)
  }

  // ---- The Redis commands

  /** MULTI; SET code ... EX ttl; DEL attempts; EXEC. */
  function Issue(p: Pair, hash: string, s: Settings, now: nat): Pair {
    Pair(Some(Code(hash, now + s.ttl)), None)
  }

  /** INCR keeps a live counter's expiry and starts a new one without. */
  function Incr(p: Pair, now: nat): Pair {
    p.(attempts := Some(if CounterAlive(p, now) then p.attempts.value.(n := p.attempts.value.n + 1)
      else Counter(1, None)))
  }

  function Expire(p: Pair, s: Settings, now: nat): Pair {
    if CounterAlive(p, now) then p.(attempts := Some(p.attempts.value.(until := Some(now + s.ttl)))) else p
  }

  /** DEL of both keys is one step. */
  function Del(p: Pair): Pair { Pair(None, None) }

  function Outcome(before: Pair, after: Pair, d: Delivery): Pair {
    if d == LostBefore then before else after
  }

  // ---- A Verify call between two commands

  datatype Result = Verified | NotFound | Mismatch | TooManyTries | Failed

  datatype Stage =
    | CountAttempt(guess: string)
    | SetExpiry(n: nat, guess: string)
    | LockOut
    | Fetch(guess: string)
    | DropKeys
    | Done(result: Result)

  function AfterCount(s: Settings, n: nat, guess: string): Stage {
    if n > s.max then LockOut else Fetch(guess)
  }

  /** `hash` stands for the hex digest of SHA-256. */
  function Step(p: Pair, stage: Stage, s: Settings, hash: string -> string, now: nat, d: Delivery): (Pair, Stage) {
    match stage
    case CountAttempt(guess) =>
      var n := Incr(p, now).attempts.value.n;
      (Outcome(p, Incr(p, now), d),
       if d != Replied then Done(Failed) else if n == 1 then SetExpiry(n, guess) else AfterCount(s, n, guess))
    case SetExpiry(n, guess) => (Outcome(p, Expire(p, s, now), d), AfterCount(s, n, guess))
    case LockOut => (Outcome(p, Del(p), d), Done(TooManyTries))
    case Fetch(guess) =>
      (p, if d != Replied then Done(Failed)
          else if !CodeAlive(p, now) then Done(NotFound)
          else if p.code.value.hash == hash(guess) then DropKeys
          else Done(Mismatch))
    case DropKeys => (Outcome(p, Del(p), d), Done(Verified))
    case Done(_) => (p, stage)
  }

  /** The step compares the stored code with a guess. */
  predicate Compares(p: Pair, stage: Stage, now: nat, d: Delivery) {
    stage.Fetch? && d == Replied && CodeAlive(p, now)
  }

  // ---- Every interleaving

  /** Since the last Generate: how often the code was compared, how many calls it overtook between
      their count and their comparison, and how many have succeeded. */
  datatype Books = Books(compared: nat, overtaken: nat, successes: nat)

  datatype Config = Config(pair: Pair, now: nat, calls: seq<Stage>, books: Books)

  datatype Event =
    | Generate(hash: string)
    | Begin(guess: string)
    | Deliver(k: nat, delivery: Delivery)
    | Crash(k: nat)
    | Tick(elapsed: nat)

  /** The call has been counted and may still compare. */
  predicate Flying(s: Settings, stage: Stage) {
    match stage
    case SetExpiry(n, _) => n <= s.max
    case Fetch(_) => true
    case _ => false
  }

  function InFlight(s: Settings, calls: seq<Stage>): nat {
    if calls == [] then 0
    else InFlight(s, calls[..|calls| - 1]) + (if Flying(s, calls[|calls| - 1]) then 1 else 0)
  }

  function DeliverTo(c: Config, k: nat, d: Delivery, s: Settings, hash: string -> string): Config
    requires k < |c.calls|
  {
    var (pair, stage) := Step(c.pair, c.calls[k], s, hash, c.now, d);
    Config(pair, c.now, c.calls[k := stage],
           c.books.(compared := c.books.compared + (if Compares(c.pair, c.calls[k], c.now, d) then 1 else 0),
                    successes := c.books.successes + (if c.calls[k].DropKeys? then 1 else 0)))
  }

  function Exec(c: Config, e: Event, s: Settings, hash: string -> string): Config {
    match e
    case Generate(h) => c.(pair := Issue(c.pair, h, s, c.now), books := Books(0, InFlight(s, c.calls), 0))
    case Begin(guess) => c.(calls := c.calls + [CountAttempt(guess)])
    case Deliver(k, d) => if k < |c.calls| then DeliverTo(c, k, d, s, hash) else c
    case Crash(k) => if k < |c.calls| then c.(calls := c.calls[k := Done(Failed)]) else c
    case Tick(elapsed) => c.(now := c.now + elapsed)
  }

  function Run(c: Config, events: seq<Event>, s: Settings, hash: string -> string): Config
    decreases |events|
  {
    if events == [] then c else Run(Exec(c, events[0], s, hash), events[1..], s, hash)
  }

  const EMPTY: Config := Config(Pair(None, None), 0, [], Books(0, 0, 0))

  // ---- At most so many comparisons

  /** The attempts the live counter has counted, as far as they were let through. */
  function Granted(c: Config, s: Settings): nat {
    if !CounterAlive(c.pair, c.now) then 0
    else if c.pair.attempts.value.n <= s.max then c.pair.attempts.value.n else s.max
  }

  /** The counter never expires before the code, and every comparison was counted by it or overtaken. */
  predicate Guarded(c: Config, s: Settings) {
    && c.books.compared <= s.max + c.books.overtaken
    && (CodeAlive(c.pair, c.now) ==>
          && c.pair.code.value.until <= c.now + s.ttl
          && (c.pair.attempts.Some? && c.pair.attempts.value.until.Some? ==>
                c.pair.code.value.until <= c.pair.attempts.value.until.value)
          && c.books.compared + InFlight(s, c.calls) <= Granted(c, s) + c.books.overtaken)
  }

  lemma {:induction false} InFlightUpdate(s: Settings, calls: seq<Stage>, k: nat, stage: Stage)
    requires k < |calls|
    ensures InFlight(s, calls[k := stage])
            == InFlight(s, calls) - (if Flying(s, calls[k]) then 1 else 0) + (if Flying(s, stage) then 1 else 0)
  {
    var n := |calls| - 1;
    if k < n {
      InFlightUpdate(s, calls[..n], k, stage);
      assert calls[k := stage][..n] == calls[..n][k := stage];
    } else {
      assert calls[k := stage][..n] == calls[..n];
    }
  }

  lemma InFlightAppend(s: Settings, calls: seq<Stage>, stage: Stage)
    ensures InFlight(s, calls + [stage]) == InFlight(s, calls) + (if Flying(s, stage) then 1 else 0)
  {
    assert (calls + [stage])[..|calls|] == calls;
  }

  lemma DeliverGuarded(c: Config, k: nat, d: Delivery, s: Settings, hash: string -> string)
    requires Guarded(c, s) && k < |c.calls|
    ensures Guarded(DeliverTo(c, k, d, s, hash), s)
  {
    InFlightUpdate(s, c.calls, k, Step(c.pair, c.calls[k], s, hash, c.now, d).1);
    hide InFlight;
  }

  lemma ExecGuarded(c: Config, e: Event, s: Settings, hash: string -> string)
    requires Guarded(c, s)
    ensures Guarded(Exec(c, e, s, hash), s)
  {
    match e
    case Deliver(k, d) =>
      if k < |c.calls| {
        DeliverGuarded(c, k, d, s, hash);
      }
    case Begin(guess) => InFlightAppend(s, c.calls, CountAttempt(guess));
    case Crash(k) =>
      if k < |c.calls| {
        InFlightUpdate(s, c.calls, k, Done(Failed));
      }
    case _ =>
    hide InFlight;
  }

  lemma {:induction false} RunGuarded(c: Config, events: seq<Event>, s: Settings, hash: string -> string)
    requires Guarded(c, s)
    ensures Guarded(Run(c, events, s, hash), s)
    decreases |events|
  {
    hide Guarded, Exec;
    if events != [] {
      ExecGuarded(c, events[0], s, hash);
      RunGuarded(Exec(c, events[0], s, hash), events[1..], s, hash);
    }
  }

  /** However calls interleave, crash, lose replies or let time pass: between two Generates the code is
      compared at most `max` times, and once more for each call the Generate overtook between its
      count and its comparison. */
  lemma ComparedAtMost(events: seq<Event>, s: Settings, hash: string -> string)
    ensures var b := Run(EMPTY, events, s, hash).books; b.compared <= s.max + b.overtaken
  {
    hide Exec, InFlight;
    RunGuarded(EMPTY, events, s, hash);
  }
}
