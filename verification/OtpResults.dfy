/** What Verify answers, read off the two keys and the guess. */
module OtpResults {
  import opened Common
  import opened OtpMachine
  import opened OtpStore
  import opened OtpTheorems

  // ---- One call

  /** Which attempt this one is: the live counter's next, or the first. */
  function Attempt(p: Pair, now: nat): nat {
    if CounterAlive(p, now) then p.attempts.value.n + 1 else 1
  }

  predicate Matches(p: Pair, guess: string, hash: string -> string, now: nat) {
    CodeAlive(p, now) && p.code.value.hash == hash(guess)
  }

  /** The result of a Verify, whichever replies are lost: a call that does not hear of its count, or of the
      code once its count let it ask, fails; a count above the limit locks out; otherwise the code decides. */
  lemma VerifyAnswersExactly(p: Pair, guess: string, s: Settings, hash: string -> string, now: nat,
      replies: Command -> Delivery)
    ensures var n := Attempt(p, now);
            var r := VerifyAlone(p, CountAttempt(guess), s, hash, now, replies).1;
            var counted := replies(IncrAttempts) == Replied;
            var fetched := counted && n <= s.max && replies(GetCode) == Replied;
            && (r == TooManyTries <==> counted && n > s.max)
            && (r == Verified <==> fetched && Matches(p, guess, hash, now))
            && (r == Mismatch <==> fetched && CodeAlive(p, now) && !Matches(p, guess, hash, now))
            && (r == NotFound <==> fetched && !CodeAlive(p, now))
            && (r == Failed <==> !counted || (n <= s.max && replies(GetCode) != Replied))
  {
    var n := Attempt(p, now);
    var p1 := Outcome(p, Incr(p, now), replies(IncrAttempts));
    Onward(p, CountAttempt(guess), s, hash, now, replies);
    if replies(IncrAttempts) != Replied {
      Over(p1, Failed, s, hash, now, replies);
    } else if n == 1 {
      Onward(p1, SetExpiry(1, guess), s, hash, now, replies);
      CountedAnswers(Outcome(p1, Expire(p1, s, now), replies(ExpireAttempts)), 1, guess, s, hash, now, replies);
    } else {
      CountedAnswers(p1, n, guess, s, hash, now, replies);
    }
    hide VerifyAlone;
  }

  lemma CountedAnswers(p: Pair, n: nat, guess: string, s: Settings, hash: string -> string, now: nat,
      replies: Command -> Delivery)
    ensures var r := VerifyAlone(p, AfterCount(s, n, guess), s, hash, now, replies).1;
            r == if n > s.max then TooManyTries
                 else if replies(GetCode) != Replied then Failed
                 else if !CodeAlive(p, now) then NotFound
                 else if Matches(p, guess, hash, now) then Verified else Mismatch
    ensures VerifyAlone(p, AfterCount(s, n, guess), s, hash, now, replies).0
            == if (n > s.max && replies(DelLocked) != LostBefore)
                  || (n <= s.max && replies(GetCode) == Replied && Matches(p, guess, hash, now)
                      && replies(DelVerified) != LostBefore)
               then Pair(None, None) else p
  {
    if n > s.max {
      Onward(p, LockOut, s, hash, now, replies);
      Over(Outcome(p, Del(p), replies(DelLocked)), TooManyTries, s, hash, now, replies);
    } else {
      Onward(p, Fetch(guess), s, hash, now, replies);
      if replies(GetCode) == Replied && Matches(p, guess, hash, now) {
        Onward(p, DropKeys, s, hash, now, replies);
        Over(Outcome(p, Del(p), replies(DelVerified)), Verified, s, hash, now, replies);
      } else {
        Over(p, Step(p, Fetch(guess), s, hash, now, replies(GetCode)).1.result, s, hash, now, replies);
      }
    }
    hide VerifyAlone;
  }

  /** The counter after a count that took effect: a first attempt gives it a lifetime, if that request does. */
  function Counted(p: Pair, s: Settings, now: nat, replies: Command -> Delivery): Counter {
    var until := if CounterAlive(p, now) then p.attempts.value.until else None;
    var expires := Attempt(p, now) == 1 && replies(IncrAttempts) == Replied && replies(ExpireAttempts) != LostBefore;
    Counter(Attempt(p, now), if expires then Some(now + s.ttl) else until)
  }

  /** What a Verify leaves: both keys go after a match and after a lock-out, if the DEL takes effect; otherwise
      the code stays and only the counter changes. */
  lemma VerifyLeavesExactly(p: Pair, guess: string, s: Settings, hash: string -> string, now: nat,
      replies: Command -> Delivery)
    ensures var (p', r) := VerifyAlone(p, CountAttempt(guess), s, hash, now, replies);
            p' == if (r == Verified && replies(DelVerified) != LostBefore)
                     || (r == TooManyTries && replies(DelLocked) != LostBefore) then Pair(None, None)
                  else if replies(IncrAttempts) == LostBefore then p
                  else Pair(p.code, Some(Counted(p, s, now, replies)))
  {
    var n := Attempt(p, now);
    var p1 := Outcome(p, Incr(p, now), replies(IncrAttempts));
    Onward(p, CountAttempt(guess), s, hash, now, replies);
    if replies(IncrAttempts) != Replied {
      Over(p1, Failed, s, hash, now, replies);
    } else if n == 1 {
      Onward(p1, SetExpiry(1, guess), s, hash, now, replies);
      var p2 := Outcome(p1, Expire(p1, s, now), replies(ExpireAttempts));
      CountedAnswers(p2, 1, guess, s, hash, now, replies);
      assert CounterAlive(p1, now);
    } else {
      CountedAnswers(p1, n, guess, s, hash, now, replies);
    }
    hide VerifyAlone;
  }

  // ---- A code from its Generate to its use

  /** A guess and the time it is made. */
  datatype Guess = Guess(code: string, at: nat)

  function Clean(c: Command): Delivery { Replied }

  /** Verify calls one after the other, every reply heard. */
  function Guesses(p: Pair, guesses: seq<Guess>, s: Settings, hash: string -> string): Pair {
    if guesses == [] then p
    else
      var g := guesses[|guesses| - 1];
      VerifyAlone(Guesses(p, guesses[..|guesses| - 1], s, hash), CountAttempt(g.code), s, hash, g.at, Clean).0
  }

  /** All are wrong, and none is made before the one it follows. */
  predicate WrongInOrder(guesses: seq<Guess>, code: string, from: nat, hash: string -> string) {
    && (forall i :: 0 <= i < |guesses| ==> hash(guesses[i].code) != hash(code) && from <= guesses[i].at)
    && (forall i, j :: 0 <= i < j < |guesses| ==> guesses[i].at <= guesses[j].at)
  }

  /** After `n` wrong guesses, as long as the code issued at `from` would live. */
  predicate AfterWrong(p: Pair, n: nat, code: string, from: nat, now: nat, s: Settings, hash: string -> string) {
    && (p.code.Some? ==> p.code.value == Code(hash(code), from + s.ttl))
    && (now < from + s.ttl ==>
          && (n <= s.max <==> p.code.Some?)
          && (n == 0 ==> p.attempts.None?)
          && (0 < n <= s.max ==>
                p.attempts.Some? && p.attempts.value.n == n && p.attempts.value.until.Some?
                && p.attempts.value.until.value >= from + s.ttl))
  }

  lemma OneWrong(p: Pair, n: nat, g: Guess, code: string, from: nat, s: Settings, hash: string -> string)
    requires AfterWrong(p, n, code, from, g.at, s, hash) && from <= g.at && hash(g.code) != hash(code)
    ensures AfterWrong(VerifyAlone(p, CountAttempt(g.code), s, hash, g.at, Clean).0, n + 1, code, from, g.at, s, hash)
  {
    VerifyAnswersExactly(p, g.code, s, hash, g.at, Clean);
    VerifyLeavesExactly(p, g.code, s, hash, g.at, Clean);
    hide VerifyAlone;
  }

  /** Nothing happens between two guesses, except that time passes. */
  lemma TimePasses(p: Pair, n: nat, code: string, from: nat, earlier: nat, now: nat, s: Settings,
      hash: string -> string)
    requires AfterWrong(p, n, code, from, earlier, s, hash) && earlier <= now
    ensures AfterWrong(p, n, code, from, now, s, hash)
  {
  }

  lemma {:induction false} AllWrong(prior: Pair, guesses: seq<Guess>, code: string, from: nat, now: nat, s: Settings,
      hash: string -> string)
    requires WrongInOrder(guesses, code, from, hash) && forall i :: 0 <= i < |guesses| ==> guesses[i].at <= now
    ensures var p := Guesses(Issue(prior, hash(code), s, from), guesses, s, hash);
            AfterWrong(p, |guesses|, code, from, now, s, hash)
    decreases |guesses|
  {
    hide VerifyAlone, AfterWrong;
    if guesses == [] {
      JustIssued(prior, code, from, now, s, hash);
    } else {
      var g := guesses[|guesses| - 1];
      var before := guesses[..|guesses| - 1];
      AllWrong(prior, before, code, from, g.at, s, hash);
      var p := Guesses(Issue(prior, hash(code), s, from), before, s, hash);
      var p' := VerifyAlone(p, CountAttempt(g.code), s, hash, g.at, Clean).0;
      OneWrong(p, |before|, g, code, from, s, hash);
      TimePasses(p', |guesses|, code, from, g.at, now, s, hash);
    }
  }

  lemma JustIssued(prior: Pair, code: string, from: nat, now: nat, s: Settings, hash: string -> string)
    ensures AfterWrong(Issue(prior, hash(code), s, from), 0, code, from, now, s, hash)
  {
  }

  /** A code that was issued and then guessed wrongly any number of times, by calls that follow one another
      and are answered, is accepted if and only if it has not expired and fewer wrong guesses were made than
      the limit allows. */
  lemma IssuedCodeVerifiesExactly(prior: Pair, wrong: seq<Guess>, code: string, from: nat, now: nat, s: Settings,
      hash: string -> string)
    requires WrongInOrder(wrong, code, from, hash) && from <= now
    requires forall i :: 0 <= i < |wrong| ==> wrong[i].at <= now
    ensures var p := Guesses(Issue(prior, hash(code), s, from), wrong, s, hash);
            VerifyAlone(p, CountAttempt(code), s, hash, now, Clean).1 == Verified
            <==> now < from + s.ttl && |wrong| < s.max
  {
    hide VerifyAlone, Guesses;
    var p := Guesses(Issue(prior, hash(code), s, from), wrong, s, hash);
    AllWrong(prior, wrong, code, from, now, s, hash);
    VerifyAnswersExactly(p, code, s, hash, now, Clean);
  }

  // ---- Every interleaving: what a Verified stands for

  /** The guesses of the calls that have begun, in the order they began. */
  function Begun(events: seq<Event>): seq<string> {
    if events == [] then []
    else
      var e := events[|events| - 1];
      Begun(events[..|events| - 1]) + (if e.Begin? then [e.guess] else [])
  }

  /** Event i compares call k's guess with a live code, and they match. */
  predicate MatchedAt(events: seq<Event>, i: nat, k: nat, guess: string, s: Settings, hash: string -> string)
    requires i < |events|
  {
    events[i] == Deliver(k, Replied) && Matches(Run(EMPTY, events[..i], s, hash).pair, guess, hash,
                                                Run(EMPTY, events[..i], s, hash).now)
  }

  predicate HasGuess(stage: Stage, guess: string) {
    match stage
    case CountAttempt(g) => g == guess
    case SetExpiry(_, g) => g == guess
    case Fetch(g) => g == guess
    case _ => true
  }

  /** Every call still holds the guess it began with. */
  predicate HoldGuesses(c: Config, begun: seq<string>) {
    |c.calls| == |begun| && forall k :: 0 <= k < |begun| ==> HasGuess(c.calls[k], begun[k])
  }

  lemma ExecHoldsGuesses(c: Config, e: Event, begun: seq<string>, s: Settings, hash: string -> string)
    requires HoldGuesses(c, begun)
    ensures HoldGuesses(Exec(c, e, s, hash), begun + (if e.Begin? then [e.guess] else []))
  {
    hide InFlight;
    if e.Deliver? && e.k < |c.calls| {
      assert HasGuess(c.calls[e.k], begun[e.k]);
    }
  }

  lemma {:induction false} RunHoldsGuesses(events: seq<Event>, s: Settings, hash: string -> string)
    ensures HoldGuesses(Run(EMPTY, events, s, hash), Begun(events))
    decreases |events|
  {
    hide Exec;
    if events != [] {
      var before, e := events[..|events| - 1], events[|events| - 1];
      assert events == before + [e];
      RunHoldsGuesses(before, s, hash);
      RunLast(EMPTY, before, e, s, hash);
      ExecHoldsGuesses(Run(EMPTY, before, s, hash), e, Begun(before), s, hash);
      hide HoldGuesses;
    }
  }

  /** A call comes to stand past its comparison only by comparing, and matching. */
  lemma OnlyMatchesPass(c: Config, e: Event, k: nat, guess: string, s: Settings, hash: string -> string)
    requires k < |c.calls| && HasGuess(c.calls[k], guess)
    requires Exec(c, e, s, hash).calls[k] in {DropKeys, Done(Verified)} && c.calls[k] !in {DropKeys, Done(Verified)}
    ensures e == Deliver(k, Replied) && Matches(c.pair, guess, hash, c.now)
  {
    hide InFlight;
  }

  lemma NotYetBegun(c: Config, e: Event, k: nat, s: Settings, hash: string -> string)
    requires |c.calls| <= k < |Exec(c, e, s, hash).calls|
    ensures Exec(c, e, s, hash).calls[k] !in {DropKeys, Done(Verified)}
  {
    hide InFlight;
  }

  lemma {:induction false} PastMeansMatched(events: seq<Event>, k: nat, s: Settings, hash: string -> string)
    requires k < |Run(EMPTY, events, s, hash).calls| && k < |Begun(events)|
    requires Run(EMPTY, events, s, hash).calls[k] in {DropKeys, Done(Verified)}
    ensures exists i :: 0 <= i < |events| && MatchedAt(events, i, k, Begun(events)[k], s, hash)
    decreases |events|
  {
    hide Exec, Matches, HasGuess;
    var before, e := events[..|events| - 1], events[|events| - 1];
    assert events == before + [e];
    RunLast(EMPTY, before, e, s, hash);
    RunHoldsGuesses(before, s, hash);
    var c := Run(EMPTY, before, s, hash);
    if k >= |c.calls| {
      NotYetBegun(c, e, k, s, hash);
    } else if c.calls[k] in {DropKeys, Done(Verified)} {
      PastMeansMatched(before, k, s, hash);
      var i :| 0 <= i < |before| && MatchedAt(before, i, k, Begun(before)[k], s, hash);
      assert events[..i] == before[..i];
      assert MatchedAt(events, i, k, Begun(events)[k], s, hash);
    } else {
      OnlyMatchesPass(c, e, k, Begun(before)[k], s, hash);
      assert MatchedAt(events, |before|, k, Begun(events)[k], s, hash);
    }
  }

  /** However calls interleave, crash, lose replies or let time pass: a call has answered Verified only if, at
      some point of the run, its own guess was compared with a live code and was the code. */
  lemma VerifiedMeansMatched(events: seq<Event>, k: nat, s: Settings, hash: string -> string)
    requires k < |Run(EMPTY, events, s, hash).calls| && Run(EMPTY, events, s, hash).calls[k] == Done(Verified)
    ensures k < |Begun(events)|
    ensures exists i :: 0 <= i < |events| && MatchedAt(events, i, k, Begun(events)[k], s, hash)
  {
    RunHoldsGuesses(events, s, hash);
    PastMeansMatched(events, k, s, hash);
  }

  /** The event makes some call answer Verified. */
  predicate Accepts(c: Config, e: Event, s: Settings, hash: string -> string) {
    && e.Deliver? && e.k < |c.calls|
    && c.calls[e.k] != Done(Verified) && Exec(c, e, s, hash).calls[e.k] == Done(Verified)
  }

  /** How often a call answers Verified along a run. */
  function Acceptances(c: Config, events: seq<Event>, s: Settings, hash: string -> string): nat
    decreases |events|
  {
    if events == [] then 0
    else
      (if Accepts(c, events[0], s, hash) then 1 else 0)
      + Acceptances(Exec(c, events[0], s, hash), events[1..], s, hash)
  }

  lemma SuccessIsAcceptance(c: Config, e: Event, s: Settings, hash: string -> string)
    requires !e.Generate?
    ensures Exec(c, e, s, hash).books.successes == c.books.successes + (if Accepts(c, e, s, hash) then 1 else 0)
  {
    hide InFlight;
  }

  /** What the other theorems count as successes are the calls that answer Verified. */
  lemma {:induction false} SuccessesAreAcceptances(c: Config, events: seq<Event>, s: Settings, hash: string -> string)
    requires NoGenerate(events)
    ensures Run(c, events, s, hash).books.successes == c.books.successes + Acceptances(c, events, s, hash)
    decreases |events|
  {
    hide Exec, Accepts;
    if events != [] {
      SuccessIsAcceptance(c, events[0], s, hash);
      SuccessesAreAcceptances(Exec(c, events[0], s, hash), events[1..], s, hash);
    }
  }
}
