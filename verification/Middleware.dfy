/** The queue middleware: what wraps a payment task's handler, in which order, and when its exhaustion
    hook runs. */
module Middleware {
  import opened Common

  /** A handler returns or panics. */
  datatype Outcome = Returned(error: TaskError) | Panicked

  /** What the queue library tells a handler of its retries, if it is running under one. */
  datatype Context = Context(retried: Option<nat>, maxRetry: Option<nat>)

  /** `S` is everything a handler may change. */
  type Handler<!S> = (S, Context) -> (S, Outcome)

  type Wrapper<!S> = Handler<S> -> Handler<S>

  type ExhaustedFunc<!S> = (S, Context, TaskError) -> S

  predicate IsFinalAttempt(ctx: Context, e: TaskError) {
    if e == Ok then false
    else if e == SkipRetry then true
    else if ctx.retried.None? || ctx.maxRetry.None? then false
    else ctx.retried.value >= ctx.maxRetry.value
  }

  /** A panic becomes an error. */
  function Recover<S>(): Wrapper<S> {
    (next: Handler<S>) => (s, ctx) =>
      var (s', o) := next(s, ctx);
      (s', if o.Panicked? then Returned(Transient) else o)
  }

  /** Reads the outcome and passes it on. */
  function Logging<S>(): Wrapper<S> {
    (next: Handler<S>) => (s, ctx) => next(s, ctx)
  }

  /** A panic from below goes straight through. */
  function OnRetriesExhausted<S>(fn: ExhaustedFunc<S>): Wrapper<S> {
    (next: Handler<S>) => (s, ctx) =>
      var (s', o) := next(s, ctx);
      if o.Returned? && o.error != Ok && o.error != SkipRetry && IsFinalAttempt(ctx, o.error)
      then (fn(s', ctx, o.error), o)
      else (s', o)
  }

  /** The first wrapper is the outermost. */
  function Wrapped<S>(h: Handler<S>, wrappers: seq<Wrapper<S>>): Handler<S> {
    if wrappers == [] then h else wrappers[0](Wrapped(h, wrappers[1..]))
  }

  method Chain<S>(handler: Handler<S>, wrappers: seq<Wrapper<S>>) returns (h: Handler<S>)
    ensures h == Wrapped(handler, wrappers)
  {
    h := handler;
    var i := |wrappers|;
    while i > 0
      invariant 0 <= i <= |wrappers|
      invariant h == Wrapped(handler, wrappers[i..])
    {
      i := i - 1;
      assert wrappers[i..][1..] == wrappers[i + 1..];
      h := wrappers[i](h);
    }
    assert wrappers[0..] == wrappers;
  }

  /** Every payment task is logged outside and recovered inside whatever else wraps it. */
  method handlePayment<S>(handler: Handler<S>, extra: seq<Wrapper<S>>) returns (h: Handler<S>)
    ensures h == Logging()(Wrapped(Recover()(handler), extra))
  {
    var chain := [Logging()] + extra;
    chain := chain + [Recover()];
    h := Chain(handler, chain);
    assert chain[1..] == extra + [Recover()];
    WrappedLast(handler, extra, Recover());
  }

  lemma {:induction false} WrappedLast<S>(h: Handler<S>, wrappers: seq<Wrapper<S>>, last: Wrapper<S>)
    ensures Wrapped(h, wrappers + [last]) == Wrapped(last(h), wrappers)
  {
    if wrappers == [] {
      assert ([last])[1..] == [] && wrappers + [last] == [last];
    } else {
      assert (wrappers + [last])[1..] == wrappers[1..] + [last];
      WrappedLast(h, wrappers[1..], last);
    }
  }

  /** The handler failed in a way the queue would retry. */
  predicate Failed(o: Outcome) {
    o.Panicked? || (o.error != Ok && o.error != SkipRetry)
  }

  predicate NoRetryLeft(ctx: Context) {
    ctx.retried.Some? && ctx.maxRetry.Some? && ctx.retried.value >= ctx.maxRetry.value
  }

  function ErrorOf(o: Outcome): TaskError {
    if o.Panicked? then Transient else o.error
  }

  /** A task wrapped as the payment worker wraps it never panics, returns its handler's error, and runs
      its hook, once and after the handler, exactly when an attempt that may not be retried again fails
      or panics. */
  lemma HookRunsExactly<S>(h: Handler<S>, fn: ExhaustedFunc<S>, s: S, ctx: Context)
    ensures var (s1, o) := h(s, ctx);
            Wrapped(h, [Logging(), OnRetriesExhausted(fn), Recover()])(s, ctx)
            == (if Failed(o) && NoRetryLeft(ctx) then fn(s1, ctx, ErrorOf(o)) else s1, Returned(ErrorOf(o)))
  {
    ThreeWrapped(h, Logging(), OnRetriesExhausted(fn), Recover());
  }

  /** The order matters: recovering outside the hook would let a panic on the last attempt past it. */
  lemma OtherOrderMissesPanics<S>(h: Handler<S>, fn: ExhaustedFunc<S>, s: S, ctx: Context)
    requires h(s, ctx).1.Panicked?
    ensures Wrapped(h, [Logging(), Recover(), OnRetriesExhausted(fn)])(s, ctx) == (h(s, ctx).0, Returned(Transient))
  {
    ThreeWrapped(h, Logging(), Recover(), OnRetriesExhausted(fn));
  }

  lemma ThreeWrapped<S>(h: Handler<S>, a: Wrapper<S>, b: Wrapper<S>, c: Wrapper<S>)
    ensures Wrapped(h, [a, b, c]) == a(b(c(h)))
  {
    assert [a, b, c][1..] == [b, c] && [b, c][1..] == [c] && [c][1..] == [];
    assert Wrapped(h, [c]) == c(Wrapped(h, []));
  }
}
