/** Vocabulary shared by every component: 64-bit integers, lost replies and task outcomes. */
module Common {

  datatype Option<+T> = None | Some(value: T)

  /** A random (version 4) uuid, as a number. */
  type Id = nat

  const INT64_MIN: int := -0x8000_0000_0000_0000
  const INT64_MAX: int := 0x7FFF_FFFF_FFFF_FFFF

  type Int64 = x: int | INT64_MIN <= x <= INT64_MAX

  /** Two's complement truncation to 64 bits. */
  function Wrap64(x: int): (r: Int64)
    ensures INT64_MIN <= x <= INT64_MAX ==> r == x
    ensures (r - x) % 0x1_0000_0000_0000_0000 == 0
  {
    var m := (x - INT64_MIN) % 0x1_0000_0000_0000_0000;
    assert m + INT64_MIN - x == -((x - INT64_MIN) / 0x1_0000_0000_0000_0000) * 0x1_0000_0000_0000_0000;
    m + INT64_MIN
  }

  /** An amount as an unsigned quantity. */
  function Units(amount: Int64): nat { if amount > 0 then amount else 0 }

  /** The status of a deposit intent or of a transfer; a transfer uses the first three. */
  datatype Status = PENDING | FAILED | SUCCESS | REFUNDING | REFUNDED

  /** A wallet row, as far as settling payments looks at it. */
  datatype Wallet = Wallet(currency: string, active: bool)

  /** What became of one call to Postgres, to TigerBeetle or to the payment provider. */
  datatype Delivery =
    | Replied     // it took effect and the reply arrived
    | LostBefore  // it failed before taking effect
    | LostAfter   // it took effect, but the caller was told it failed

  /** What a task handler returns; the queue tells these four apart. */
  datatype TaskError = Ok | SkipRetry | RetryLater | Transient

  function Lower(c: char): char {
    if 'A' <= c <= 'Z' then c - 'A' + 'a' else c
  }

  /** Case-insensitive comparison, for the ASCII strings currency codes are. */
  predicate EqualFold(a: string, b: string) {
    |a| == |b| && forall i :: 0 <= i < |a| ==> Lower(a[i]) == Lower(b[i])
  }
}
