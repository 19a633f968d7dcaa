/** Finite sets leave something out. */
module Fresh {

  lemma {:induction false} SomeAbove(numbers: set<nat>) returns (above: nat)
    ensures forall n :: n in numbers ==> n < above
    decreases |numbers|
  {
    if numbers == {} {
      above := 0;
    } else {
      var n :| n in numbers;
      var rest := SomeAbove(numbers - {n});
      above := if rest > n then rest else n + 1;
      forall other | other in numbers
        ensures other < above
      {
        assert other == n || other in numbers - {n};
      }
    }
  }

  function Zeros(n: nat): (s: string)
    ensures |s| == n
  {
    if n == 0 then "" else "0" + Zeros(n - 1)
  }

  lemma UnusedString(used: set<string>) returns (unused: string)
    ensures unused !in used
  {
    var lengths := set s | s in used :: |s|;
    var n := SomeAbove(lengths);
    forall s | s in used
      ensures |s| < n
    {
      assert |s| in lengths;
    }
    unused := Zeros(n);
  }
}
