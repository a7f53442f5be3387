/** The id generator (`generateId` of the provider utilities) is injected as a
    counter: the n-th id a stream asks for is `GeneratedId(n)`. The model promises
    only what callers rely on: every generated id is non-empty and different
    counters give different ids. */
module Ids {

  function Digit(d: nat): (c: char)
    requires d < 10
  {
    (48 + d) as char
  }

  /** The decimal rendering of `n`, most significant digit first. */
  function Decimal(n: nat): (s: string)
    ensures |s| >= 1
    ensures n < 10 <==> |s| == 1
    decreases n
  {
    if n < 10 then [Digit(n)] else Decimal(n / 10) + [Digit(n % 10)]
  }

  /** The id handed out for the n-th request of a stream. */
  function GeneratedId(n: nat): (id: string)
    ensures |id| > 3 && id[..3] == "id-"
  {
    "id-" + Decimal(n)
  }

  lemma {:induction false} DecimalInjective(a: nat, b: nat)
    requires Decimal(a) == Decimal(b)
    ensures a == b
    decreases a
  {
    if a >= 10 {
      var sa, sb := Decimal(a), Decimal(b);
      assert |sb| > 1;
      assert sa[..|sa| - 1] == Decimal(a / 10);
      assert sb[..|sb| - 1] == Decimal(b / 10);
      DecimalInjective(a / 10, b / 10);
      assert Digit(a % 10) == sa[|sa| - 1] == Digit(b % 10);
    } else {
      assert Digit(a) == Decimal(b)[0] == Digit(b);
    }
  }

  /** Different counters give different ids: generated ids are fresh. */
  lemma GeneratedIdInjective(a: nat, b: nat)
    ensures GeneratedId(a) == GeneratedId(b) <==> a == b
  {
    if GeneratedId(a) == GeneratedId(b) {
      assert Decimal(a) == GeneratedId(a)[3..] == GeneratedId(b)[3..] == Decimal(b);
      DecimalInjective(a, b);
    }
  }
}
