/** Small shared vocabulary: optional values, the way SQL columns may be NULL. */
module Basics {
  datatype Option<+T> = None | Some(value: T)

  /** A NULL or missing number counts as zero (`value or 0`). */
  function OrZero(o: Option<int>): int {
    match o
    case None => 0
    case Some(n) => n
  }

  /** A NULL or missing text counts as the empty string (`value or ""`). */
  function OrEmpty(o: Option<string>): string {
    match o
    case None => ""
    case Some(s) => s
  }

  /** The truth value Python gives an optional text: present and not empty. */
  predicate Present(o: Option<string>) {
    o.Some? && o.value != ""
  }

  function Max(a: int, b: int): int { if a < b then b else a }

  function Min(a: int, b: int): int { if a < b then a else b }

  function Abs(n: int): int { if n < 0 then -n else n }

  lemma {:induction false} HasLeast(s: set<int>)
    requires s != {}
    ensures exists m :: m in s && forall k :: k in s ==> m <= k
    decreases |s|
  {
    assert (forall k :: k !in s) ==> s == {};
    var some :| some in s;
    var rest := s - {some};
    if rest == {} {
      assert s == {some};
    } else {
      HasLeast(rest);
      var m :| m in rest && forall k :: k in rest ==> m <= k;
      var least := Min(m, some);
      forall k | k in s ensures least <= k { assert k == some || k in rest; }
      assert least in s;
    }
  }

  /** The smallest member of a set. */
  function LeastOf(s: set<int>): (m: int)
    requires s != {}
    ensures m in s && forall k :: k in s ==> m <= k
  {
    HasLeast(s);
    var m :| m in s && forall k :: k in s ==> m <= k;
    m
  }
}
