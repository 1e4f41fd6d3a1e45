/** Types shared by every component of the wallet engine model. */
module Basics {
  const U64_MAX: int := 0xFFFF_FFFF_FFFF_FFFF

  type u64 = x: int | 0 <= x <= 0xFFFF_FFFF_FFFF_FFFF

  datatype Option<+T> = None | Some(value: T)
  {
    function GetOr(default: T): T {
      if Some? then value else default
    }
  }

  datatype Result<+T, +E> = Success(value: T) | Failure(error: E)

  /** `u64::saturating_add`. */
  function SaturatingAdd(a: u64, b: u64): (r: u64)
    ensures r as int == a + b || (r == U64_MAX && a + b > U64_MAX)
  {
    if a + b > U64_MAX then U64_MAX else a + b
  }

  /** `u64::checked_add(1)`. */
  function CheckedIncrement(a: u64): (r: Option<u64>)
    ensures r.None? <==> a == U64_MAX
    ensures r.Some? ==> r.value == a + 1
  {
    if a == U64_MAX then None else Some(a + 1)
  }

  /** The order of strings: by their first difference, a prefix first. */
  predicate IdLess(a: string, b: string) {
    b != [] && (a == [] || a[0] < b[0] || (a[0] == b[0] && IdLess(a[1..], b[1..])))
  }

  lemma {:induction false} IdLessOrders(a: string, b: string, c: string)
    ensures !IdLess(a, a)
    ensures IdLess(a, b) && IdLess(b, c) ==> IdLess(a, c)
    ensures a != b ==> IdLess(a, b) || IdLess(b, a)
    decreases |a| + |b| + |c|
  {
    var t := (s: string) => if s == [] then [] else s[1..];
    if a != [] || b != [] || c != [] {
      IdLessOrders(t(a), t(b), t(c));
    }
    if a != [] && b != [] && a[0] == b[0] && a[1..] == b[1..] {
      assert a == [a[0]] + a[1..] && b == [b[0]] + b[1..];
    }
  }
}
