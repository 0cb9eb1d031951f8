/** Types and helpers shared by the models of the codec, the text utilities and the bulk importer. */
module Common {

  type byte = bv8

  /** The range of a C++ `uint32`. */
  const TWO_32: int := 0x1_0000_0000
  type u32 = x: int | 0 <= x < 0x1_0000_0000

  /** Unsigned 32-bit wrap-around, as C++ performs it on `uint32` arithmetic. */
  function Wrap32(x: int): u32
  {
    x % TWO_32
  }

  lemma WrapAddLeft(a: int, b: int)
    ensures Wrap32(Wrap32(a) + b) == Wrap32(a + b)
  {
    var q := a / TWO_32;
    assert a == q * TWO_32 + Wrap32(a);
    assert a + b == q * TWO_32 + (Wrap32(a) + b);
  }

  lemma WrapAddRight(a: int, b: int)
    ensures Wrap32(a + Wrap32(b)) == Wrap32(a + b)
  {
    WrapAddLeft(b, a);
  }

  datatype Option<+T> = None | Some(value: T)

  datatype Result<+R, +E> = Success(value: R) | Failure(error: E)

  datatype Outcome<+E> = Pass | Fail(error: E)

  /** Sum of a sequence of sizes, taken from the last element so that extending a prefix unfolds once. */
  function Sum(xs: seq<nat>): nat
  {
    if xs == [] then 0 else Sum(xs[..|xs| - 1]) + xs[|xs| - 1]
  }

  lemma SumExtend(xs: seq<nat>, i: nat)
    requires i < |xs|
    ensures Sum(xs[..i + 1]) == Sum(xs[..i]) + xs[i]
  {
    assert xs[..i + 1][..i] == xs[..i];
  }

  lemma SumWhole(xs: seq<nat>)
    ensures Sum(xs[..|xs|]) == Sum(xs)
  {
    assert xs[..|xs|] == xs;
  }

  /** Prefix sums never decrease. */
  lemma {:induction false} PrefixSumMonotone(xs: seq<nat>, i: nat, j: nat)
    requires i <= j <= |xs|
    ensures Sum(xs[..i]) <= Sum(xs[..j])
    decreases j - i
  {
    if i < j {
      PrefixSumMonotone(xs, i, j - 1);
      SumExtend(xs, j - 1);
    }
  }

  /** Every position below the total lies in the range of some element. */
  lemma {:induction false} PrefixSumsCover(xs: seq<nat>, p: nat)
    requires p < Sum(xs)
    ensures exists i :: 0 <= i < |xs| && Sum(xs[..i]) <= p < Sum(xs[..i]) + xs[i]
  {
    var n := |xs|;
    var init := xs[..n - 1];
    assert Sum(xs) == Sum(init) + xs[n - 1];
    if p < Sum(init) {
      PrefixSumsCover(init, p);
      var i :| 0 <= i < |init| && Sum(init[..i]) <= p < Sum(init[..i]) + init[i];
      assert init[..i] == xs[..i];
    } else {
      assert xs[..n - 1] == init;
    }
  }

  /** ASCII lower-casing of one character. */
  function ToLowerChar(c: char): char
  {
    if 'A' <= c <= 'Z' then (c as int + 32) as char else c
  }

  function ToLower(s: string): (r: string)
    ensures |r| == |s|
    ensures forall i :: 0 <= i < |s| ==> r[i] == ToLowerChar(s[i])
  {
    seq(|s|, i requires 0 <= i < |s| => ToLowerChar(s[i]))
  }

  /** Decimal rendering of a natural number, as `std::to_string` prints it. */
  function DecimalString(n: nat): (s: string)
    ensures |s| > 0
    decreases n
  {
    var d := [('0' as int + n % 10) as char];
    if n < 10 then d else DecimalString(n / 10) + d
  }
}
