/** The conversion a JavaScript `Uint16Array` applies to the numbers it is
    built from: each integer is reduced modulo 2^16 into an unsigned 16-bit
    element. Only integer inputs are modelled. */
module TypedArrays {

  const Modulus: int := 0x1_0000

  /** An element of a `Uint16Array`. */
  type u16 = x: int | 0 <= x < 0x1_0000

  /** The element stored for the integer `x`: the unique value in range that
      is congruent to `x` modulo 2^16. */
  function ToUint16(x: int): (r: u16)
    ensures (x - r) % Modulus == 0
    ensures 0 <= x < Modulus ==> r == x
    ensures 0 <= x ==> r <= x
  {
    x % Modulus
  }

  /** The elements of `new Uint16Array(s)` for a list of integers `s`. */
  function FromNumbers(s: seq<int>): (r: seq<u16>)
    ensures |r| == |s|
    ensures forall k :: 0 <= k < |s| ==> (s[k] - r[k]) % Modulus == 0
  {
    seq(|s|, k requires 0 <= k < |s| => ToUint16(s[k]))
  }

  predicate AllInRange(s: seq<int>)
  {
    forall k :: 0 <= k < |s| ==> 0 <= s[k] < Modulus
  }

  /** The conversion is lossless exactly when every value is already in range. */
  lemma FromNumbersLossless(s: seq<int>)
    ensures FromNumbers(s) == s <==> AllInRange(s)
  {
    if AllInRange(s) {
      forall k | 0 <= k < |s| ensures FromNumbers(s)[k] == s[k] {
        assert FromNumbers(s)[k] == ToUint16(s[k]);
      }
    }
  }

  /** Converting a prefix gives a prefix of the conversion. */
  lemma FromNumbersPrefix(s: seq<int>, t: seq<int>)
    requires s <= t
    ensures FromNumbers(s) <= FromNumbers(t)
  {
    assert forall k :: 0 <= k < |s| ==> FromNumbers(s)[k] == ToUint16(s[k]) == ToUint16(t[k]) == FromNumbers(t)[k];
  }
}
