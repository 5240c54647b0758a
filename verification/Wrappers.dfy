/** The two shapes in which the modelled code reports an outcome, and two facts about collections. */
module Wrappers {

  datatype Option<+T> = None | Some(value: T)

  /** A Python call that may raise: the value it returns, or the fact that it raised. */
  datatype Result<+T> = Ok(value: T) | Raised {
    predicate IsFailure() {
      Raised?
    }

    function PropagateFailure<U>(): Result<U>
      requires Raised?
    {
      Raised
    }

    function Extract(): T
      requires Ok?
    {
      value
    }
  }

  ghost predicate SameMembers<T(!new)>(a: seq<T>, b: seq<T>) {
    forall x :: x in a <==> x in b
  }

  lemma AnyOf<T>(s: set<T>) returns (x: T)
    requires s != {}
    ensures x in s
  {
    x :| x in s;
  }
}

/** Bytes and the fixed-width little-endian integers of the binary inputs. */
module Bytes {

  type byte = x: int | 0 <= x < 256

  type bytes = seq<byte>

  const TWO_32: int := 0x1_0000_0000
  const TWO_31: int := 0x8000_0000

  function U32(b: bytes): (n: int)
    requires |b| == 4
    ensures 0 <= n < TWO_32
  {
    var b0: int, b1: int, b2: int, b3: int := b[0], b[1], b[2], b[3];
    b0 + 0x100 * (b1 + 0x100 * (b2 + 0x100 * b3))
  }

  function ToU32(n: int): (b: bytes)
    requires 0 <= n < TWO_32
    ensures |b| == 4 && U32(b) == n
  {
    [n % 0x100, n / 0x100 % 0x100, n / 0x1_0000 % 0x100, n / 0x100_0000]
  }

  /** The two's complement reading of a 32-bit word. */
  function I32(b: bytes): (n: int)
    requires |b| == 4
    ensures -TWO_31 <= n < TWO_31
  {
    var u := U32(b);
    if u < TWO_31 then u else u - TWO_32
  }

  lemma LowDigit(x: int, y: int, x': int, y': int)
    requires 0 <= x < 0x100 && 0 <= x' < 0x100 && x + 0x100 * y == x' + 0x100 * y'
    ensures x == x' && y == y'
  {
  }

  lemma U32Injective(a: bytes, b: bytes)
    requires |a| == |b| == 4 && U32(a) == U32(b)
    ensures a == b
  {
    var a0: int, a1: int, a2: int, a3: int := a[0], a[1], a[2], a[3];
    var b0: int, b1: int, b2: int, b3: int := b[0], b[1], b[2], b[3];
    LowDigit(a0, a1 + 0x100 * (a2 + 0x100 * a3), b0, b1 + 0x100 * (b2 + 0x100 * b3));
    LowDigit(a1, a2 + 0x100 * a3, b1, b2 + 0x100 * b3);
    LowDigit(a2, a3, b2, b3);
  }
}
