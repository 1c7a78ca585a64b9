/**
 * `util::Array`: a fixed-size buffer whose elements start at zero. The
 * element type's `zero()` is passed as a value. Scalar indexing is Dafny's
 * own indexing, whose bounds obligation stands for the panic of an index at
 * or beyond the size.
 */
module Util {
  /** `Array::new` and `Zero::zero`: a buffer of `size` zero elements. */
  function Zeroed<T>(size: nat, zero: T): (s: seq<T>)
    ensures |s| == size
    ensures forall i :: 0 <= i < size ==> s[i] == zero
  {
    seq(size, _ => zero)
  }

  /** `Zero::is_zero`: every element is zero, checked front to back as `all` does. */
  function IsZero<T(==)>(s: seq<T>, zero: T): (b: bool)
    ensures b <==> forall i :: 0 <= i < |s| ==> s[i] == zero
  {
    |s| == 0 || (s[0] == zero && IsZero(s[1..], zero))
  }

  /** `clear`: the whole buffer is reset to zero elements. */
  method Clear<T(==)>(a: array<T>, zero: T)
    modifies a
    ensures a[..] == Zeroed(a.Length, zero)
    ensures IsZero(a[..], zero)
  {
    forall i | 0 <= i < a.Length {
      a[i] := zero;
    }
  }

  /** `Add::add`: a fresh buffer filled element by element with the sums of the two operands. */
  method Add(a: seq<int>, b: seq<int>) returns (sum: seq<int>)
    requires |a| == |b|
    ensures |sum| == |a|
    ensures forall i :: 0 <= i < |a| ==> sum[i] == a[i] + b[i]
  {
    var buf := new int[|a|](_ => 0);
    var i := 0;
    while i < buf.Length
      invariant 0 <= i <= buf.Length
      invariant forall k :: 0 <= k < i ==> buf[k] == a[k] + b[k]
    {
      buf[i] := a[i] + b[i];
      i := i + 1;
    }
    sum := buf[..];
  }

  /** Range indexing `buf[lo..hi]`: the elements from `lo` up to, not including, `hi`. */
  function Slice<T>(s: seq<T>, lo: int, hi: int): (r: seq<T>)
    requires 0 <= lo <= hi <= |s|
    ensures |r| == hi - lo
    ensures forall k :: 0 <= k < |r| ==> r[k] == s[lo + k]
  {
    s[lo..hi]
  }
}
