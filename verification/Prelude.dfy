/** Shared value types: optional values, fallible results and byte strings. */
module Prelude {

  datatype Option<+T> = None | Some(value: T)

  datatype Result<+T, +E> = Ok(value: T) | Err(error: E)

  type Byte = b: nat | b < 0x100

  /** A Rust `&str` or `&[u8]`: every length in this project is a byte length. */
  type Text = seq<Byte>

  function Ascii(s: string): (t: Text)
    ensures |t| == |s|
  {
    seq(|s|, i requires 0 <= i < |s| => s[i] as int % 0x80)
  }

  function Min(a: nat, b: nat): nat { if a <= b then a else b }

  function Max(a: nat, b: nat): nat { if a <= b then b else a }

  predicate Distinct<T(==)>(s: seq<T>) {
    forall j, k :: 0 <= j < k < |s| ==> s[j] != s[k]
  }

  /** `part` can be obtained from `whole` by deleting elements, keeping the order. */
  predicate Subsequence<T(==)>(part: seq<T>, whole: seq<T>)
    decreases |whole|
  {
    if part == [] then true
    else if whole == [] then false
    else if part[0] == whole[0] && Subsequence(part[1..], whole[1..]) then true
    else Subsequence(part, whole[1..])
  }

  const U64_MAX: nat := 0xFFFF_FFFF_FFFF_FFFF

  /** Encoded size of a JSON boolean. */
  function FlagLen(flag: bool): nat { if flag then 4 else 5 }

  /** Number of decimal digits used to print `n`. */
  function Digits(n: nat): (d: nat)
    ensures d >= 1
  {
    if n < 10 then 1 else 1 + Digits(n / 10)
  }

  lemma {:induction false} DigitsMonotone(a: nat, b: nat)
    requires a <= b
    ensures Digits(a) <= Digits(b)
  {
    if b >= 10 && a >= 10 {
      DigitsMonotone(a / 10, b / 10);
    }
  }

  function Pow10(k: nat): (p: nat)
    ensures p >= 1
  {
    if k == 0 then 1 else 10 * Pow10(k - 1)
  }

  /** A positive number of `d` digits lies between the powers of ten around it. */
  lemma {:induction false} DigitsBound(n: nat)
    ensures Digits(0) == 1
    ensures n > 0 ==> Pow10(Digits(n) - 1) <= n < Pow10(Digits(n))
  {
    if n >= 10 {
      DigitsBound(n / 10);
    }
  }

  /** A lower-case hexadecimal digit. */
  function HexDigit(n: nat): (b: Byte)
    requires n < 16
    ensures 0x20 <= b < 0x7F
  {
    if n < 10 then 0x30 + n else 0x61 + n - 10
  }

  /** The value of a hexadecimal digit. */
  function HexValue(b: Byte): Option<nat> {
    if 0x30 <= b <= 0x39 then Some(b - 0x30) else if 0x61 <= b <= 0x66 then Some(b - 0x61 + 10) else None
  }

  lemma HexDigitReads(n: nat)
    requires n < 16
    ensures HexValue(HexDigit(n)) == Some(n)
  {}

  lemma {:induction false} SameSizeSubset<T>(a: set<T>, b: set<T>)
    requires a <= b && |a| == |b|
    ensures a == b
  {
    if a != b {
      var x :| x in b && x !in a;
      assert a <= b - {x};
      SubsetSize(a, b - {x});
    }
  }

  lemma {:induction false} SubsetSize<T>(a: set<T>, b: set<T>)
    requires a <= b
    ensures |a| <= |b|
  {
    if x :| x in a {
      SubsetSize(a - {x}, b - {x});
    }
  }

  lemma ConcatAssoc<T>(a: seq<T>, b: seq<T>, c: seq<T>)
    ensures a + (b + c) == (a + b) + c
  {}

  lemma ConcatNothing<T>(a: seq<T>)
    ensures a + [] == a && [] + a == a
  {}

  lemma SliceBehind<T>(a: seq<T>, b: seq<T>, from: nat, to: nat)
    requires from <= to <= |b|
    ensures (a + b)[|a| + from..|a| + to] == b[from..to]
  {}

  lemma SuffixOfConcat<T>(a: seq<T>, b: seq<T>, n: nat)
    requires n <= |a|
    ensures (a + b)[n..] == a[n..] + b
  {}

  lemma MiddleSlice<T>(s: seq<T>, n: nat, i: nat)
    requires n <= i <= |s|
    ensures s[..i][n..] == s[n..][..i - n] && s[..i][..n] == s[..n]
  {}

  function Elements<T>(s: seq<T>): set<T> { set x | x in s }

  lemma {:induction false} DistinctSize<T>(s: seq<T>)
    requires Distinct(s)
    ensures |Elements(s)| == |s|
  {
    if s != [] {
      var init := s[..|s| - 1];
      var last := s[|s| - 1];
      DistinctSize(init);
      assert last !in Elements(init);
      assert s == init + [last];
      hide Distinct;
      assert Elements(s) == Elements(init) + {last};
    }
  }
}
