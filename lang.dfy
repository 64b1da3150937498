/** The pieces of Java semantics the funnel relies on: references that may
    be null, unchecked exceptions, 32-bit `int` arithmetic and
    `String.trim()`. */
module Lang {

  /** A Java reference that may be null. */
  datatype Option<+T> = None | Some(value: T)

  /** The unchecked exceptions the core itself can raise. */
  datatype Fault =
    | NullPointerException
    | IndexOutOfBoundsException
    | IllegalArgumentException

  /** A Java call: it either returns a value or throws. */
  datatype Result<+T> = Ok(value: T) | Err(error: Fault)

  const INT_MIN: int := -0x8000_0000
  const INT_MAX: int := 0x7FFF_FFFF
  const INT_RANGE: int := 0x1_0000_0000

  predicate IsInt(x: int) {
    INT_MIN <= x <= INT_MAX
  }

  /** Two's-complement truncation of an unbounded integer to 32 bits. */
  function Wrap(x: int): (r: int)
    ensures IsInt(r)
    ensures IsInt(x) ==> r == x
  {
    (x - INT_MIN) % INT_RANGE + INT_MIN
  }

  /** Java's `x++` on an `int`: one more, except that INT_MAX wraps round
      to INT_MIN. */
  function Inc(x: int): (r: int)
    ensures IsInt(x) ==> IsInt(r)
  {
    if x == INT_MAX then INT_MIN else x + 1
  }

  /** The increment is addition modulo 2^32, as the JVM performs it. */
  lemma IncWraps(x: int)
    requires IsInt(x)
    ensures Inc(x) == Wrap(x + 1)
  {
  }

  /** `String.length()`: the number of UTF-16 code units, where a
      character outside the Basic Multilingual Plane takes two. */
  function Utf16Len(s: string): (n: nat)
    ensures |s| <= n <= 2 * |s|
  {
    if |s| == 0 then 0
    else Utf16Len(s[..|s| - 1]) + (if s[|s| - 1] as int > 0xFFFF then 2 else 1)
  }

  /** Within the Basic Multilingual Plane the UTF-16 length is the number
      of characters; outside it every character counts twice. */
  lemma {:induction false} Utf16LenPlanes(s: string)
    ensures (forall i :: 0 <= i < |s| ==> s[i] as int <= 0xFFFF) ==> Utf16Len(s) == |s|
    ensures (forall i :: 0 <= i < |s| ==> s[i] as int > 0xFFFF) ==> Utf16Len(s) == 2 * |s|
  {
    if |s| > 0 {
      Utf16LenPlanes(s[..|s| - 1]);
    }
  }

  /** `String.trim()` drops, from both ends, every character whose code is
      at most U+0020. TrimStart and TrimEnd are its two halves. */
  function TrimStart(s: string): (r: string)
    ensures |r| <= |s|
  {
    if |s| > 0 && s[0] <= ' ' then TrimStart(s[1..]) else s
  }

  function TrimEnd(s: string): (r: string)
    ensures |r| <= |s|
  {
    if |s| > 0 && s[|s| - 1] <= ' ' then TrimEnd(s[..|s| - 1]) else s
  }

  /** TrimStart removes a prefix made only of spaces and control
      characters, and stops at the first other character. */
  lemma {:induction false} TrimStartDrops(s: string)
    ensures TrimStart(s) == s[|s| - |TrimStart(s)|..]
    ensures forall i :: 0 <= i < |s| - |TrimStart(s)| ==> s[i] <= ' '
    ensures |TrimStart(s)| > 0 ==> TrimStart(s)[0] > ' '
  {
    if |s| > 0 && s[0] <= ' ' {
      TrimStartDrops(s[1..]);
    }
  }

  function Trim(s: string): string {
    TrimEnd(TrimStart(s))
  }

  /** `s.trim().length() == 0`, the test Java code uses for a blank string. */
  predicate IsBlank(s: string) {
    |Trim(s)| == 0
  }

  /** TrimEnd leaves the empty string only when there was nothing but
      spaces and control characters. */
  lemma {:induction false} TrimEndEmpty(s: string)
    ensures |TrimEnd(s)| == 0 ==> forall i :: 0 <= i < |s| ==> s[i] <= ' '
    ensures |s| > 0 && s[0] > ' ' ==> |TrimEnd(s)| > 0
  {
    if |s| > 0 && s[|s| - 1] <= ' ' {
      TrimEndEmpty(s[..|s| - 1]);
    }
  }

  /** A string is blank exactly when every one of its characters is a space
      or a control character. */
  lemma BlankIffAllSpace(s: string)
    ensures IsBlank(s) <==> forall i :: 0 <= i < |s| ==> s[i] <= ' '
  {
    var t := TrimStart(s);
    TrimStartDrops(s);
    TrimEndEmpty(t);
  }
}
