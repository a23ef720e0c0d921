/**
 * Values shared by every part of the model: optional values, results that
 * carry an error, the exceptions the service raises, bytes, and the decimal
 * rendering that Python's f-strings perform on integers.
 */
module Common {

  datatype Option<+T> = None | Some(value: T)

  datatype Result<+T, +E> = Ok(value: T) | Err(error: E)

  /**
   * An exception as the HTTP layer sees it. An HTTPException carries a status
   * code and a detail text; any other exception is known only by its str().
   */
  datatype Error =
    | HttpError(statusCode: nat, detail: string)
    | Raised(text: string)

  newtype Byte = x: int | 0 <= x < 256

  type Bytes = seq<Byte>

  predicate IsDigit(c: char) {
    '0' <= c <= '9'
  }

  function DigitChar(d: nat): (c: char)
    requires d < 10
    ensures IsDigit(c)
    ensures c as int - '0' as int == d
  {
    ('0' as int + d) as char
  }

  /** The decimal text of a natural number, as `str(n)` or `f"{n}"` writes it. */
  function NatToString(n: nat): (s: string)
    ensures |s| > 0
    ensures forall i :: 0 <= i < |s| ==> IsDigit(s[i])
    ensures s[0] == '0' <==> n == 0
  {
    if n < 10 then [DigitChar(n)] else NatToString(n / 10) + [DigitChar(n % 10)]
  }

  /** The number a string of decimal digits denotes. */
  function DigitsValue(s: string): nat
    requires forall i :: 0 <= i < |s| ==> IsDigit(s[i])
  {
    if s == [] then 0
    else
      assert IsDigit(s[|s| - 1]);
      10 * DigitsValue(s[..|s| - 1]) + (s[|s| - 1] as int - '0' as int)
  }

  /** Reading the decimal text back gives the number: the rendering loses nothing. */
  lemma {:induction false} NatToStringRoundTrip(n: nat)
    ensures DigitsValue(NatToString(n)) == n
  {
    if n >= 10 {
      var s := NatToString(n);
      assert s[..|s| - 1] == NatToString(n / 10);
      NatToStringRoundTrip(n / 10);
    }
  }

  /** Distinct numbers are rendered as distinct texts. */
  lemma NatToStringInjective(m: nat, n: nat)
    requires NatToString(m) == NatToString(n)
    ensures m == n
  {
    NatToStringRoundTrip(m);
    NatToStringRoundTrip(n);
  }

  /** Splitting a concatenation at the length of its first part gives the parts back. */
  lemma SplitAt<T>(a: seq<T>, b: seq<T>)
    ensures (a + b)[..|a|] == a && (a + b)[|a|..] == b
  {
  }

  /** A suffix of a suffix of `s` is a suffix of `s`. */
  lemma SuffixOfSuffix<T>(s: seq<T>, t: seq<T>, i: nat)
    requires |t| <= |s| && t == s[|s| - |t|..] && i <= |t|
    ensures t[i..] == s[|s| - |t| + i..]
  {
  }

  /** An element of the second half of a prefix sits at the same place in the longer sequence. */
  lemma IndexThroughPrefix<T>(c: seq<T>, d: seq<T>, f: seq<T>, j: nat)
    requires c + d <= f && j < |d|
    ensures |c| + j < |f| && f[|c| + j] == d[j]
  {
    assert (c + d)[|c| + j] == d[j];
  }

  /** `d + sep + n` starts with `d`'s first element and holds `sep` right after `d`. */
  lemma FirstAfterPrefix<T>(d: seq<T>, sep: seq<T>, n: seq<T>)
    requires |d| > 0 && |sep| > 0
    ensures (d + sep + n)[0] == d[0] && (d + sep + n)[|d|] == sep[0]
  {
  }
}
