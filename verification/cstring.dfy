/** The slice of `std::string` and `std::to_string` behaviour the renderer's
    path and uniform-name code relies on: `find`, `find_last_of` with its
    `npos` sentinel, `substr` with its out-of-range exception, and the
    unsigned `size_t` arithmetic that wraps `npos + 1` to zero. */
module CString {
  import opened Wrappers

  /** `size_t` is 64 bits wide on every target the renderer builds for. */
  const SIZE_MODULUS: nat := 0x1_0000_0000_0000_0000

  /** `std::string::npos`, the largest `size_t`. */
  const NPOS: nat := SIZE_MODULUS - 1

  /** A `size_t` value. */
  type SizeT = n: nat | n < SIZE_MODULUS

  /** A string no longer than `std::string` can hold: its `max_size()` is
      below half the `size_t` range, so no index comes near `npos`. */
  predicate ValidString(s: string) {
    |s| < SIZE_MODULUS / 2
  }

  /** Unsigned `size_t` arithmetic: the mathematical value reduced modulo 2^64. */
  function Wrap(n: int): (r: SizeT)
    ensures 0 <= n < SIZE_MODULUS ==> r == n
    ensures -(SIZE_MODULUS as int) <= n < 0 ==> r == n + SIZE_MODULUS
    ensures SIZE_MODULUS <= n < 2 * SIZE_MODULUS ==> r == n - SIZE_MODULUS
  {
    n % SIZE_MODULUS
  }

  function Min(a: nat, b: nat): nat {
    if a <= b then a else b
  }

  /** `s.find_last_of(c)` for a one-character set: the last index holding `c`. */
  function FindLastOf(s: string, c: char): (r: Option<nat>)
    ensures r.Some? ==> r.value < |s| && s[r.value] == c
    ensures r.Some? ==> forall k | r.value < k < |s| :: s[k] != c
    ensures r.None? <==> c !in s
  {
    if |s| == 0 then None
    else if s[|s| - 1] == c then Some(|s| - 1)
    else FindLastOf(s[..|s| - 1], c)
  }

  /** The `size_t` that `find_last_of` returns: the index, or `npos`. */
  function FindLastOfPos(s: string, c: char): (r: SizeT)
    requires ValidString(s)
    ensures r == NPOS <==> c !in s
    ensures r != NPOS ==> r < |s| && s[r] == c
  {
    match FindLastOf(s, c)
    case Some(i) => i
    case None => NPOS
  }

  /** The exceptions the string operations throw: `substr`'s
      `out_of_range`, and the `length_error` of a concatenation whose result
      would be longer than a string can be. */
  datatype StringError = OutOfRange | LengthError

  /** `a + b` on `std::string`: throws `length_error` past `max_size()`. */
  function Concat(a: string, b: string): (r: Result<string, StringError>)
    ensures r.Ok? <==> ValidString(a + b)
    ensures r.Ok? ==> r.value == a + b
  {
    if ValidString(a + b) then Ok(a + b) else Err(LengthError)
  }

  /** The first index holding `x`, as a linear search finds it. */
  function FirstIndexOf<T(==)>(xs: seq<T>, x: T): (r: Option<nat>)
    ensures r.Some? ==> r.value < |xs| && xs[r.value] == x
    ensures r.Some? ==> forall k | 0 <= k < r.value :: xs[k] != x
    ensures r.None? <==> x !in xs
  {
    if |xs| == 0 then None
    else if xs[0] == x then Some(0)
    else match FirstIndexOf(xs[1..], x)
      case None => None
      case Some(j) => Some(j + 1)
  }

  /** Appending never moves the first occurrence of a value already present,
      and a value appended to a sequence lacking it is found at the end. */
  lemma FirstIndexOfExtend<T>(xs: seq<T>, ys: seq<T>, x: T)
    ensures x in xs ==> FirstIndexOf(xs + ys, x) == FirstIndexOf(xs, x)
    ensures x !in xs && |ys| > 0 && ys[0] == x ==> FirstIndexOf(xs + ys, x) == Some(|xs|)
  {
    var r := FirstIndexOf(xs + ys, x);
    if x in xs {
      var j := FirstIndexOf(xs, x).value;
      assert (xs + ys)[j] == x;
    } else if |ys| > 0 && ys[0] == x {
      assert (xs + ys)[|xs|] == x;
    }
  }

  /** `s.substr(pos, count)`: throws when `pos` is past the end, and otherwise
      clamps `count` to what is left of the string. */
  function Substr(s: string, pos: nat, count: nat): (r: Result<string, StringError>)
    ensures r.Ok? <==> pos <= |s|
    ensures r.Ok? ==> |r.value| == Min(count, |s| - pos)
    ensures r.Ok? ==> forall k | 0 <= k < |r.value| :: r.value[k] == s[pos + k]
  {
    if pos > |s| then Err(OutOfRange)
    else Ok(s[pos .. pos + Min(count, |s| - pos)])
  }

  /** `pat` occurs in `s` starting at index `i`. */
  predicate MatchAt(s: string, pat: string, i: nat) {
    i + |pat| <= |s| && s[i .. i + |pat|] == pat
  }

  /** `s.find(pat, from)`: the first occurrence of `pat` at or after `from`,
      `None` standing for `npos`. */
  function Find(s: string, pat: string, from: nat): (r: Option<nat>)
    decreases |s| - from
    ensures r.Some? ==> from <= r.value && MatchAt(s, pat, r.value)
    ensures r.Some? ==> forall k | from <= k < r.value :: !MatchAt(s, pat, k)
    ensures r.None? ==> forall k | from <= k :: !MatchAt(s, pat, k)
  {
    if from + |pat| > |s| then None
    else if MatchAt(s, pat, from) then Some(from)
    else Find(s, pat, from + 1)
  }

  /** The decimal digit for `d`. */
  function DigitChar(d: nat): char
    requires d < 10
  {
    (('0' as int) + d) as char
  }

  predicate IsDigit(c: char) {
    '0' <= c <= '9'
  }

  /** The value of a decimal digit. */
  function DigitValue(c: char): nat
    requires IsDigit(c)
  {
    (c as int) - ('0' as int)
  }

  /** The number a string of decimal digits spells, read left to right:
      each digit multiplies what was read so far by ten and adds itself. */
  function DecimalValue(s: string): nat
    requires forall k | 0 <= k < |s| :: IsDigit(s[k])
  {
    if |s| == 0 then 0 else 10 * DecimalValue(s[..|s| - 1]) + DigitValue(s[|s| - 1])
  }

  /** `std::to_string` of an unsigned value: its decimal representation,
      without leading zeros. */
  function NatToString(n: nat): (r: string)
    ensures 1 <= |r|
    ensures forall k | 0 <= k < |r| :: IsDigit(r[k])
    ensures n >= 10 ==> |r| >= 2
  {
    if n < 10 then [DigitChar(n)]
    else NatToString(n / 10) + [DigitChar(n % 10)]
  }

  /** `NatToString(n)` spells `n` in decimal, without a leading zero. */
  lemma {:induction false} NatToStringSpells(n: nat)
    ensures DecimalValue(NatToString(n)) == n
    ensures |NatToString(n)| > 1 ==> NatToString(n)[0] != '0'
    decreases n
  {
    if n >= 10 {
      var p := NatToString(n / 10);
      var r := NatToString(n);
      NatToStringSpells(n / 10);
      assert r == p + [DigitChar(n % 10)];
      assert r[..|r| - 1] == p;
    }
  }

  /** Distinct numbers print differently, so numbered uniform names never collide. */
  lemma {:induction false} NatToStringInjective(a: nat, b: nat)
    requires NatToString(a) == NatToString(b)
    ensures a == b
    decreases a
  {
    var sa, sb := NatToString(a), NatToString(b);
    if a < 10 && b < 10 {
      assert sa[0] == DigitChar(a) && sb[0] == DigitChar(b);
    } else if a < 10 || b < 10 {
      // one side prints one digit and the other at least two
      assert false;
    } else {
      var pa, pb := NatToString(a / 10), NatToString(b / 10);
      assert sa == pa + [DigitChar(a % 10)];
      assert sb == pb + [DigitChar(b % 10)];
      assert |pa| == |pb|;
      assert sa[|sa| - 1] == DigitChar(a % 10) && sb[|sb| - 1] == DigitChar(b % 10);
      assert a % 10 == b % 10;
      assert pa == sa[..|sa| - 1] == sb[..|sb| - 1] == pb;
      NatToStringInjective(a / 10, b / 10);
    }
  }
}
