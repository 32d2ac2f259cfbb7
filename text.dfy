/**
 * The two pieces of string handling the client does itself: `str.lstrip('/')`
 * on an endpoint, and `str()` of an integer inside an f-string.
 */
module Text {
  import opened Wrappers

  /** `s.lstrip('/')`: `s` without any of its leading slashes. */
  function LStripSlashes(s: string): (r: string)
    ensures |r| <= |s| && r == s[|s| - |r|..]
    ensures forall i :: 0 <= i < |s| - |r| ==> s[i] == '/'
    ensures r == [] || r[0] != '/'
  {
    if s != [] && s[0] == '/' then LStripSlashes(s[1..]) else s
  }

  /** `k` slashes. */
  function Slashes(k: nat): (s: string)
    ensures |s| == k && forall i :: 0 <= i < k ==> s[i] == '/'
  {
    if k == 0 then "" else "/" + Slashes(k - 1)
  }

  /** One leading slash more or less makes no difference to stripping. */
  lemma LStripSlash(s: string)
    ensures LStripSlashes("/" + s) == LStripSlashes(s)
  {
    assert ("/" + s)[1..] == s;
  }

  /** Stripping ignores how many slashes lead the string. */
  lemma {:induction false} LStripIgnoresSlashes(k: nat, s: string)
    ensures LStripSlashes(Slashes(k) + s) == LStripSlashes(s)
  {
    if k > 0 {
      var rest := Slashes(k - 1) + s;
      assert Slashes(k) + s == "/" + rest;
      calc {
        LStripSlashes(Slashes(k) + s);
        LStripSlashes("/" + rest);
        { LStripSlash(rest); }
        LStripSlashes(rest);
        { LStripIgnoresSlashes(k - 1, s); }
        LStripSlashes(s);
      }
    } else {
      assert Slashes(k) + s == s;
    }
  }

  /** A string is its leading slashes followed by what stripping keeps. */
  lemma LStripSplits(s: string)
    ensures s == Slashes(|s| - |LStripSlashes(s)|) + LStripSlashes(s)
  {
    var r := LStripSlashes(s);
    var k := |s| - |r|;
    var lead := Slashes(k);
    assert s[..k] == lead by {
      forall i | 0 <= i < k ensures s[..k][i] == lead[i] {
        assert s[i] == '/';
      }
    }
    assert r == s[k..];
    assert s == s[..k] + s[k..];
  }

  /** Stripping a second time changes nothing. */
  lemma LStripIdempotent(s: string)
    ensures LStripSlashes(LStripSlashes(s)) == LStripSlashes(s)
  {
  }

  predicate IsDigit(c: char)
  {
    '0' <= c <= '9'
  }

  predicate AllDigits(s: string)
  {
    forall i :: 0 <= i < |s| ==> IsDigit(s[i])
  }

  function DigitChar(d: nat): (c: char)
    requires d < 10
    ensures IsDigit(c) && c as int - '0' as int == d
  {
    ['0', '1', '2', '3', '4', '5', '6', '7', '8', '9'][d]
  }

  /** The value of a string of decimal digits. */
  function DigitsValue(s: string): nat
    requires AllDigits(s)
  {
    if s == [] then 0 else 10 * DigitsValue(s[..|s| - 1]) + (s[|s| - 1] as int - '0' as int)
  }

  /** `str(n)` for a natural number: its decimal digits, without leading zeros. */
  function NatToString(n: nat): (s: string)
    ensures s != [] && AllDigits(s)
    ensures s[0] == '0' ==> s == "0"
    ensures DigitsValue(s) == n
  {
    if n < 10 then [DigitChar(n)]
    else
      var front := NatToString(n / 10);
      var s := front + [DigitChar(n % 10)];
      assert s[..|s| - 1] == front;
      s
  }

  /** `str(i)` for a Python `int`. */
  function IntToString(i: int): (s: string)
    ensures s != [] && (s[0] == '-' <==> i < 0)
    ensures i < 0 ==> s[1..] == NatToString(-i)
    ensures i >= 0 ==> s == NatToString(i)
  {
    if i < 0 then "-" + NatToString(-i) else NatToString(i)
  }

  /** Reads back what IntToString writes. */
  function ParseInt(s: string): Option<int>
  {
    if s != [] && s[0] == '-' && AllDigits(s[1..]) then Some(-(DigitsValue(s[1..]) as int))
    else if AllDigits(s) then Some(DigitsValue(s))
    else None
  }

  lemma IntToStringRoundTrip(i: int)
    ensures ParseInt(IntToString(i)) == Some(i)
  {
    var s := IntToString(i);
    if i >= 0 {
      assert IsDigit(s[0]);
    }
  }

  /** Distinct integers are written differently. */
  lemma IntToStringInjective(i: int, j: int)
    requires IntToString(i) == IntToString(j)
    ensures i == j
  {
    IntToStringRoundTrip(i);
    IntToStringRoundTrip(j);
  }

  /** `str(v)` of an optional integer: Python writes a missing one as `None`. */
  function OptIntToString(v: Option<int>): (s: string)
    ensures v.Some? ==> s == IntToString(v.value)
    ensures v.None? ==> s == "None"
  {
    match v
    case None => "None"
    case Some(i) => IntToString(i)
  }
}
