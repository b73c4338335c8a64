/** The string primitives of JavaScript the model needs: the white space `trim` and `parseInt` skip,
    the ASCII part of `toLowerCase`, `includes` and `parseInt` with no radix. */
module JsText {
  import opened Wrappers

  /** The characters `String.prototype.trim` removes: white space and line terminators. */
  predicate IsSpace(c: char) {
    || c == '\t' || c == '\n' || c == '\U{000B}' || c == '\U{000C}' || c == '\r' || c == ' '
    || c == '\U{00A0}' || c == '\U{1680}' || ('\U{2000}' <= c <= '\U{200A}')
    || c == '\U{2028}' || c == '\U{2029}' || c == '\U{202F}' || c == '\U{205F}'
    || c == '\U{3000}' || c == '\U{FEFF}'
  }

  /** The number of white-space characters at the start of `s`. */
  function LeadingSpaces(s: string): (k: nat)
    ensures k <= |s|
    ensures forall j :: 0 <= j < k ==> IsSpace(s[j])
    ensures k < |s| ==> !IsSpace(s[k])
  {
    if s != [] && IsSpace(s[0]) then 1 + LeadingSpaces(s[1..]) else 0
  }

  /** The number of white-space characters at the end of `s`. */
  function TrailingSpaces(s: string): (k: nat)
    ensures k <= |s|
    ensures forall j :: |s| - k <= j < |s| ==> IsSpace(s[j])
    ensures k < |s| ==> !IsSpace(s[|s| - 1 - k])
  {
    if s != [] && IsSpace(s[|s| - 1]) then 1 + TrailingSpaces(s[..|s| - 1]) else 0
  }

  /** `toLowerCase` on one character; only the ASCII capitals are mapped. */
  function LowerChar(c: char): (r: char)
    ensures 'A' <= c <= 'Z' ==> 'a' <= r <= 'z' && r as int - c as int == 32
    ensures !('A' <= c <= 'Z') ==> r == c
  {
    if 'A' <= c <= 'Z' then (c as int + 32) as char else c
  }

  /** `toLowerCase`: the text with every ASCII capital replaced by its small letter. */
  function Lower(s: string): (r: string)
    ensures |r| == |s|
    ensures forall k :: 0 <= k < |s| ==> r[k] == LowerChar(s[k])
  {
    if s == [] then [] else [LowerChar(s[0])] + Lower(s[1..])
  }

  /** `t` occurs in `s` starting at position `i`. */
  predicate OccursAt(s: string, t: string, i: int) {
    0 <= i <= |s| - |t| && s[i..i + |t|] == t
  }

  /** `includes`: whether `t` occurs in `s` as a contiguous piece. */
  function Includes(s: string, t: string): (r: bool)
    ensures r <==> exists i :: OccursAt(s, t, i)
    decreases |s|
  {
    if |s| < |t| then false
    else if s[..|t|] == t then
      assert OccursAt(s, t, 0);
      true
    else
      IncludesShift(s, t);
      Includes(s[1..], t)
  }

  /** An occurrence of `t` after the first position of `s` is an occurrence in `s[1..]`. */
  lemma IncludesShift(s: string, t: string)
    requires |s| >= |t| && s[..|t|] != t
    ensures (exists i :: OccursAt(s, t, i)) <==> (exists i :: OccursAt(s[1..], t, i))
  {
    if exists i :: OccursAt(s, t, i) {
      var i :| OccursAt(s, t, i);
      assert i != 0;
      assert OccursAt(s[1..], t, i - 1);
    }
    if exists i :: OccursAt(s[1..], t, i) {
      var i :| OccursAt(s[1..], t, i);
      assert s[1..][i..i + |t|] == s[i + 1..i + 1 + |t|];
      assert OccursAt(s, t, i + 1);
    }
  }

  /** The value of `c` as a hexadecimal digit, either case; 16 for a character that is no digit. */
  function DigitValue(c: char): (v: nat)
    ensures v <= 16
    ensures v < 10 <==> '0' <= c <= '9'
  {
    if '0' <= c <= '9' then c as int - '0' as int
    else if 'a' <= c <= 'f' then c as int - 'a' as int + 10
    else if 'A' <= c <= 'F' then c as int - 'A' as int + 10
    else 16
  }

  /** The length of the longest run of digits of `radix` at the start of `s`. */
  function DigitRun(s: string, radix: nat): (n: nat)
    ensures n <= |s|
    ensures forall j :: 0 <= j < n ==> DigitValue(s[j]) < radix
    ensures n < |s| ==> DigitValue(s[n]) >= radix
  {
    if s != [] && DigitValue(s[0]) < radix then 1 + DigitRun(s[1..], radix) else 0
  }

  /** The number the digits `ds` spell in `radix`, most significant first. */
  function DigitsValue(ds: string, radix: nat): nat {
    if ds == [] then 0 else DigitsValue(ds[..|ds| - 1], radix) * radix + DigitValue(ds[|ds| - 1])
  }

  /** `parseInt(s)`: leading white space is skipped, then one sign, then a `0x` or `0X` prefix
      switches to hexadecimal; the longest run of digits that follows is the value, and there is
      no value (`NaN`) when that run is empty. */
  function ParseInt(s: string): (r: Option<int>)
    ensures r.Some? ==> exists k :: 0 <= k < |s| && DigitValue(s[k]) < 16
  {
    var t := s[LeadingSpaces(s)..];
    var negative := |t| > 0 && t[0] == '-';
    var u := if |t| > 0 && (t[0] == '-' || t[0] == '+') then t[1..] else t;
    var hex := |u| >= 2 && u[0] == '0' && (u[1] == 'x' || u[1] == 'X');
    var radix := if hex then 16 else 10;
    var w := if hex then u[2..] else u;
    var n := DigitRun(w, radix);
    if n == 0 then None
    else
      var v: int := DigitsValue(w[..n], radix);
      if negative then Some(-v) else Some(v)
  }

  /** A text without a decimal digit has no value. */
  lemma ParseNeedsDigit(s: string)
    requires forall k :: 0 <= k < |s| ==> !('0' <= s[k] <= '9')
    ensures ParseInt(s) == None
  {
    var a := LeadingSpaces(s);
    var t := s[a..];
    var u := if |t| > 0 && (t[0] == '-' || t[0] == '+') then t[1..] else t;
    var c := if |t| > 0 && (t[0] == '-' || t[0] == '+') then a + 1 else a;
    assert u == s[c..];
    if |u| > 0 {
      assert u[0] == s[c];
      assert DigitValue(u[0]) >= 10;
    }
  }

  /** The character of decimal digit `d`. */
  function DigitChar(d: nat): (c: char)
    requires d < 10
    ensures DigitValue(c) == d
  {
    ('0' as int + d) as char
  }

  /** The decimal rendering of `n`, as a page number is displayed: digits only, and no leading
      zero unless `n` is zero. */
  function Decimal(n: nat): (r: string)
    ensures |r| >= 1
    ensures forall k :: 0 <= k < |r| ==> '0' <= r[k] <= '9'
    ensures r[0] == '0' ==> n == 0 && |r| == 1
  {
    if n < 10 then [DigitChar(n)] else Decimal(n / 10) + [DigitChar(n % 10)]
  }

  /** The decimal digits of `n` spell `n`. */
  lemma {:induction false} DecimalValue(n: nat)
    ensures DigitsValue(Decimal(n), 10) == n
  {
    if n >= 10 {
      DecimalValue(n / 10);
      var r := Decimal(n);
      assert r[..|r| - 1] == Decimal(n / 10);
    }
  }

  /** `parseInt` reads back a decimal rendering, also when other text follows that starts with
      neither a digit nor an `x` (which after a lone zero would switch to hexadecimal). */
  lemma ParseDecimal(n: nat, rest: string)
    requires rest == [] || (DigitValue(rest[0]) >= 10 && rest[0] != 'x' && rest[0] != 'X')
    ensures ParseInt(Decimal(n) + rest) == Some(n)
  {
    var d := Decimal(n);
    var s := d + rest;
    assert s[..|d|] == d;
    forall j | 0 <= j < |d|
      ensures DigitValue(s[j]) < 10
    {
      assert s[j] == d[j];
    }
    if |d| < |s| {
      assert s[|d|] == rest[0];
    }
    DigitRunExact(s, 10, |d|);
    ParseUnsigned(s);
    DecimalValue(n);
  }

  /** A text that starts with a decimal digit and no `0x` prefix is read as a decimal number. */
  lemma ParseUnsigned(s: string)
    requires |s| > 0 && '0' <= s[0] <= '9'
    requires |s| >= 2 && s[0] == '0' ==> s[1] != 'x' && s[1] != 'X'
    ensures ParseInt(s) == Some(DigitsValue(s[..DigitRun(s, 10)], 10))
  {
    assert !IsSpace(s[0]);
    assert LeadingSpaces(s) == 0;
    var t := s[LeadingSpaces(s)..];
    assert t == s;
    assert !(t[0] == '-' || t[0] == '+');
    assert !(|t| >= 2 && t[0] == '0' && (t[1] == 'x' || t[1] == 'X'));
  }

  /** A run of digits followed by the end or by a non-digit is the whole digit run. */
  lemma {:induction false} DigitRunExact(s: string, radix: nat, n: nat)
    requires n <= |s|
    requires forall j :: 0 <= j < n ==> DigitValue(s[j]) < radix
    requires n < |s| ==> DigitValue(s[n]) >= radix
    ensures DigitRun(s, radix) == n
  {
    if n > 0 {
      DigitRunExact(s[1..], radix, n - 1);
    }
  }
}
