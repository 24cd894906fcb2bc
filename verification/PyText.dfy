/**
 * The few pieces of Python's `str` behaviour the client and the forwarder rely on:
 * `split(sep)`, `split(sep, 1)`, `strip()`, `lower()`, `in` (substring test),
 * `str(int)` and `int(str)`.
 */
module PyText {
  import opened Wrappers

  /** Python's `str.isspace()` for one character (ASCII and Unicode white space). */
  predicate IsSpace(c: char) {
    var n := c as int;
    (9 <= n <= 13) || (28 <= n <= 32) || n == 0x85 || n == 0xA0 || n == 0x1680
    || (0x2000 <= n <= 0x200A) || n == 0x2028 || n == 0x2029 || n == 0x202F
    || n == 0x205F || n == 0x3000
  }

  predicate AllSpace(s: string) {
    forall i :: 0 <= i < |s| ==> IsSpace(s[i])
  }

  /** `s.lstrip()`: drops leading white space. */
  function LStrip(s: string): string {
    if s == [] || !IsSpace(s[0]) then s else LStrip(s[1..])
  }

  /** `lstrip()` keeps a suffix and cuts only white space before it. */
  lemma {:induction false} LStripSpec(s: string)
    ensures var r := LStrip(s);
            && |r| <= |s| && r == s[|s| - |r|..]
            && AllSpace(s[..|s| - |r|])
            && (r == [] || !IsSpace(r[0]))
  {
    if s != [] && IsSpace(s[0]) {
      LStripSpec(s[1..]);
      var r := LStrip(s[1..]);
      assert s[1..][..|s[1..]| - |r|] == s[1..|s| - |r|];
    }
  }

  /** `s.rstrip()`: drops trailing white space. */
  function RStrip(s: string): string {
    if s == [] || !IsSpace(s[|s| - 1]) then s else RStrip(s[..|s| - 1])
  }

  /** `rstrip()` keeps a prefix and cuts only white space after it. */
  lemma {:induction false} RStripSpec(s: string)
    ensures var r := RStrip(s);
            && |r| <= |s| && r == s[..|r|]
            && AllSpace(s[|r|..])
            && (r == [] || !IsSpace(r[|r| - 1]))
  {
    if s != [] && IsSpace(s[|s| - 1]) {
      RStripSpec(s[..|s| - 1]);
      var r := RStrip(s[..|s| - 1]);
      assert s[..|s| - 1][|r|..] + [s[|s| - 1]] == s[|r|..];
    }
  }

  /** `s.strip()`. */
  function Strip(s: string): string {
    RStrip(LStrip(s))
  }

  /** `strip()` keeps exactly a middle slice and cuts only white space around it. */
  lemma StripIsTrimmedSlice(s: string)
    ensures exists i, j :: 0 <= i <= j <= |s| && Strip(s) == s[i..j]
                           && AllSpace(s[..i]) && AllSpace(s[j..])
    ensures var r := Strip(s); r == [] || (!IsSpace(r[0]) && !IsSpace(r[|r| - 1]))
  {
    var l := LStrip(s);
    LStripSpec(s);
    var r := RStrip(l);
    RStripSpec(l);
    var i := |s| - |l|;
    var j := i + |r|;
    assert s[i..j] == l[..|r|];
    assert s[j..] == l[|r|..];
  }

  /** A string with no white space at either end is its own `strip()`. */
  lemma StripTrimmed(s: string)
    requires s == [] || (!IsSpace(s[0]) && !IsSpace(s[|s| - 1]))
    ensures Strip(s) == s
  {
  }

  /** `sep in s` gives its first position. */
  function IndexOf(s: string, c: char): (i: nat)
    requires c in s
    ensures i < |s| && s[i] == c && c !in s[..i]
  {
    if s[0] == c then 0
    else
      var i := IndexOf(s[1..], c);
      assert s[1..][..i] == s[1..i + 1];
      i + 1
  }

  /** The inverse of `split`: `sep.join(pieces)`. */
  function Join(pieces: seq<string>, sep: char): string {
    if |pieces| == 0 then ""
    else if |pieces| == 1 then pieces[0]
    else pieces[0] + [sep] + Join(pieces[1..], sep)
  }

  /** `s.split(sep)` for a one-character separator: never empty, pieces free of `sep`. */
  function Split(s: string, sep: char): (r: seq<string>)
    ensures |r| >= 1
    ensures forall k :: 0 <= k < |r| ==> sep !in r[k]
    ensures Join(r, sep) == s
    decreases |s|
  {
    if sep !in s then [s]
    else
      var i := IndexOf(s, sep);
      var rest := Split(s[i + 1..], sep);
      assert s == s[..i] + [sep] + s[i + 1..];
      [s[..i]] + rest
  }

  /** `s.split(sep, 1)` when `sep in s`: cut at the FIRST separator only. */
  function SplitFirst(s: string, sep: char): (r: (string, string))
    requires sep in s
    ensures r.0 + [sep] + r.1 == s
    ensures sep !in r.0
  {
    var i := IndexOf(s, sep);
    assert s == s[..i] + [sep] + s[i + 1..];
    (s[..i], s[i + 1..])
  }

  /** `split(sep, 1)` cuts exactly where the first separator was put. */
  lemma SplitFirstOf(a: string, b: string, sep: char)
    requires sep !in a
    ensures sep in a + [sep] + b
    ensures SplitFirst(a + [sep] + b, sep) == (a, b)
  {
    var s := a + [sep] + b;
    assert s[|a|] == sep;
    var i := IndexOf(s, sep);
    assert s[..i] == a && s[i + 1..] == b;
  }

  /** `split` undoes `join` when no piece holds the separator. */
  lemma {:induction false} SplitJoin(pieces: seq<string>, sep: char)
    requires |pieces| >= 1
    requires forall k :: 0 <= k < |pieces| ==> sep !in pieces[k]
    ensures Split(Join(pieces, sep), sep) == pieces
  {
    if |pieces| > 1 {
      var rest := pieces[1..];
      SplitJoin(rest, sep);
      SplitFirstOf(pieces[0], Join(rest, sep), sep);
    }
  }

  /** `t` occurs in `s` at position `i`. */
  predicate OccursAt(s: string, t: string, i: int) {
    0 <= i && i + |t| <= |s| && s[i..i + |t|] == t
  }

  /** `t in s` for strings: substring test. */
  predicate Contains(s: string, t: string)
    decreases |s|
  {
    (|t| <= |s| && s[..|t|] == t) || (|s| > 0 && Contains(s[1..], t))
  }

  lemma {:induction false} ContainsOccurs(s: string, t: string)
    requires Contains(s, t)
    ensures exists i :: OccursAt(s, t, i)
    decreases |s|
  {
    if |t| <= |s| && s[..|t|] == t {
      assert s[0..0 + |t|] == s[..|t|];
      assert OccursAt(s, t, 0);
    } else {
      ContainsOccurs(s[1..], t);
      var i :| OccursAt(s[1..], t, i);
      assert s[1..][i..i + |t|] == s[i + 1..i + 1 + |t|];
      assert OccursAt(s, t, i + 1);
    }
  }

  lemma {:induction false} OccursContains(s: string, t: string, i: int)
    requires OccursAt(s, t, i)
    ensures Contains(s, t)
    decreases i
  {
    if i == 0 {
      assert s[..|t|] == s[0..0 + |t|];
    } else {
      assert s[1..][i - 1..i - 1 + |t|] == s[i..i + |t|];
      OccursContains(s[1..], t, i - 1);
    }
  }

  /** The substring test holds exactly when `t` occurs at some position of `s`. */
  lemma ContainsIff(s: string, t: string)
    ensures Contains(s, t) <==> exists i :: OccursAt(s, t, i)
  {
    if Contains(s, t) {
      ContainsOccurs(s, t);
    }
    if i :| OccursAt(s, t, i) {
      OccursContains(s, t, i);
    }
  }

  /** `c.lower()` for ASCII and the basic Cyrillic block. */
  function LowerChar(c: char): char {
    var n := c as int;
    if 'A' as int <= n <= 'Z' as int then (n + 32) as char
    else if 0x410 <= n <= 0x42F then (n + 32) as char
    else if 0x400 <= n <= 0x40F then (n + 80) as char
    else c
  }

  /** `s.lower()`. */
  function Lower(s: string): (r: string)
    ensures |r| == |s|
    ensures forall i :: 0 <= i < |s| ==> r[i] == LowerChar(s[i])
  {
    seq(|s|, i requires 0 <= i < |s| => LowerChar(s[i]))
  }

  predicate IsDigit(c: char) {
    '0' <= c <= '9'
  }

  function DigitVal(c: char): (d: nat)
    requires IsDigit(c)
    ensures d < 10
  {
    c as int - '0' as int
  }

  function DigitChar(d: nat): (c: char)
    requires d < 10
    ensures IsDigit(c) && DigitVal(c) == d
  {
    ('0' as int + d) as char
  }

  /** `str(n)` for a natural number: decimal digits, no leading zero. */
  function NatToString(n: nat): (r: string)
    ensures |r| >= 1
    ensures forall i :: 0 <= i < |r| ==> IsDigit(r[i])
    ensures r[0] == '0' ==> n == 0
  {
    if n < 10 then [DigitChar(n)] else NatToString(n / 10) + [DigitChar(n % 10)]
  }

  /** `str(n)` for any integer. */
  function IntToString(n: int): string {
    if n < 0 then "-" + NatToString(-n) else NatToString(n)
  }

  predicate AllDigits(ds: string) {
    forall i :: 0 <= i < |ds| ==> IsDigit(ds[i])
  }

  /** The value of a run of decimal digits, most significant first. */
  function DigitsValue(ds: string): nat
    requires AllDigits(ds)
  {
    if ds == [] then 0
    else DigitsValue(ds[..|ds| - 1]) * 10 + DigitVal(ds[|ds| - 1])
  }

  lemma {:induction false} NatToStringRoundTrip(n: nat)
    ensures DigitsValue(NatToString(n)) == n
  {
    var r := NatToString(n);
    if n >= 10 {
      assert r[..|r| - 1] == NatToString(n / 10);
      NatToStringRoundTrip(n / 10);
    } else {
      assert r[..|r| - 1] == [];
    }
  }

  /**
   * Digits with single underscores between them, as Python's `int()` accepts them
   * (`1_000`), read from the right: their value, or `None`.
   */
  function ParseDigitGroups(t: string): Option<nat>
    decreases |t|
  {
    if t == [] || !IsDigit(t[|t| - 1]) then None
    else if |t| == 1 then Some(DigitVal(t[0]))
    else
      var init := t[..|t| - 1];
      var head := if init[|init| - 1] == '_' then init[..|init| - 1] else init;
      if head == [] then None
      else
        match ParseDigitGroups(head)
        case None => None
        case Some(v) => Some(v * 10 + DigitVal(t[|t| - 1]))
  }

  /** Plain digits read as their decimal value. */
  lemma {:induction false} ParseDigitGroupsOfDigits(ds: string)
    requires |ds| >= 1 && AllDigits(ds)
    ensures ParseDigitGroups(ds) == Some(DigitsValue(ds))
    decreases |ds|
  {
    var init := ds[..|ds| - 1];
    if |ds| > 1 {
      assert forall i :: 0 <= i < |init| ==> init[i] == ds[i];
      ParseDigitGroupsOfDigits(init);
    } else {
      assert init == [];
    }
  }

  /** An optional sign followed by digit groups. */
  function ParseSigned(t: string): Option<int> {
    if |t| >= 1 && (t[0] == '-' || t[0] == '+') then
      match ParseDigitGroups(t[1..])
      case None => None
      case Some(v) => Some(if t[0] == '-' then -(v as int) else v)
    else ParseDigitGroups(t)
  }

  /**
   * Python's `int(s)` for a base-10 string; `None` is the `ValueError`. White space is
   * dropped one character at a time from either end, then sign and digits are read.
   */
  function ParseInt(s: string): Option<int> {
    if s != [] && IsSpace(s[0]) then ParseInt(s[1..])
    else if s != [] && IsSpace(s[|s| - 1]) then ParseInt(s[..|s| - 1])
    else ParseSigned(s)
  }

  /** `int(s)` reads the sign and digits of `s.strip()`. */
  lemma {:induction false} ParseIntStrips(s: string)
    ensures ParseInt(s) == ParseSigned(Strip(s))
    decreases |s|
  {
    if s != [] && IsSpace(s[0]) {
      ParseIntStrips(s[1..]);
    } else if s != [] && IsSpace(s[|s| - 1]) {
      var t := s[..|s| - 1];
      ParseIntStrips(t);
      assert |s| >= 2;
      assert LStrip(t) == t && LStrip(s) == s;
    }
  }

  lemma ParseDigitsOfNat(n: nat)
    ensures ParseDigitGroups(NatToString(n)) == Some(n)
  {
    NatToStringRoundTrip(n);
    ParseDigitGroupsOfDigits(NatToString(n));
  }

  /** `str(n)` has no white space to strip, so `int()` reads it directly. */
  lemma IntToStringUnpadded(n: int)
    ensures ParseInt(IntToString(n)) == ParseSigned(IntToString(n))
  {
    var s := IntToString(n);
    assert IsDigit(s[|s| - 1]);
    assert !IsSpace(s[0]);
  }

  /** `int(str(n)) == n` for every integer. */
  lemma IntToStringRoundTrip(n: int)
    ensures ParseInt(IntToString(n)) == Some(n)
  {
    var a: nat := if n < 0 then -n else n;
    ParseDigitsOfNat(a);
    IntToStringUnpadded(n);
    var s := IntToString(n);
    if n < 0 {
      assert s[0] == '-' && s[1..] == NatToString(a);
    } else {
      assert IsDigit(s[0]);
    }
  }

  /** `f"{n:02d}"`, as `strftime` writes hours and minutes. */
  function Pad2(n: nat): (r: string)
    requires n < 100
    ensures |r| == 2 && AllDigits(r)
    ensures DigitsValue(r) == n
  {
    var r := [DigitChar(n / 10), DigitChar(n % 10)];
    assert r[..1][..0] == [];
    assert r[..1] == [DigitChar(n / 10)];
    assert DigitsValue(r[..1]) == n / 10;
    assert DigitsValue(r) == DigitsValue(r[..1]) * 10 + DigitVal(r[1]);
    r
  }
}
