/**
 * Values shared by every component of the plugin: optional attribute values,
 * the INCONNU sentinel, and ASCII models of the Python and QGIS string
 * operations the plugin relies on (strip / trim, upper, lower, split, join,
 * int() and float() on decimal text).
 */
module Common {

  datatype Option<T> = None | Some(value: T)

  /** The sentinel the network uses for an unknown node or structure. */
  const INCONNU: string := "INCONNU"

  // ------------------------------------------------------------------
  // Characters
  // ------------------------------------------------------------------

  /** The ASCII characters QGIS trim() removes (QString::trimmed: the C0 blanks and space). */
  predicate IsQgisSpace(c: char) {
    c == ' ' || c == '\t' || c == '\n' || c == '\r' || c == '\U{0B}' || c == '\U{0C}'
  }

  /** The ASCII characters Python's str.strip() removes: QGIS's, plus the separators 0x1C-0x1F. */
  predicate IsSpace(c: char) {
    IsQgisSpace(c) || '\U{1C}' <= c <= '\U{1F}'
  }

  /** The two blank sets the plugin strips: Python's, and that of QGIS expressions. */
  datatype Blanks = PyBlanks | QgisBlanks

  predicate Blank(b: Blanks, c: char) {
    if b == PyBlanks then IsSpace(c) else IsQgisSpace(c)
  }

  predicate IsDigit(c: char) { '0' <= c <= '9' }

  function UpperChar(c: char): char {
    if 'a' <= c <= 'z' then (c as int - 32) as char else c
  }

  function LowerChar(c: char): char {
    if 'A' <= c <= 'Z' then (c as int + 32) as char else c
  }

  // ------------------------------------------------------------------
  // strip / trim
  // ------------------------------------------------------------------

  function TrimLeft(b: Blanks, s: string): string {
    if s != [] && Blank(b, s[0]) then TrimLeft(b, s[1..]) else s
  }

  function TrimRight(b: Blanks, s: string): string {
    if s != [] && Blank(b, s[|s| - 1]) then TrimRight(b, s[..|s| - 1]) else s
  }

  /** TrimLeft drops the leading blanks and nothing else. */
  lemma {:induction false} TrimLeftProps(b: Blanks, s: string)
    ensures |TrimLeft(b, s)| <= |s| && TrimLeft(b, s) == s[|s| - |TrimLeft(b, s)|..]
    ensures TrimLeft(b, s) == [] || !Blank(b, TrimLeft(b, s)[0])
    ensures forall i :: 0 <= i < |s| - |TrimLeft(b, s)| ==> Blank(b, s[i])
    decreases |s|
  {
    if s != [] && Blank(b, s[0]) {
      TrimLeftProps(b, s[1..]);
    }
  }

  /** TrimRight drops the trailing blanks and nothing else. */
  lemma {:induction false} TrimRightProps(b: Blanks, s: string)
    ensures |TrimRight(b, s)| <= |s| && TrimRight(b, s) == s[..|TrimRight(b, s)|]
    ensures TrimRight(b, s) == [] || !Blank(b, TrimRight(b, s)[|TrimRight(b, s)| - 1])
    ensures forall i :: |TrimRight(b, s)| <= i < |s| ==> Blank(b, s[i])
    decreases |s|
  {
    if s != [] && Blank(b, s[|s| - 1]) {
      TrimRightProps(b, s[..|s| - 1]);
    }
  }

  /** The number of leading blanks of s. */
  function LeadLen(b: Blanks, s: string): nat {
    TrimLeftProps(b, s);
    |s| - |TrimLeft(b, s)|
  }

  /** The part of s between its leading and its trailing blanks of set b. */
  function StripBlanks(b: Blanks, s: string): (r: string)
    ensures LeadLen(b, s) + |r| <= |s| && r == s[LeadLen(b, s)..LeadLen(b, s) + |r|]
    ensures forall i :: 0 <= i < LeadLen(b, s) || LeadLen(b, s) + |r| <= i < |s| ==> Blank(b, s[i])
    ensures r == [] || (!Blank(b, r[0]) && !Blank(b, r[|r| - 1]))
  {
    var l := TrimLeft(b, s);
    TrimLeftProps(b, s);
    var r := TrimRight(b, l);
    TrimRightProps(b, l);
    assert r == s[LeadLen(b, s)..][..|r|];
    assert forall i :: LeadLen(b, s) + |r| <= i < |s| ==> s[i] == l[i - LeadLen(b, s)];
    r
  }

  /** Python's str.strip() on ASCII text. */
  function Strip(s: string): (r: string)
    ensures LeadLen(PyBlanks, s) + |r| <= |s| && r == s[LeadLen(PyBlanks, s)..LeadLen(PyBlanks, s) + |r|]
    ensures forall i :: 0 <= i < LeadLen(PyBlanks, s) || LeadLen(PyBlanks, s) + |r| <= i < |s| ==> IsSpace(s[i])
    ensures r == [] || (!IsSpace(r[0]) && !IsSpace(r[|r| - 1]))
  {
    StripBlanks(PyBlanks, s)
  }

  /** QGIS's trim() on ASCII text: the separators 0x1C-0x1F stay. */
  function Trim(s: string): (r: string)
    ensures LeadLen(QgisBlanks, s) + |r| <= |s| && r == s[LeadLen(QgisBlanks, s)..LeadLen(QgisBlanks, s) + |r|]
    ensures forall i :: 0 <= i < LeadLen(QgisBlanks, s) || LeadLen(QgisBlanks, s) + |r| <= i < |s| ==> IsQgisSpace(s[i])
    ensures r == [] || (!IsQgisSpace(r[0]) && !IsQgisSpace(r[|r| - 1]))
  {
    StripBlanks(QgisBlanks, s)
  }

  lemma StripEmpty(s: string)
    ensures Strip(s) == [] <==> forall i :: 0 <= i < |s| ==> IsSpace(s[i])
  {
  }

  lemma StripIdempotent(s: string)
    ensures Strip(Strip(s)) == Strip(s)
  {
    var t := Strip(s);
    if t != [] {
      assert TrimLeft(PyBlanks, t) == t;
      assert TrimRight(PyBlanks, t) == t;
    }
  }

  /** Upper-casing (ASCII letters only). */
  function Upper(s: string): (r: string)
    ensures |r| == |s| && forall i :: 0 <= i < |s| ==> r[i] == UpperChar(s[i])
  {
    seq(|s|, i requires 0 <= i < |s| => UpperChar(s[i]))
  }

  /** Lower-casing (ASCII letters only). */
  function Lower(s: string): (r: string)
    ensures |r| == |s| && forall i :: 0 <= i < |s| ==> r[i] == LowerChar(s[i])
  {
    seq(|s|, i requires 0 <= i < |s| => LowerChar(s[i]))
  }

  /** `x.upper() == 'INCONNU'`: the case-insensitive sentinel test. */
  predicate IsUnknownCI(s: string) { Upper(s) == INCONNU }

  // ------------------------------------------------------------------
  // Attribute values
  // ------------------------------------------------------------------

  /** `_as_str(v)` and `(v or "")`: NULL reads as the empty string. */
  function AsStr(v: Option<string>): string {
    if v.None? then "" else v.value
  }

  /** Python truthiness of an attribute value: not NULL and not empty. */
  predicate Truthy(v: Option<string>) { v.Some? && v.value != "" }

  // ------------------------------------------------------------------
  // Substrings, split, join
  // ------------------------------------------------------------------

  predicate IsPrefix(p: string, s: string) { |p| <= |s| && s[..|p|] == p }

  /** Python's `needle in hay` on strings. */
  predicate IsSubstring(needle: string, hay: string) {
    exists k :: 0 <= k <= |hay| && IsPrefix(needle, hay[k..])
  }

  function IndexOf(s: string, c: char): (k: nat)
    requires c in s
    ensures k < |s| && s[k] == c && c !in s[..k]
  {
    if s[0] == c then 0 else 1 + IndexOf(s[1..], c)
  }

  /** Python's `s.split(c)` for a one-character separator. */
  function Split(s: string, c: char): (r: seq<string>)
    ensures |r| >= 1
    ensures forall i :: 0 <= i < |r| ==> c !in r[i]
    decreases |s|
  {
    if c in s then
      var k := IndexOf(s, c);
      [s[..k]] + Split(s[k + 1..], c)
    else [s]
  }

  /** Python's `sep.join(xs)`. */
  function Join(xs: seq<string>, sep: string): string {
    if xs == [] then ""
    else if |xs| == 1 then xs[0]
    else xs[0] + sep + Join(xs[1..], sep)
  }

  lemma {:induction false} JoinSplit(s: string, c: char)
    ensures Join(Split(s, c), [c]) == s
    decreases |s|
  {
    if c in s {
      var k := IndexOf(s, c);
      var rest := Split(s[k + 1..], c);
      JoinSplit(s[k + 1..], c);
      assert Split(s, c) == [s[..k]] + rest;
      assert ([s[..k]] + rest)[1..] == rest;
      assert s == s[..k] + [c] + s[k + 1..];
    }
  }

  /** Every character of s passes p. */
  predicate AllChars(s: string, p: char -> bool) {
    forall i :: 0 <= i < |s| ==> p(s[i])
  }

  // ------------------------------------------------------------------
  // Decimal numbers
  // ------------------------------------------------------------------

  function DigitValue(c: char): nat requires IsDigit(c) { c as int - '0' as int }

  predicate AllDigits(s: string) { forall i :: 0 <= i < |s| ==> IsDigit(s[i]) }

  /** The value of a string of decimal digits, most significant first. */
  function DigitsValue(s: string): nat
    requires AllDigits(s)
  {
    if s == [] then 0 else 10 * DigitsValue(s[..|s| - 1]) + DigitValue(s[|s| - 1])
  }

  predicate IsSign(c: char) { c == '-' || c == '+' }

  /** The text after an optional leading sign. */
  function Unsigned(s: string): string {
    if s != [] && IsSign(s[0]) then s[1..] else s
  }

  /** The decimal integer grammar: an optional sign, then one or more ASCII digits. */
  predicate IsIntText(s: string) {
    Unsigned(s) != [] && AllDigits(Unsigned(s))
  }

  /**
   * Python's int() on text without surrounding blanks: an optional sign
   * followed by at least one ASCII digit.
   */
  function ParseInt(s: string): (r: Option<int>)
    ensures r.Some? <==> IsIntText(s)
    ensures r.Some? && r.value < 0 ==> s[0] == '-'
  {
    if s == [] then None
    else if s[0] == '-' || s[0] == '+' then
      var body := s[1..];
      if body != [] && AllDigits(body) then
        var v: int := DigitsValue(body);
        Some(if s[0] == '-' then -v else v)
      else None
    else if AllDigits(s) then Some(DigitsValue(s))
    else None
  }

  function DigitChar(d: nat): (c: char)
    requires d < 10
    ensures IsDigit(c) && DigitValue(c) == d
  {
    ('0' as int + d) as char
  }

  /** The decimal digits of n, without leading zeros. */
  function ShowNat(n: nat): (s: string)
    ensures s != [] && AllDigits(s)
  {
    if n < 10 then [DigitChar(n)] else ShowNat(n / 10) + [DigitChar(n % 10)]
  }

  /** Python's str() of an int. */
  function ShowInt(i: int): string {
    if i < 0 then "-" + ShowNat(-i) else ShowNat(i)
  }

  lemma {:induction false} ShowNatValue(n: nat)
    ensures DigitsValue(ShowNat(n)) == n
  {
    if n >= 10 {
      var s := ShowNat(n);
      ShowNatValue(n / 10);
      assert s[..|s| - 1] == ShowNat(n / 10);
    }
  }

  /** int(str(i)) == i. */
  lemma ParseShowInt(i: int)
    ensures ParseInt(ShowInt(i)) == Some(i)
  {
    if i < 0 {
      ShowNatValue(-i);
      assert ShowInt(i)[1..] == ShowNat(-i);
    } else {
      ShowNatValue(i);
    }
  }

  /** A leading zero adds nothing to the value of a digit string. */
  lemma {:induction false} DigitsLeadingZero(d: string)
    requires AllDigits(d)
    ensures AllDigits("0" + d) && DigitsValue("0" + d) == DigitsValue(d)
    decreases |d|
  {
    if d != [] {
      var z := "0" + d;
      assert z[..|z| - 1] == "0" + d[..|d| - 1];
      assert z[|z| - 1] == d[|d| - 1];
      DigitsLeadingZero(d[..|d| - 1]);
    } else {
      assert DigitsValue("0"[..0]) == 0;
    }
  }

  /** int() ignores a leading zero before a digit, with or without a sign: int("007") == int("7"). */
  lemma ParseLeadingZero(d: string)
    requires d != [] && AllDigits(d)
    ensures ParseInt("0" + d) == ParseInt(d)
    ensures ParseInt("+0" + d) == ParseInt("+" + d) && ParseInt("-0" + d) == ParseInt("-" + d)
  {
    DigitsLeadingZero(d);
    assert ("+0" + d)[1..] == "0" + d && ("+" + d)[1..] == d;
    assert ("-0" + d)[1..] == "0" + d && ("-" + d)[1..] == d;
  }

  /** A '+' sign keeps the value and a '-' sign negates it; neither turns rejected text into a number. */
  lemma ParseSigned(d: string)
    requires d == [] || IsDigit(d[0])
    ensures ParseInt("+" + d) == ParseInt(d)
    ensures ParseInt("-" + d) == if ParseInt(d).Some? then Some(-ParseInt(d).value) else None
  {
    assert ("+" + d)[1..] == d && ("-" + d)[1..] == d;
  }

  /** A digit string without a leading zero that is not just "0" is positive. */
  lemma {:induction false} DigitsPositive(d: string)
    requires d != [] && AllDigits(d) && d[0] != '0'
    ensures DigitsValue(d) >= 1
    decreases |d|
  {
    if |d| > 1 {
      DigitsPositive(d[..|d| - 1]);
    }
  }

  /** The canonical digit text (no leading zero, or just "0") is the text str() gives its value. */
  lemma {:induction false} ShowDigitsValue(d: string)
    requires d != [] && AllDigits(d) && (d[0] != '0' || |d| == 1)
    ensures ShowNat(DigitsValue(d)) == d
    decreases |d|
  {
    var last := d[|d| - 1];
    if |d| == 1 {
      assert DigitsValue(d) == DigitValue(last);
      assert DigitChar(DigitValue(last)) == last;
    } else {
      var p := d[..|d| - 1];
      DigitsPositive(p);
      ShowDigitsValue(p);
      var v := DigitsValue(d);
      assert v == 10 * DigitsValue(p) + DigitValue(last);
      assert v / 10 == DigitsValue(p) && v % 10 == DigitValue(last);
      assert DigitChar(DigitValue(last)) == last;
      assert d == p + [last];
    }
  }

  /** 10^k as a real. */
  function Pow10(k: nat): (r: real)
    ensures r >= 1.0
  {
    if k == 0 then 1.0 else 10.0 * Pow10(k - 1)
  }

  /** An unsigned decimal: digits, optionally a point and more digits, at least one digit. */
  function ParseUnsignedDecimal(s: string): (r: Option<real>)
    ensures r.Some? ==> r.value >= 0.0
  {
    if '.' in s then
      var k := IndexOf(s, '.');
      var ip := s[..k];
      var fp := s[k + 1..];
      if (ip != [] || fp != []) && AllDigits(ip) && AllDigits(fp) then
        Some(DigitsValue(ip) as real + DigitsValue(fp) as real / Pow10(|fp|))
      else None
    else if s != [] && AllDigits(s) then Some(DigitsValue(s) as real)
    else None
  }

  /**
   * Python's float() on positional decimal text: surrounding blanks, an
   * optional sign, digits with at most one decimal point.
   */
  function ParseDecimal(s: string): (r: Option<real>)
  {
    var t := Strip(s);
    if t != [] && (t[0] == '-' || t[0] == '+') then
      match ParseUnsignedDecimal(t[1..])
      case None => None
      case Some(v) => Some(if t[0] == '-' then -v else v)
    else ParseUnsignedDecimal(t)
  }

  lemma ParseDecimalOfNat(n: nat)
    ensures ParseDecimal(ShowNat(n)) == Some(n as real)
  {
    var s := ShowNat(n);
    assert forall i :: 0 <= i < |s| ==> s[i] != '.';
    assert TrimLeft(PyBlanks, s) == s;
    assert TrimRight(PyBlanks, s) == s;
    ShowNatValue(n);
  }

  // ------------------------------------------------------------------
  // Sequences
  // ------------------------------------------------------------------

  predicate NoDup<T(==)>(s: seq<T>) {
    forall i, j :: 0 <= i < j < |s| ==> s[i] != s[j]
  }

  function Elems<T>(s: seq<T>): set<T> { set x | x in s }

  /** Appending an element not yet listed keeps a list duplicate-free and adds it to the elements. */
  lemma NoDupSnoc<T>(s: seq<T>, x: T)
    requires NoDup(s) && x !in s
    ensures NoDup(s + [x]) && Elems(s + [x]) == Elems(s) + {x}
  {
    var t := s + [x];
    forall i, j | 0 <= i < j < |t| ensures t[i] != t[j] {
      if j < |s| {
        assert t[i] == s[i] && t[j] == s[j];
      } else {
        assert t[i] in s;
      }
    }
    assert forall y :: y in t <==> y in s || y == x;
  }

  function Lookup<K, V>(m: map<K, seq<V>>, k: K): seq<V> {
    if k in m then m[k] else []
  }
}
