/**
 * The JavaScript string operations the handlers rely on: `trim()` emptiness,
 * `slice(0, n)`, `split(sep)[0]`, the truthiness of an optional string,
 * rendering an integer with a template literal, and `parseInt`.
 * Characters are Unicode scalar values; JavaScript counts UTF-16 code units.
 */
module Text {
  import opened Optional

  /** The characters `String.prototype.trim` and `parseInt` skip (WhiteSpace and LineTerminator of ECMA-262). */
  predicate IsWhitespace(c: char)
  {
    || c == '\t' || c == '\n' || c == '\U{B}' || c == '\U{C}' || c == '\r' || c == ' '
    || c == '\U{A0}' || c == '\U{1680}' || ('\U{2000}' <= c <= '\U{200A}')
    || c == '\U{2028}' || c == '\U{2029}' || c == '\U{202F}' || c == '\U{205F}'
    || c == '\U{3000}' || c == '\U{FEFF}'
  }

  /** `s.trim()` is the empty string. */
  predicate IsBlank(s: string)
  {
    forall i | 0 <= i < |s| :: IsWhitespace(s[i])
  }

  /** `s` with its leading whitespace removed (`trimStart`). */
  function TrimStart(s: string): (r: string)
    ensures |r| <= |s| && r == s[|s| - |r|..]
    ensures forall i | 0 <= i < |s| - |r| :: IsWhitespace(s[i])
    ensures r == [] || !IsWhitespace(r[0])
  {
    if s != [] && IsWhitespace(s[0]) then TrimStart(s[1..]) else s
  }

  /** A string is blank exactly when nothing is left after removing leading whitespace. */
  lemma BlankIffTrimmedEmpty(s: string)
    ensures IsBlank(s) <==> TrimStart(s) == []
  {
    var r := TrimStart(s);
    if r != [] {
      assert r[0] == s[|s| - |r|];
    }
  }

  /** JavaScript truthiness of an optional string field: present and non-empty. */
  predicate Truthy(s: Option<string>)
    ensures Truthy(s) <==> s != None && s != Some("")
  {
    s.Some? && s.value != ""
  }

  /** `s.slice(0, n)`: the first `n` characters, or all of `s` when it is shorter. */
  function Take(s: string, n: nat): (r: string)
    ensures r <= s
    ensures |r| == if |s| < n then |s| else n
  {
    if |s| < n then s else s[..n]
  }

  /** `s.split(sep)[0]`: everything before the first `sep`, or all of `s` when it has none. */
  function BeforeFirst(s: string, sep: char): (r: string)
    ensures r <= s
    ensures sep !in r
    ensures |r| < |s| ==> s[|r|] == sep
  {
    if s == [] || s[0] == sep then [] else [s[0]] + BeforeFirst(s[1..], sep)
  }

  predicate IsDigit(c: char)
  {
    '0' <= c <= '9'
  }

  function DigitChar(d: nat): (c: char)
    requires d < 10
    ensures IsDigit(c)
  {
    ['0', '1', '2', '3', '4', '5', '6', '7', '8', '9'][d]
  }

  /** The decimal rendering of `n`, as `${n}` produces it. */
  function ShowNat(n: nat): (r: string)
    ensures r != []
    ensures forall i | 0 <= i < |r| :: IsDigit(r[i])
    ensures r[0] == '0' ==> r == "0"
  {
    if n < 10 then [DigitChar(n)] else ShowNat(n / 10) + [DigitChar(n % 10)]
  }

  /** The decimal rendering of an integer, with a leading `-` when negative. */
  function ShowInt(i: int): (r: string)
    ensures r != [] && !IsWhitespace(r[0])
    ensures (r[0] == '-') == (i < 0)
  {
    if i < 0 then "-" + ShowNat(-i) else ShowNat(i)
  }

  /** The value of a digit character in base 16 (which covers base 10), or 16 when it is no digit. */
  function HexDigit(c: char): (v: nat)
    ensures v <= 16
    ensures IsDigit(c) ==> v < 10
  {
    if '0' <= c <= '9' then (c as int - '0' as int) as nat
    else if 'a' <= c <= 'f' then (c as int - 'a' as int + 10) as nat
    else if 'A' <= c <= 'F' then (c as int - 'A' as int + 10) as nat
    else 16
  }

  /** The longest prefix of `s` made of digits of base `radix`. */
  function DigitRun(s: string, radix: nat): (r: string)
    ensures r <= s
    ensures forall i | 0 <= i < |r| :: HexDigit(r[i]) < radix
    ensures |r| < |s| ==> HexDigit(s[|r|]) >= radix
  {
    if s == [] || HexDigit(s[0]) >= radix then [] else [s[0]] + DigitRun(s[1..], radix)
  }

  /** The value of a run of digits in base `radix`, most significant first. */
  function Value(d: string, radix: nat): nat
  {
    if d == [] then 0 else Value(d[..|d| - 1], radix) * radix + HexDigit(d[|d| - 1])
  }

  /**
   * `parseInt(s)` with no radix argument: leading whitespace is skipped, one
   * sign is accepted, and the rest is read by `ParseUnsigned`. `None` stands
   * for NaN.
   */
  function ParseInt(s: string): (r: Option<int>)
    ensures var t := TrimStart(s);
      t == [] || !(t[0] == '-' || t[0] == '+' || IsDigit(t[0])) ==> r.None?
    ensures r.Some? && r.value < 0 ==> TrimStart(s)[0] == '-'
  {
    var t := TrimStart(s);
    if t != [] && t[0] == '-' then
      match ParseUnsigned(t[1..])
      case None => None
      case Some(n) => var v: int := n; Some(-v)
    else if t != [] && t[0] == '+' then ParseUnsigned(t[1..])
    else ParseUnsigned(t)
  }

  /**
   * The unsigned part of `parseInt`: a `0x`/`0X` prefix selects base 16, and
   * the longest run of digits after that is read; no digit at all is NaN.
   */
  function ParseUnsigned(u: string): (r: Option<nat>)
    ensures r.Some? ==> u != [] && IsDigit(u[0])
  {
    var hex := |u| >= 2 && u[0] == '0' && (u[1] == 'x' || u[1] == 'X');
    var radix := if hex then 16 else 10;
    var run := DigitRun(if hex then u[2..] else u, radix);
    if run == [] then None else Some(Value(run, radix))
  }

  /** Reading back the decimal digits of `n` gives `n`. */
  lemma {:induction false} ValueOfShowNat(n: nat)
    ensures Value(ShowNat(n), 10) == n
  {
    if n >= 10 {
      var s := ShowNat(n);
      ValueOfShowNat(n / 10);
      assert s[..|s| - 1] == ShowNat(n / 10);
    }
  }

  /** The digit run of base-`radix` digits followed by a non-digit of that base is those digits. */
  lemma {:induction false} DigitRunThen(s: string, t: string, radix: nat)
    requires forall i | 0 <= i < |s| :: HexDigit(s[i]) < radix
    requires t == [] || HexDigit(t[0]) >= radix
    ensures DigitRun(s + t, radix) == s
  {
    if s == [] {
      assert s + t == t;
    } else {
      assert (s + t)[1..] == s[1..] + t;
      DigitRunThen(s[1..], t, radix);
    }
  }

  /** `ParseUnsigned` of a rendered natural number followed by text that starts with neither a digit nor `x`/`X`. */
  lemma UnsignedShowNatThen(n: nat, t: string)
    requires t == [] || !(IsDigit(t[0]) || t[0] == 'x' || t[0] == 'X')
    ensures ParseUnsigned(ShowNat(n) + t) == Some(n)
  {
    var digits := ShowNat(n);
    var u := digits + t;
    assert t == [] || HexDigit(t[0]) >= 10;
    DigitRunThen(digits, t, 10);
    ValueOfShowNat(n);
    if |u| >= 2 && u[0] == '0' {
      assert digits == "0" && u[1] == t[0];
    }
  }

  /**
   * `0x` or `0X`, then a run of hexadecimal digits, then text that starts
   * with no hexadecimal digit: the run is read in base 16.
   */
  lemma UnsignedHexThen(x: char, d: string, t: string)
    requires x == 'x' || x == 'X'
    requires d != [] && forall i | 0 <= i < |d| :: HexDigit(d[i]) < 16
    requires t == [] || HexDigit(t[0]) >= 16
    ensures ParseUnsigned(['0', x] + (d + t)) == Some(Value(d, 16))
  {
    var u := ['0', x] + (d + t);
    assert |u| >= 2 && u[0] == '0' && u[1] == x;
    assert u[2..] == d + t;
    DigitRunThen(d, t, 16);
    assert DigitRun(u[2..], 16) == d;
  }

  /**
   * `parseInt` of a rendered natural number followed by text that starts
   * with neither a digit nor `x`/`X` reads back that number.
   */
  lemma ParseShowNatThen(n: nat, t: string)
    requires t == [] || !(IsDigit(t[0]) || t[0] == 'x' || t[0] == 'X')
    ensures ParseInt(ShowNat(n) + t) == Some(n)
  {
    var s := ShowNat(n) + t;
    assert s[0] == ShowNat(n)[0];
    assert TrimStart(s) == s;
    UnsignedShowNatThen(n, t);
  }

  /** `parseInt("-" + digits + rest)` is the negated value of the digits. */
  lemma ParseMinusShowNatThen(n: nat, t: string)
    requires t == [] || !(IsDigit(t[0]) || t[0] == 'x' || t[0] == 'X')
    ensures ParseInt("-" + (ShowNat(n) + t)) == Some(-(n as int))
  {
    var s := "-" + (ShowNat(n) + t);
    assert s[0] == '-' && s[1..] == ShowNat(n) + t;
    UnsignedShowNatThen(n, t);
    ParseMinus(s, n);
  }

  /** A text that starts with `-` parses to the negated value of what follows. */
  lemma ParseMinus(s: string, n: nat)
    requires s != [] && s[0] == '-' && ParseUnsigned(s[1..]) == Some(n)
    ensures ParseInt(s) == Some(-(n as int))
  {
    assert !IsWhitespace(s[0]);
    var t := TrimStart(s);
    assert t == s;
    assert t != [] && t[0] == '-' && t[1..] == s[1..];
  }

  /**
   * `parseInt` of a rendered integer followed by text that starts with
   * neither a digit nor `x`/`X` reads back that integer.
   */
  lemma ParseShowIntThen(i: int, t: string)
    requires t == [] || !(IsDigit(t[0]) || t[0] == 'x' || t[0] == 'X')
    ensures ParseInt(ShowInt(i) + t) == Some(i)
  {
    if i < 0 {
      var n: nat := -i;
      assert ShowInt(i) + t == "-" + (ShowNat(n) + t);
      ParseMinusShowNatThen(n, t);
    } else {
      var n: nat := i;
      assert ShowInt(i) + t == ShowNat(n) + t;
      ParseShowNatThen(n, t);
    }
  }

  /** `parseInt(`${i}`)` is `i`: rendering an integer and parsing it back is the identity. */
  lemma ParseShowInt(i: int)
    ensures ParseInt(ShowInt(i)) == Some(i)
  {
    assert ShowInt(i) + [] == ShowInt(i);
    ParseShowIntThen(i, []);
  }
}
