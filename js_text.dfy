/**
 * The few JavaScript string operations the core relies on, with the
 * behaviour the language gives them: `s.split(c)`, `parseInt(s, 10)`
 * (NaN as None), the decimal text of a non-negative integer (as in a
 * template literal) and `toLowerCase` on ASCII letters.
 */
module JsText {
  import opened Wrappers

  // ---------------------------------------------------------------- split

  /** The index of the first c in s, if any. */
  function IndexOf(s: string, c: char): (ix: Option<nat>)
    ensures ix.Some? ==> ix.value < |s| && s[ix.value] == c && c !in s[..ix.value]
    ensures ix.None? ==> c !in s
  {
    if s == [] then None
    else if s[0] == c then Some(0)
    else match IndexOf(s[1..], c)
      case None => None
      case Some(i) => assert s[..i + 1] == [s[0]] + s[1..][..i]; Some(i + 1)
  }

  /** `s.split(c)` for a one-character separator: the pieces between occurrences of c, at least one. */
  function Split(s: string, c: char): (pieces: seq<string>)
    ensures |pieces| >= 1
    ensures forall k :: 0 <= k < |pieces| ==> c !in pieces[k]
    decreases |s|
  {
    match IndexOf(s, c)
    case None => [s]
    case Some(i) => [s[..i]] + Split(s[i + 1..], c)
  }

  /** `s.split(c)[1]`: the second piece, or undefined (None) when c does not occur. */
  function SecondPiece(s: string, c: char): (p: Option<string>)
    ensures p.None? <==> c !in s
  {
    var pieces := Split(s, c);
    if |pieces| > 1 then Some(pieces[1]) else None
  }

  lemma SecondPieceAfterPrefix(prefix: string, c: char, rest: string)
    requires c !in prefix && c !in rest
    ensures SecondPiece(prefix + [c] + rest, c) == Some(rest)
  {
    var s := prefix + [c] + rest;
    assert s[..|prefix|] == prefix;
    assert s[|prefix| + 1..] == rest;
    IndexOfAfterPrefix(prefix, c, rest);
    assert Split(rest, c) == [rest];
    assert Split(s, c) == [prefix] + Split(rest, c);
  }

  lemma IndexOfAfterPrefix(prefix: string, c: char, rest: string)
    requires c !in prefix
    ensures IndexOf(prefix + [c] + rest, c) == Some(|prefix|)
  {
    var s := prefix + [c] + rest;
    var ix := IndexOf(s, c);
    assert s[|prefix|] == c;
    forall j | 0 <= j < |prefix|
      ensures s[j] != c
    {
      assert s[j] == prefix[j];
    }
  }

  // ---------------------------------------------------------------- decimal numbers

  predicate IsDigit(ch: char)
  {
    '0' <= ch <= '9'
  }

  function DigitValue(ch: char): nat
    requires IsDigit(ch)
  {
    (ch as int - '0' as int) as nat
  }

  function DigitChar(d: nat): (ch: char)
    requires d < 10
    ensures IsDigit(ch) && DigitValue(ch) == d
  {
    ('0' as int + d) as char
  }

  /** The decimal text of n, as `${n}` prints it: no sign, no leading zeros. */
  function Decimal(n: nat): (s: string)
    ensures |s| >= 1 && forall k :: 0 <= k < |s| ==> IsDigit(s[k])
    decreases n
  {
    if n < 10 then [DigitChar(n)] else Decimal(n / 10) + [DigitChar(n % 10)]
  }

  /** The value of a string of digits. */
  function DigitsValue(s: string): nat
    requires forall k :: 0 <= k < |s| ==> IsDigit(s[k])
    decreases |s|
  {
    if s == [] then 0 else DigitsValue(s[..|s| - 1]) * 10 + DigitValue(s[|s| - 1])
  }

  lemma {:induction false} DecimalValue(n: nat)
    ensures DigitsValue(Decimal(n)) == n
    decreases n
  {
    if n >= 10 {
      DecimalValue(n / 10);
      var s := Decimal(n);
      assert s[..|s| - 1] == Decimal(n / 10);
    }
  }

  /** The number of leading characters of s that are digits. */
  function DigitRun(s: string): (k: nat)
    ensures k <= |s| && forall j :: 0 <= j < k ==> IsDigit(s[j])
    ensures k < |s| ==> !IsDigit(s[k])
  {
    if s == [] || !IsDigit(s[0]) then 0 else 1 + DigitRun(s[1..])
  }

  lemma {:induction false} DigitRunOfDigits(s: string)
    requires forall k :: 0 <= k < |s| ==> IsDigit(s[k])
    ensures DigitRun(s) == |s|
  {
    if s != [] {
      DigitRunOfDigits(s[1..]);
    }
  }

  /** The characters parseInt skips before the number (ASCII whitespace). */
  predicate IsSpace(ch: char)
  {
    ch == ' ' || ch == '\t' || ch == '\n' || ch == '\r' || ch == '\U{B}' || ch == '\U{C}'
  }

  function TrimStart(s: string): (t: string)
    ensures |t| <= |s| && t == s[|s| - |t|..]
    ensures t != [] ==> !IsSpace(t[0])
  {
    if s != [] && IsSpace(s[0]) then TrimStart(s[1..]) else s
  }

  /**
   * `parseInt(s, 10)`: leading whitespace, an optional sign, then the
   * longest run of digits; NaN (None) when there is no digit.
   */
  function ParseInt(s: string): (v: Option<int>)
    ensures (forall k :: 0 <= k < |s| ==> !IsDigit(s[k])) ==> v.None?
    ensures s != [] && IsDigit(s[0]) ==> v.Some? && v.value >= 0
  {
    var t := TrimStart(s);
    var neg := t != [] && t[0] == '-';
    var body := if t != [] && (t[0] == '-' || t[0] == '+') then t[1..] else t;
    var k := DigitRun(body);
    if k == 0 then None
    else
      var magnitude: int := DigitsValue(body[..k]);
      Some(if neg then -magnitude else magnitude)
  }

  /** parseInt of a non-empty run of digits is the value of those digits. */
  lemma ParseDigits(s: string)
    requires s != [] && forall k :: 0 <= k < |s| ==> IsDigit(s[k])
    ensures ParseInt(s) == Some(DigitsValue(s))
  {
    assert !IsSpace(s[0]) && s[0] != '-' && s[0] != '+' by {
      assert IsDigit(s[0]);
    }
    var t := TrimStart(s);
    assert t == s;
    DigitRunOfDigits(s);
    assert s[..DigitRun(s)] == s;
  }

  /** parseInt reads back the decimal text of any non-negative integer. */
  lemma ParseDecimal(n: nat)
    ensures ParseInt(Decimal(n)) == Some(n)
  {
    ParseDigits(Decimal(n));
    DecimalValue(n);
  }

  // ---------------------------------------------------------------- case

  /** `toLowerCase` on ASCII: A-Z become a-z, every other character stays. */
  function ToLower(s: string): (t: string)
    ensures |t| == |s|
    ensures forall k :: 0 <= k < |s| ==>
      t[k] == if 'A' <= s[k] <= 'Z' then (s[k] as int + 32) as char else s[k]
  {
    seq(|s|, k requires 0 <= k < |s| => if 'A' <= s[k] <= 'Z' then (s[k] as int + 32) as char else s[k])
  }

  lemma ToLowerIdempotent(s: string)
    ensures ToLower(ToLower(s)) == ToLower(s)
  {
  }
}
