/**
 * Shared vocabulary: optional values, the JavaScript character classes the
 * application's regular expressions use, the string helpers it calls
 * (`trim`, `toUpperCase`, `replace`), decimal numerals and `parseInt`.
 */
module Common {

  datatype Option<T> = None | Some(value: T)

  /** Supabase row ids (UUIDs or other text keys). */
  type Id = string

  /** Milliseconds in one day, `1000 * 60 * 60 * 24`. */
  const DAY_MS: int := 86_400_000

  // ---------------------------------------------------------------- characters

  /** `\d` in a JavaScript regular expression: the ASCII digits only. */
  predicate IsDigit(c: char) { '0' <= c <= '9' }

  /** `[A-Z]`. */
  predicate IsUpper(c: char) { 'A' <= c <= 'Z' }

  /** `[a-z]`. */
  predicate IsLower(c: char) { 'a' <= c <= 'z' }

  /** `[A-Z0-9]`. */
  predicate IsUpperAlnum(c: char) { IsUpper(c) || IsDigit(c) }

  /**
   * `\s` in a JavaScript regular expression, which is also the set of
   * characters `String.prototype.trim` strips.
   */
  predicate IsSpace(c: char) {
    c == ' ' || c == '\t' || c == '\n' || c == '\r' || c == '\U{000B}' || c == '\U{000C}'
    || c == '\U{00A0}' || c == '\U{1680}' || ('\U{2000}' <= c <= '\U{200A}')
    || c == '\U{2028}' || c == '\U{2029}' || c == '\U{202F}' || c == '\U{205F}'
    || c == '\U{3000}' || c == '\U{FEFF}'
  }

  /** `toUpperCase` on one character, restricted to the ASCII letters. */
  function UpperChar(c: char): (r: char)
    ensures IsLower(c) ==> IsUpper(r)
    ensures !IsLower(c) ==> r == c
  {
    if IsLower(c) then (c as int - 32) as char else c
  }

  /** `toLowerCase` on one character, restricted to the ASCII letters. */
  function LowerChar(c: char): (r: char)
    ensures IsUpper(c) ==> IsLower(r)
    ensures !IsUpper(c) ==> r == c
  {
    if IsUpper(c) then (c as int + 32) as char else c
  }

  // ------------------------------------------------------------------- strings

  function ToUpper(s: string): (r: string)
    ensures |r| == |s|
    ensures forall i :: 0 <= i < |s| ==> r[i] == UpperChar(s[i])
  {
    seq(|s|, i requires 0 <= i < |s| => UpperChar(s[i]))
  }

  function ToLower(s: string): (r: string)
    ensures |r| == |s|
    ensures forall i :: 0 <= i < |s| ==> r[i] == LowerChar(s[i])
  {
    seq(|s|, i requires 0 <= i < |s| => LowerChar(s[i]))
  }

  /** Every character of `s` is whitespace (true of the empty string). */
  predicate AllSpace(s: string) { forall i :: 0 <= i < |s| ==> IsSpace(s[i]) }

  function TrimStart(s: string): (r: string)
    ensures |r| <= |s| && r == s[|s| - |r|..]
    ensures |r| > 0 ==> !IsSpace(r[0])
    ensures AllSpace(s[..|s| - |r|])
    decreases |s|
  {
    if |s| > 0 && IsSpace(s[0]) then TrimStart(s[1..]) else s
  }

  function TrimEnd(s: string): (r: string)
    ensures |r| <= |s| && r == s[..|r|]
    ensures |r| > 0 ==> !IsSpace(r[|r| - 1])
    ensures AllSpace(s[|r|..])
    decreases |s|
  {
    if |s| > 0 && IsSpace(s[|s| - 1]) then TrimEnd(s[..|s| - 1]) else s
  }

  /** `String.prototype.trim`. */
  function Trim(s: string): string { TrimEnd(TrimStart(s)) }

  /** `!s.trim()`: the string is empty once trimmed. */
  predicate Blank(s: string) { Trim(s) == "" }

  /** A string is blank exactly when it consists of whitespace only. */
  lemma BlankIffAllSpace(s: string)
    ensures Blank(s) <==> AllSpace(s)
  {
    var t := TrimStart(s);
    if Blank(s) {
      assert s == s[..|s| - |t|];
    }
  }

  /** `s.startsWith(p)`. */
  predicate StartsWith(s: string, p: string) { |p| <= |s| && s[..|p|] == p }

  /** `s.replace(/\D/g, '')`: the digits of `s`, in order. */
  function Digits(s: string): (r: string)
    ensures |r| <= |s|
    ensures forall i :: 0 <= i < |r| ==> IsDigit(r[i])
    decreases |s|
  {
    if |s| == 0 then ""
    else (if IsDigit(s[0]) then [s[0]] else "") + Digits(s[1..])
  }

  /**
   * Every digit of `s` is kept, in order: the result is a subsequence of
   * `s` holding each digit as often as `s` does, and nothing else.
   */
  lemma {:induction false} DigitsKept(s: string)
    ensures Subsequence(Digits(s), s)
    ensures forall c :: multiset(Digits(s))[c] == if IsDigit(c) then multiset(s)[c] else 0
    decreases |s|
  {
    if |s| > 0 {
      DigitsKept(s[1..]);
      var t := Digits(s[1..]);
      assert s == [s[0]] + s[1..];
      if IsDigit(s[0]) {
        assert Digits(s) == [s[0]] + t;
        assert ([s[0]] + t)[1..] == t;
      } else {
        assert Digits(s) == t;
        SubsequenceDrop(t, s);
      }
    }
  }

  /** `s.replace(c, '')` with a one-character string pattern: only the first occurrence goes. */
  function ReplaceFirst(s: string, c: char): (r: string)
    ensures c in s ==> |r| == |s| - 1
    ensures c !in s ==> r == s
    decreases |s|
  {
    if |s| == 0 then s
    else if s[0] == c then s[1..]
    else [s[0]] + ReplaceFirst(s[1..], c)
  }

  /** `r` is `s` without its character at `k`, the first occurrence of `c`. */
  predicate RemovedAt(s: string, c: char, k: int, r: string) {
    0 <= k < |s| && s[k] == c && c !in s[..k] && r == s[..k] + s[k + 1..]
  }

  /** The character removed is the first occurrence of `c`, and the rest is kept around it. */
  lemma {:induction false} ReplaceFirstRemovesFirst(s: string, c: char)
    requires c in s
    ensures exists k :: RemovedAt(s, c, k, ReplaceFirst(s, c))
    decreases |s|
  {
    if s[0] == c {
      assert s[..0] + s[1..] == s[1..];
      assert RemovedAt(s, c, 0, ReplaceFirst(s, c));
    } else {
      assert c in s[1..] by {
        var i :| 0 <= i < |s| && s[i] == c;
        assert s[1..][i - 1] == c;
      }
      ReplaceFirstRemovesFirst(s[1..], c);
      var k :| RemovedAt(s[1..], c, k, ReplaceFirst(s[1..], c));
      RemovedAtCons(s, c, k);
    }
  }

  /** Removing past a first character that is not `c` keeps that character in front. */
  lemma RemovedAtCons(s: string, c: char, k: int)
    requires |s| > 0 && s[0] != c && RemovedAt(s[1..], c, k, ReplaceFirst(s[1..], c))
    ensures RemovedAt(s, c, k + 1, ReplaceFirst(s, c))
  {
    var t := s[1..];
    assert s[..k + 1] == [s[0]] + t[..k];
    assert s[k + 2..] == t[k + 1..];
    assert ReplaceFirst(s, c) == [s[0]] + ReplaceFirst(t, c);
  }

  // ------------------------------------------------------------ decimal numerals

  predicate AllDigits(s: string) { forall i :: 0 <= i < |s| ==> IsDigit(s[i]) }

  function DigitChar(d: nat): (c: char)
    requires d < 10
    ensures IsDigit(c)
  {
    ('0' as int + d) as char
  }

  function DigitValue(c: char): (d: nat)
    requires IsDigit(c)
    ensures d < 10 && DigitChar(d) == c
  {
    c as int - '0' as int
  }

  /** The decimal numeral of `n`, as `String(n)` writes a non-negative integer. */
  function Show(n: nat): (s: string)
    ensures |s| >= 1 && AllDigits(s)
    ensures |s| > 1 ==> s[0] != '0'
    decreases n
  {
    if n < 10 then [DigitChar(n)] else Show(n / 10) + [DigitChar(n % 10)]
  }

  /** The value of a string of decimal digits (0 for the empty string). */
  function ReadDigits(s: string): nat
    requires AllDigits(s)
    decreases |s|
  {
    if |s| == 0 then 0 else ReadDigits(s[..|s| - 1]) * 10 + DigitValue(s[|s| - 1])
  }

  /** Reading back a numeral gives the number that was shown. */
  lemma {:induction false} ReadShow(n: nat)
    ensures ReadDigits(Show(n)) == n
    decreases n
  {
    if n >= 10 {
      var s := Show(n);
      assert s[..|s| - 1] == Show(n / 10);
      ReadShow(n / 10);
    }
  }

  /** The longest prefix of `s` made of decimal digits. */
  function DigitPrefix(s: string): (r: string)
    ensures |r| <= |s| && r == s[..|r|] && AllDigits(r)
    ensures |r| < |s| ==> !IsDigit(s[|r|])
    decreases |s|
  {
    if |s| > 0 && IsDigit(s[0]) then [s[0]] + DigitPrefix(s[1..]) else ""
  }

  /** A hexadecimal digit, in either case. */
  predicate IsHexDigit(c: char) {
    IsDigit(c) || 'a' <= c <= 'f' || 'A' <= c <= 'F'
  }

  function HexValue(c: char): (d: nat)
    requires IsHexDigit(c)
    ensures d < 16
    ensures IsDigit(c) ==> d == DigitValue(c)
  {
    if IsDigit(c) then c as int - '0' as int
    else if 'a' <= c <= 'f' then c as int - 'a' as int + 10
    else c as int - 'A' as int + 10
  }

  predicate AllHexDigits(s: string) { forall i :: 0 <= i < |s| ==> IsHexDigit(s[i]) }

  /** The longest prefix of `s` made of hexadecimal digits. */
  function HexPrefix(s: string): (r: string)
    ensures |r| <= |s| && r == s[..|r|] && AllHexDigits(r)
    ensures |r| < |s| ==> !IsHexDigit(s[|r|])
    decreases |s|
  {
    if |s| > 0 && IsHexDigit(s[0]) then [s[0]] + HexPrefix(s[1..]) else ""
  }

  /** The value of a string of hexadecimal digits (0 for the empty string). */
  function ReadHex(s: string): nat
    requires AllHexDigits(s)
    decreases |s|
  {
    if |s| == 0 then 0 else ReadHex(s[..|s| - 1]) * 16 + HexValue(s[|s| - 1])
  }

  /** Without a radix, `parseInt` reads base 16 after a `0x` or `0X` prefix. */
  predicate HexLed(body: string) {
    |body| >= 2 && body[0] == '0' && (body[1] == 'x' || body[1] == 'X')
  }

  /**
   * `parseInt(s)` without a radix: skip leading whitespace and take an
   * optional sign; after a `0x` or `0X` prefix take the longest run of
   * hexadecimal digits, otherwise the longest run of decimal digits;
   * `NaN` (here `None`) when the run is empty.
   */
  function ParseInt(s: string): (r: Option<int>)
    ensures !HexLed(SignFree(TrimStart(s))) ==> (r.None? <==> DigitPrefix(SignFree(TrimStart(s))) == "")
    ensures HexLed(SignFree(TrimStart(s))) ==> (r.None? <==> HexPrefix(SignFree(TrimStart(s))[2..]) == "")
  {
    var body := SignFree(TrimStart(s));
    var negative := |TrimStart(s)| > 0 && TrimStart(s)[0] == '-';
    var magnitude: Option<nat> :=
      if HexLed(body) then
        var hs := HexPrefix(body[2..]);
        if |hs| == 0 then None else Some(ReadHex(hs))
      else
        var ds := DigitPrefix(body);
        if |ds| == 0 then None else Some(ReadDigits(ds));
    if magnitude.None? then None
    else if negative then Some(-(magnitude.value as int))
    else Some(magnitude.value)
  }

  /** The hexadecimal prefix at work: "0x3" is 3, "-0X1a" is -26, and "0x" alone is `NaN`. */
  lemma ParseIntHexExamples()
    ensures ParseInt("0x3") == Some(3)
    ensures ParseInt("-0X1a") == Some(-26)
    ensures ParseInt("0x") == None
  {
    HexThree();
    HexMinusTwentySix();
    HexEmpty("0x");
  }

  lemma HexThree()
    ensures ParseInt("0x3") == Some(3)
  {
    var a := "0x3";
    assert a[2..] == "3";
    HexExample(a, a, "3", 3);
  }

  lemma HexMinusTwentySix()
    ensures ParseInt("-0X1a") == Some(-26)
  {
    var b := "-0X1a";
    var body := "0X1a";
    assert b[1..] == body && body[2..] == "1a";
    assert "1a"[..1] == "1";
    assert ReadHex("1a") == 26;
    HexExample(b, body, "1a", 26);
  }

  /** How `parseInt` reads `s` when its signed body is `0x` and hexadecimal digits only. */
  lemma HexExample(s: string, body: string, hs: string, v: nat)
    requires |s| > 0 && !IsSpace(s[0])
    requires SignFree(s) == body && HexLed(body) && body[2..] == hs
    requires |hs| > 0 && AllHexDigits(hs) && ReadHex(hs) == v
    ensures ParseInt(s) == if s[0] == '-' then Some(-(v as int)) else Some(v)
  {
    assert TrimStart(s) == s;
    HexPrefixAll(hs);
  }

  /** A `0x` prefix with nothing after it is `NaN`. */
  lemma HexEmpty(s: string)
    requires |s| == 2 && HexLed(s)
    ensures ParseInt(s) == None
  {
    assert TrimStart(s) == s by {
      assert !IsSpace(s[0]);
    }
  }

  lemma {:induction false} HexPrefixAll(hs: string)
    requires AllHexDigits(hs)
    ensures HexPrefix(hs) == hs
    decreases |hs|
  {
    if |hs| > 0 {
      HexPrefixAll(hs[1..]);
    }
  }

  /** `s` without one leading sign character. */
  function SignFree(s: string): string {
    if |s| > 0 && (s[0] == '-' || s[0] == '+') then s[1..] else s
  }

  /**
   * `parseInt` reads a numeral followed by anything that does not start with
   * a digit and, after a lone 0, does not start with `x` or `X`.
   */
  lemma ParseIntShow(n: nat, rest: string)
    requires |rest| > 0 ==> !IsDigit(rest[0])
    requires n != 0 || |rest| == 0 || (rest[0] != 'x' && rest[0] != 'X')
    ensures ParseInt(Show(n) + rest) == Some(n)
  {
    var s := Show(n) + rest;
    assert TrimStart(s) == s by {
      assert !IsSpace(s[0]);
    }
    assert SignFree(s) == s;
    assert !HexLed(s) by {
      if n < 10 {
        assert Show(n) == [DigitChar(n)];
        if n == 0 && |rest| > 0 {
          assert s[1] == rest[0];
        }
      }
    }
    DigitPrefixOf(Show(n), rest);
    ReadShow(n);
  }

  lemma {:induction false} DigitPrefixOf(ds: string, rest: string)
    requires AllDigits(ds)
    requires |rest| > 0 ==> !IsDigit(rest[0])
    ensures DigitPrefix(ds + rest) == ds
    decreases |ds|
  {
    if |ds| > 0 {
      assert (ds + rest)[1..] == ds[1..] + rest;
      DigitPrefixOf(ds[1..], rest);
    }
  }

  /** `String(i)` for any integer: a minus sign before the numeral of a negative value. */
  function ShowInt(i: int): (s: string)
    ensures |s| >= 1
  {
    if i < 0 then "-" + Show(-i) else Show(i)
  }

  /** `parseInt` inverts `String` on integers. */
  lemma ParseIntShowInt(i: int)
    ensures ParseInt(ShowInt(i)) == Some(i)
  {
    if i < 0 {
      ParseIntNegative(i);
    } else {
      ParseIntNatural(i);
    }
  }

  lemma ParseIntNatural(n: nat)
    ensures ParseInt(ShowInt(n)) == Some(n)
  {
    assert Show(n) + "" == Show(n);
    ParseIntShow(n, "");
  }

  lemma ParseIntNegative(i: int)
    requires i < 0
    ensures ParseInt(ShowInt(i)) == Some(i)
  {
    var n: nat := -i;
    var s := ShowInt(i);
    assert s == "-" + Show(n);
    ReadShow(n);
    MinusNumeral(Show(n));
    ParseIntMinus(s, Show(n), n);
  }

  /** The facts `parseInt` needs about a minus sign followed by digits. */
  lemma MinusNumeral(ds: string)
    requires |ds| > 0 && AllDigits(ds)
    ensures TrimStart("-" + ds) == "-" + ds && ("-" + ds)[0] == '-'
    ensures SignFree("-" + ds) == ds && DigitPrefix(ds) == ds
  {
    var s := "-" + ds;
    assert TrimStart(s) == s by {
      assert s[0] == '-';
    }
    assert SignFree(s) == ds by {
      assert s[1..] == ds;
    }
    assert DigitPrefix(ds) == ds by {
      DigitPrefixOf(ds, "");
      assert ds + "" == ds;
    }
  }

  lemma ParseIntMinus(s: string, ds: string, v: nat)
    requires |s| > 0 && s[0] == '-' && TrimStart(s) == s && SignFree(s) == ds
    requires |ds| > 0 && DigitPrefix(ds) == ds && ReadDigits(ds) == v && !HexLed(ds)
    ensures ParseInt(s) == Some(-(v as int))
  {
  }

  /** `s.padStart(2, '0')`. */
  function PadTwo(s: string): (r: string)
    ensures |s| < 2 ==> |r| == 2
    ensures |s| >= 2 ==> r == s
  {
    if |s| == 0 then "00" else if |s| == 1 then "0" + s else s
  }

  // ------------------------------------------------------------------- sets

  /** A subset is no larger than its superset. */
  lemma {:induction false} SubsetCard<T>(a: set<T>, b: set<T>)
    requires a <= b
    ensures |a| <= |b|
    decreases |b|
  {
    if a != {} {
      var x :| x in a;
      SubsetCard(a - {x}, b - {x});
    }
  }

  // ------------------------------------------------------------ filters, counts

  /** `rows.filter(r => key(r) === want)`, keeping the order of `rows`. */
  function FilterBy<R(==,!new), S(==)>(rows: seq<R>, key: R -> S, want: S): (r: seq<R>)
    ensures |r| <= |rows|
    ensures forall x :: x in r <==> x in rows && key(x) == want
    decreases |rows|
  {
    if |rows| == 0 then []
    else (if key(rows[0]) == want then [rows[0]] else []) + FilterBy(rows[1..], key, want)
  }

  /** `rows.filter(r => key(r) === want).length`. */
  function CountBy<R(==,!new), S(==)>(rows: seq<R>, key: R -> S, want: S): nat {
    |FilterBy(rows, key, want)|
  }

  /**
   * With a key that takes one of three distinct values, the three counts add
   * up to the number of rows.
   */
  lemma {:induction false} CountByThree<R(!new), S>(rows: seq<R>, key: R -> S, a: S, b: S, c: S)
    requires a != b && b != c && a != c
    requires forall x :: key(x) == a || key(x) == b || key(x) == c
    ensures CountBy(rows, key, a) + CountBy(rows, key, b) + CountBy(rows, key, c) == |rows|
    decreases |rows|
  {
    if |rows| > 0 {
      CountByThree(rows[1..], key, a, b, c);
    }
  }

  /** An order-preserving selection: `sub` is `rows` with some elements dropped. */
  predicate Subsequence<R(==)>(sub: seq<R>, rows: seq<R>)
    decreases |rows|
  {
    if |sub| == 0 then true
    else if |rows| == 0 then false
    else if sub[0] == rows[0] then Subsequence(sub[1..], rows[1..])
    else Subsequence(sub, rows[1..])
  }

  /** The filter keeps the relative order of the rows it selects. */
  lemma {:induction false} FilterBySubsequence<R(!new), S>(rows: seq<R>, key: R -> S, want: S)
    ensures Subsequence(FilterBy(rows, key, want), rows)
    decreases |rows|
  {
    if |rows| > 0 {
      FilterBySubsequence(rows[1..], key, want);
      var tail := FilterBy(rows[1..], key, want);
      if key(rows[0]) == want {
        assert FilterBy(rows, key, want) == [rows[0]] + tail;
        assert ([rows[0]] + tail)[1..] == tail;
      } else {
        assert FilterBy(rows, key, want) == tail;
        SubsequenceDrop(tail, rows);
      }
    }
  }

  lemma {:induction false} SubsequenceDrop<R>(sub: seq<R>, rows: seq<R>)
    requires |rows| > 0 && Subsequence(sub, rows[1..])
    ensures Subsequence(sub, rows)
    decreases |rows|, |sub|
  {
    if |sub| > 0 && sub[0] == rows[0] {
      // Subsequence(sub, rows[1..]) with sub[0] == rows[0]: drop sub[0] too.
      SubsequenceTail(sub, rows[1..]);
    }
  }

  lemma {:induction false} SubsequenceTail<R>(sub: seq<R>, rows: seq<R>)
    requires |sub| > 0 && Subsequence(sub, rows)
    ensures Subsequence(sub[1..], rows)
    decreases |rows|, |sub|
  {
    if |rows| > 0 {
      if sub[0] == rows[0] {
        SubsequenceDrop(sub[1..], rows);
      } else {
        SubsequenceTail(sub, rows[1..]);
        SubsequenceDrop(sub[1..], rows);
      }
    }
  }
}
