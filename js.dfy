/** The slice of JavaScript value semantics that the proxy and its log store rely on:
    truthiness and `||`, `String(v)`, `parseInt`, `String.prototype.trim`,
    `replace` of a one-character pattern, `split`/`join` on one character,
    ASCII case mapping, and the UTF-8 byte length that `Buffer.byteLength` reports. */
module Js {

  datatype Option<+T> = None | Some(value: T)

  /** A JavaScript value. Numbers are restricted to integers (and NaN); an object is the list of
      its own enumerable properties in `Object.keys` order, so its keys are distinct. */
  datatype Value =
    | Undefined
    | Null
    | Bool(b: bool)
    | Num(n: int)
    | NaN
    | Str(s: string)
    | Arr(items: seq<Value>)
    | Obj(entries: seq<(string, Value)>)

  /** ToBoolean: the falsy values are undefined, null, false, 0, NaN and the empty string. */
  predicate Truthy(v: Value)
  {
    match v
    case Undefined => false
    case Null => false
    case Bool(b) => b
    case Num(n) => n != 0
    case NaN => false
    case Str(s) => s != ""
    case Arr(_) => true
    case Obj(_) => true
  }

  /** `a || b` */
  function Or(a: Value, b: Value): Value
  {
    if Truthy(a) then a else b
  }

  /** `obj[key]` for a plain object: the property's value, or undefined when it has none. */
  function Get(obj: Value, key: string): Value
  {
    if obj.Obj? then Lookup(obj.entries, key) else Undefined
  }

  function Lookup(entries: seq<(string, Value)>, key: string): Value
  {
    if entries == [] then Undefined
    else if entries[0].0 == key then entries[0].1
    else Lookup(entries[1..], key)
  }

  // ---------------------------------------------------------------------------
  // Numbers to text and back

  function DigitChar(d: nat): char
    requires d < 10
  {
    ('0' as int + d) as char
  }

  /** Decimal digits of a natural number, without leading zeros. */
  function NatToString(n: nat): (s: string)
    ensures |s| >= 1
    ensures forall i :: 0 <= i < |s| ==> '0' <= s[i] <= '9'
    ensures |s| > 1 ==> s[0] != '0'
  {
    if n < 10 then [DigitChar(n)] else NatToString(n / 10) + [DigitChar(n % 10)]
  }

  /** `String(n)` for an integer-valued number. */
  function Decimal(n: int): string
  {
    if n < 0 then "-" + NatToString(-n) else NatToString(n)
  }

  /** `String(v)` */
  function Show(v: Value): string
  {
    match v
    case Undefined => "undefined"
    case Null => "null"
    case Bool(b) => if b then "true" else "false"
    case Num(n) => Decimal(n)
    case NaN => "NaN"
    case Str(s) => s
    case Arr(items) =>
      // Array.prototype.join(","): null and undefined elements print as ""
      Join(seq(|items|, i requires 0 <= i < |items| =>
        if items[i].Undefined? || items[i].Null? then "" else Show(items[i])), ',')
    case Obj(_) => "[object Object]"
  }

  /** The value of a digit in radices up to 36, or 36 when the character is not a digit. */
  function DigitValue(c: char): nat
  {
    if '0' <= c <= '9' then c as int - '0' as int
    else if 'a' <= c <= 'z' then c as int - 'a' as int + 10
    else if 'A' <= c <= 'Z' then c as int - 'A' as int + 10
    else 36
  }

  /** The longest prefix of `s` made of digits of the given radix. */
  function DigitPrefix(s: string, radix: nat): (z: string)
    ensures z <= s
    ensures forall i :: 0 <= i < |z| ==> DigitValue(z[i]) < radix
    ensures |z| < |s| ==> DigitValue(s[|z|]) >= radix
  {
    if s != [] && DigitValue(s[0]) < radix then [s[0]] + DigitPrefix(s[1..], radix) else []
  }

  /** The number a digit string denotes in the given radix. */
  function DigitsValue(z: string, radix: nat): nat
    requires forall i :: 0 <= i < |z| ==> DigitValue(z[i]) < radix
  {
    if z == [] then 0
    else
      var init := z[..|z| - 1];
      assert forall i :: 0 <= i < |init| ==> init[i] == z[i];
      DigitsValue(init, radix) * radix + DigitValue(z[|z| - 1])
  }

  /** The digits after the sign: hexadecimal after a `0x`/`0X` prefix, decimal otherwise, read up to
      the first character that is not a digit; NaN when there is no digit. */
  function ParseMagnitude(u: string): (r: Value)
    ensures r.NaN? || (r.Num? && r.n >= 0)
  {
    var hex := |u| >= 2 && u[0] == '0' && (u[1] == 'x' || u[1] == 'X');
    var radix := if hex then 16 else 10;
    var z := DigitPrefix(if hex then u[2..] else u, radix);
    if z == [] then NaN else Num(DigitsValue(z, radix))
  }

  /** `parseInt(s)` with no radix (ECMAScript section 19.2.5): skip leading white space, take an
      optional sign, then read the magnitude. */
  function ParseIntString(s: string): (r: Value)
    ensures r.Num? || r.NaN?
  {
    var t := TrimStart(s);
    if t != [] && t[0] == '-' then
      (match ParseMagnitude(t[1..]) case Num(m) => Num(-m) case other => other)
    else if t != [] && t[0] == '+' then ParseMagnitude(t[1..])
    else ParseMagnitude(t)
  }

  /** `parseInt(v)`: the argument is converted with `String` first. */
  function ParseInt(v: Value): (r: Value)
    ensures r.Num? || r.NaN?
  {
    ParseIntString(Show(v))
  }

  /** `parseInt(v) || d`: the parsed integer, or `d` when parsing gives NaN or zero. */
  function ParsedOr(v: Value, d: int): (r: int)
    ensures ParseInt(v).Num? && ParseInt(v).n != 0 ==> r == ParseInt(v).n
    ensures ParseInt(v).NaN? || ParseInt(v) == Num(0) ==> r == d
  {
    match ParseInt(v)
    case Num(n) => if n != 0 then n else d
    case _ => d
  }

  lemma {:induction false} DigitsValueOfNatString(n: nat)
    ensures DigitsValue(NatToString(n), 10) == n
  {
    if n >= 10 {
      var s, p := NatToString(n), NatToString(n / 10);
      DigitsValueOfNatString(n / 10);
      assert s == p + [DigitChar(n % 10)];
      assert s[..|s| - 1] == p;
      assert DigitValue(s[|s| - 1]) == n % 10;
      assert DigitsValue(s, 10) == DigitsValue(p, 10) * 10 + n % 10;
    }
  }

  lemma {:induction false} DigitPrefixOfDigits(s: string, radix: nat)
    requires forall i :: 0 <= i < |s| ==> DigitValue(s[i]) < radix
    ensures DigitPrefix(s, radix) == s
  {
    if s != [] {
      DigitPrefixOfDigits(s[1..], radix);
    }
  }

  lemma MagnitudeOfNatString(m: nat)
    ensures ParseMagnitude(NatToString(m)) == Num(m)
  {
    var digits := NatToString(m);
    assert !(|digits| >= 2 && digits[0] == '0');
    DigitPrefixOfDigits(digits, 10);
    DigitsValueOfNatString(m);
  }

  /** parseInt reads back exactly the integer that `String` printed. */
  lemma ParseIntDecimal(n: int)
    ensures ParseIntString(Decimal(n)) == Num(n)
  {
    var s := Decimal(n);
    var d := NatToString(if n < 0 then -n else n);
    assert '0' <= d[0] <= '9';
    assert s[0] == '-' || s[0] == d[0];
    assert !IsSpace(s[0]);
    TrimStartIdle(s);
    MagnitudeOfNatString(if n < 0 then -n else n);
    if n < 0 {
      assert s[1..] == d;
    } else {
      assert s == d && s[0] != '-' && s[0] != '+';
    }
  }

  /** parseInt of an integer-valued number gives that number back. */
  lemma ParseIntNum(n: int)
    ensures ParseInt(Num(n)) == Num(n)
    ensures ParsedOr(Num(n), 1) == (if n != 0 then n else 1)
  {
    ParseIntDecimal(n);
  }

  /** Text that starts with a letter holds no number. */
  lemma ParseIntLetter(s: string)
    requires s != [] && 'A' <= s[0] <= 'Z'
    ensures ParseIntString(s) == NaN
  {
    TrimStartIdle(s);
    assert DigitValue(s[0]) >= 10;
    assert DigitPrefix(s, 10) == [];
  }

  /** parseInt of NaN reads the text "NaN" and gives NaN again. */
  lemma ParseIntNaN()
    ensures ParseInt(NaN) == NaN
  {
    ParseIntLetter(Show(NaN));
  }

  // ---------------------------------------------------------------------------
  // Strings

  /** ECMAScript WhiteSpace and LineTerminator code points: what `trim` removes and what
      `parseInt` skips. */
  predicate IsSpace(c: char)
  {
    var k := c as int;
    k == 0x09 || k == 0x0A || k == 0x0B || k == 0x0C || k == 0x0D || k == 0x20 || k == 0xA0 ||
    k == 0x1680 || (0x2000 <= k <= 0x200A) || k == 0x2028 || k == 0x2029 || k == 0x202F ||
    k == 0x205F || k == 0x3000 || k == 0xFEFF
  }

  /** Every character of `s` is white space. */
  predicate AllSpace(s: string)
  {
    forall i :: 0 <= i < |s| ==> IsSpace(s[i])
  }

  /** `trimStart`: the suffix of `s` that starts at its first non-space character. */
  function TrimStart(s: string): (r: string)
    ensures |r| <= |s| && r == s[|s| - |r|..]
    ensures AllSpace(s[..|s| - |r|])
    ensures r == [] || !IsSpace(r[0])
  {
    if s != [] && IsSpace(s[0]) then
      var r := TrimStart(s[1..]);
      LeadingSpaceSuffix(s, r);
      r
    else s
  }

  /** A suffix of `s[1..]` after blanks only is a suffix of `s` after blanks only when `s[0]` is one. */
  lemma LeadingSpaceSuffix(s: string, r: string)
    requires s != [] && IsSpace(s[0])
    requires |r| <= |s| - 1 && r == s[1..][|s| - 1 - |r|..] && AllSpace(s[1..][..|s| - 1 - |r|])
    ensures r == s[|s| - |r|..] && AllSpace(s[..|s| - |r|])
  {
    assert s[..|s| - |r|] == [s[0]] + s[1..][..|s| - 1 - |r|];
  }

  /** `trimEnd`: the prefix of `s` that ends at its last non-space character. */
  function TrimEnd(s: string): (r: string)
    ensures r <= s
    ensures AllSpace(s[|r|..])
    ensures r == [] || !IsSpace(r[|r| - 1])
  {
    if s != [] && IsSpace(s[|s| - 1]) then TrimEnd(s[..|s| - 1]) else s
  }

  /** `trim` */
  function Trim(s: string): string
  {
    TrimEnd(TrimStart(s))
  }

  /** `trim` keeps a contiguous slice of its argument and removes only white space around it. */
  lemma TrimSlice(s: string)
    ensures exists i, j :: 0 <= i <= j <= |s| && Trim(s) == s[i..j] && AllSpace(s[..i]) && AllSpace(s[j..])
  {
    SliceWithinSuffix(s, TrimStart(s), Trim(s));
  }

  /** A prefix `e` of a suffix `t` of `s`, with only white space cut at either end, is a slice of `s`
      with only white space around it. */
  lemma SliceWithinSuffix(s: string, t: string, e: string)
    requires |t| <= |s| && t == s[|s| - |t|..] && AllSpace(s[..|s| - |t|])
    requires e <= t && AllSpace(t[|e|..])
    ensures exists i, j :: 0 <= i <= j <= |s| && e == s[i..j] && AllSpace(s[..i]) && AllSpace(s[j..])
  {
    var i := |s| - |t|;
    var j := i + |e|;
    assert e == t[..|e|];
    assert e == s[i..j];
    assert s[j..] == t[|e|..];
  }

  /** `trim` leaves no white space at either end. */
  lemma TrimNoOuterSpace(s: string)
    ensures Trim(s) == [] || (!IsSpace(Trim(s)[0]) && !IsSpace(Trim(s)[|Trim(s)| - 1]))
  {
    var t := TrimStart(s);
    var e := TrimEnd(t);
    assert e == t[..|e|];
  }

  /** A string is blank after `trim` exactly when every character is white space. */
  lemma TrimBlank(s: string)
    ensures Trim(s) == [] <==> AllSpace(s)
  {
    var t := TrimStart(s);
    var m := |s| - |t|;
    assert t == s[m..];
    if Trim(s) == [] {
      assert t[0..] == t;
      forall k | 0 <= k < |s| ensures IsSpace(s[k]) {
        if k < m {
          assert s[k] == s[..m][k];
        } else {
          assert s[k] == t[k - m];
        }
      }
    }
  }

  lemma {:induction false} TrimStartIdle(s: string)
    requires s == [] || !IsSpace(s[0])
    ensures TrimStart(s) == s
  {
  }

  lemma {:induction false} TrimEndIdle(s: string)
    requires s == [] || !IsSpace(s[|s| - 1])
    ensures TrimEnd(s) == s
  {
  }

  /** Trimming twice is trimming once. */
  lemma TrimIdempotent(s: string)
    ensures Trim(Trim(s)) == Trim(s)
  {
    var t := Trim(s);
    TrimNoOuterSpace(s);
    TrimStartIdle(t);
    TrimEndIdle(t);
  }

  /** The index of the first occurrence of `c` in `s`, or -1 (`indexOf`). */
  function IndexOf(s: string, c: char): (k: int)
    ensures -1 <= k < |s|
    ensures k == -1 <==> c !in s
    ensures k >= 0 ==> s[k] == c && c !in s[..k]
  {
    if s == [] then -1
    else if s[0] == c then 0
    else var k := IndexOf(s[1..], c); if k == -1 then -1 else k + 1
  }

  /** `s.replace(a, b)` with a one-character string pattern: only the first occurrence is replaced. */
  function ReplaceFirst(s: string, a: char, b: char): (r: string)
    ensures |r| == |s|
    ensures forall i :: 0 <= i < |s| ==> r[i] == (if i == IndexOf(s, a) then b else s[i])
  {
    var k := IndexOf(s, a);
    if k == -1 then s else s[..k] + [b] + s[k + 1..]
  }

  /** `parts.join(sep)` with a one-character separator. */
  function Join(parts: seq<string>, sep: char): string
  {
    if parts == [] then ""
    else if |parts| == 1 then parts[0]
    else parts[0] + [sep] + Join(parts[1..], sep)
  }

  /** `s.split(sep)` with a one-character separator: the pieces between separators, at least one. */
  function Split(s: string, sep: char): (parts: seq<string>)
    ensures |parts| >= 1
    ensures forall i :: 0 <= i < |parts| ==> sep !in parts[i]
    ensures Join(parts, sep) == s
    decreases |s|
  {
    var k := IndexOf(s, sep);
    if k == -1 then [s]
    else
      var head, rest := s[..k], Split(s[k + 1..], sep);
      assert ([head] + rest)[1..] == rest;
      assert Join([head] + rest, sep) == head + [sep] + Join(rest, sep);
      assert s == head + [sep] + s[k + 1..];
      [head] + rest
  }

  /** Splitting at the first separator: the part before it, then the pieces of the rest. */
  lemma SplitAtFirst(a: string, rest: string, sep: char)
    requires sep !in a
    ensures Split(a + [sep] + rest, sep) == [a] + Split(rest, sep)
  {
    var s := a + [sep] + rest;
    assert a + ([sep] + rest) == s;
    IndexOfAfterPrefix(a, [sep] + rest, sep);
    assert s[..|a|] == a;
    assert s[|a| + 1..] == rest;
    assert Split(s, sep) == [s[..|a|]] + Split(s[|a| + 1..], sep);
  }

  /** Text without the separator is one piece. */
  lemma SplitWhole(s: string, sep: char)
    requires sep !in s
    ensures Split(s, sep) == [s]
  {
    assert IndexOf(s, sep) == -1;
  }

  /** Splitting a joined list gives the list back when no piece contains the separator. */
  lemma {:induction false} SplitJoin(parts: seq<string>, sep: char)
    requires |parts| >= 1
    requires forall i :: 0 <= i < |parts| ==> sep !in parts[i]
    ensures Split(Join(parts, sep), sep) == parts
  {
    if |parts| == 1 {
      assert IndexOf(parts[0], sep) == -1;
    } else {
      var head, tail := parts[0], parts[1..];
      var rest := Join(tail, sep);
      var s := head + [sep] + rest;
      assert Join(parts, sep) == s;
      assert sep !in head;
      IndexOfAfterPrefix(head, [sep] + rest, sep);
      assert s == head + ([sep] + rest);
      assert s[..|head|] == head;
      assert s[|head| + 1..] == rest;
      SplitJoin(tail, sep);
      assert Split(s, sep) == [head] + Split(rest, sep);
      assert [head] + tail == parts;
    }
  }

  /** The first `c` in `a + b` is the first one in `b` when `a` has none. */
  lemma {:induction false} IndexOfAfterPrefix(a: string, b: string, c: char)
    requires c !in a
    requires b != [] && b[0] == c
    ensures IndexOf(a + b, c) == |a|
  {
    if a != [] {
      assert a[0] != c;
      assert (a + b)[1..] == a[1..] + b;
      IndexOfAfterPrefix(a[1..], b, c);
    }
  }

  function LowerAscii(c: char): char
  {
    if 'A' <= c <= 'Z' then (c as int + 32) as char else c
  }

  function UpperAscii(c: char): char
  {
    if 'a' <= c <= 'z' then (c as int - 32) as char else c
  }

  predicate IsUpperAscii(c: char)
  {
    'A' <= c <= 'Z'
  }

  predicate IsLowerAscii(c: char)
  {
    'a' <= c <= 'z'
  }

  /** `toLowerCase`, for the ASCII letters: no capital letter is left, each capital becomes its small
      letter, and every other character stays as it is. */
  function ToLowerAscii(s: string): (r: string)
    ensures |r| == |s|
    ensures forall i :: 0 <= i < |r| ==> !IsUpperAscii(r[i])
    ensures forall i :: 0 <= i < |s| && IsUpperAscii(s[i]) ==> IsLowerAscii(r[i]) && r[i] as int - s[i] as int == 32
    ensures forall i :: 0 <= i < |s| && !IsUpperAscii(s[i]) ==> r[i] == s[i]
  {
    seq(|s|, i requires 0 <= i < |s| => LowerAscii(s[i]))
  }

  /** `toUpperCase`, for the ASCII letters: no small letter is left, each small letter becomes its
      capital, and every other character stays as it is. */
  function ToUpperAscii(s: string): (r: string)
    ensures |r| == |s|
    ensures forall i :: 0 <= i < |r| ==> !IsLowerAscii(r[i])
    ensures forall i :: 0 <= i < |s| && IsLowerAscii(s[i]) ==> IsUpperAscii(r[i]) && s[i] as int - r[i] as int == 32
    ensures forall i :: 0 <= i < |s| && !IsLowerAscii(s[i]) ==> r[i] == s[i]
  {
    seq(|s|, i requires 0 <= i < |s| => UpperAscii(s[i]))
  }

  /** Lower-casing does not change what upper-casing sees: `m.toLowerCase().toUpperCase()` equals
      `m.toUpperCase()`. */
  lemma UpperOfLower(s: string)
    ensures ToUpperAscii(ToLowerAscii(s)) == ToUpperAscii(s)
  {
    var a, b := ToUpperAscii(ToLowerAscii(s)), ToUpperAscii(s);
    assert |a| == |b|;
    forall i | 0 <= i < |s| ensures a[i] == b[i] {
      var c := s[i];
      if 'A' <= c <= 'Z' {
        assert LowerAscii(c) as int == c as int + 32;
      } else if 'a' <= c <= 'z' {
        assert LowerAscii(c) == c;
      }
    }
  }

  // ---------------------------------------------------------------------------
  // UTF-8

  /** Bytes of one code point in UTF-8. */
  function Utf8Width(c: char): nat
  {
    if c as int < 0x80 then 1 else if c as int < 0x800 then 2 else if c as int < 0x10000 then 3 else 4
  }

  /** `Buffer.byteLength(s, 'utf8')` */
  function Utf8Length(s: string): (n: nat)
    ensures |s| <= n <= 4 * |s|
  {
    if s == [] then 0 else Utf8Width(s[0]) + Utf8Length(s[1..])
  }

  lemma {:induction false} Utf8LengthAppend(a: string, b: string)
    ensures Utf8Length(a + b) == Utf8Length(a) + Utf8Length(b)
  {
    if a == [] {
      assert a + b == b;
    } else {
      var ab := a + b;
      assert ab[0] == a[0];
      assert ab[1..] == a[1..] + b;
      Utf8LengthAppend(a[1..], b);
      assert Utf8Length(ab) == Utf8Width(ab[0]) + Utf8Length(ab[1..]);
    }
  }
}
