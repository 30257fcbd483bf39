/** The decoded JSON payload and the few Python operations the builders and the
    classifier apply to it: `d[key]`, `d.get(key, default)`, `seq[i]`, `key in x`,
    truthiness, `str.strip()` and `int(x)`. Each returns the exception that Python
    raises when the value has an unexpected shape. JSON `null` is Python's `None`. */
module Payload {
  import opened Results
  import opened Exceptions

  datatype Json =
    | Null
    | Bool(b: bool)
    | Int(i: int)
    | Float(r: real)
    | Str(s: string)
    | Arr(items: seq<Json>)
    | Obj(fields: map<string, Json>)

  /** `value[key]` for a string key: only a dict can be indexed by a string. */
  function Subscript(value: Json, key: string): Result<Json, Exception>
  {
    match value
    case Obj(fields) => if key in fields then Success(fields[key]) else Failure(KeyError(key))
    case _ => Failure(TypeError)
  }

  /** `value[index]` for a non-negative int index. A dict with string keys never
      holds an int key; a string yields a one-character string. */
  function Item(value: Json, index: nat): Result<Json, Exception>
  {
    match value
    case Arr(items) => if index < |items| then Success(items[index]) else Failure(IndexError)
    case Str(s) => if index < |s| then Success(Str([s[index]])) else Failure(IndexError)
    case Obj(_) => Failure(KeyError(IntToString(index)))
    case _ => Failure(TypeError)
  }

  /** `value.get(key, default)`: only a dict has `.get`. */
  function GetOr(value: Json, key: string, default: Json): Result<Json, Exception>
  {
    match value
    case Obj(fields) => Success(if key in fields then fields[key] else default)
    case _ => Failure(AttributeError)
  }

  /** `key in container` for a string `key`: dict membership, substring test, or
      list membership by equality; other values are not iterable. */
  function Contains(container: Json, key: string): Result<bool, Exception>
  {
    match container
    case Obj(fields) => Success(key in fields)
    case Str(s) => Success(IsSubstring(key, s))
    case Arr(items) => Success(Str(key) in items)
    case _ => Failure(TypeError)
  }

  /** `value.strip()`: only a str has `.strip`. */
  function StrStrip(value: Json): Result<string, Exception>
  {
    match value
    case Str(s) => Success(Strip(s))
    case _ => Failure(AttributeError)
  }

  /** Python truthiness: None, False, zero and empty containers are false. */
  predicate Truthy(value: Json)
  {
    match value
    case Null => false
    case Bool(b) => b
    case Int(i) => i != 0
    case Float(r) => r != 0.0
    case Str(s) => s != ""
    case Arr(items) => items != []
    case Obj(fields) => fields != map[]
  }

  // ---------------------------------------------------------------------------
  // Substrings

  predicate IsPrefix(prefix: string, s: string)
  {
    |prefix| <= |s| && s[..|prefix|] == prefix
  }

  /** `needle in haystack` for two strings. */
  predicate IsSubstring(needle: string, haystack: string)
    decreases |haystack|
  {
    IsPrefix(needle, haystack) || (|haystack| > 0 && IsSubstring(needle, haystack[1..]))
  }

  predicate OccursAt(needle: string, haystack: string, i: int)
  {
    0 <= i <= |haystack| - |needle| && haystack[i..i + |needle|] == needle
  }

  /** The recursive test agrees with "occurs at some position". */
  lemma {:induction false} IsSubstringIffOccurs(needle: string, haystack: string)
    ensures IsSubstring(needle, haystack) <==> exists i :: OccursAt(needle, haystack, i)
    decreases |haystack|
  {
    if IsPrefix(needle, haystack) {
      assert OccursAt(needle, haystack, 0);
    } else if |haystack| > 0 {
      var tail := haystack[1..];
      IsSubstringIffOccurs(needle, tail);
      if exists i :: OccursAt(needle, haystack, i) {
        var i :| OccursAt(needle, haystack, i);
        assert i != 0;
        assert tail[i - 1..i - 1 + |needle|] == haystack[i..i + |needle|];
        assert OccursAt(needle, tail, i - 1);
      }
      if IsSubstring(needle, tail) {
        var j :| OccursAt(needle, tail, j);
        assert haystack[j + 1..j + 1 + |needle|] == tail[j..j + |needle|];
        assert OccursAt(needle, haystack, j + 1);
      }
    }
  }

  // ---------------------------------------------------------------------------
  // str.strip()

  /** The characters `str.isspace()` accepts. */
  predicate IsSpace(c: char)
  {
    ('\t' <= c <= '\r') || ('\U{1C}' <= c <= ' ') || c == '\U{85}' || c == '\U{A0}' || c == '\U{1680}'
    || ('\U{2000}' <= c <= '\U{200A}') || c == '\U{2028}' || c == '\U{2029}' || c == '\U{202F}'
    || c == '\U{205F}' || c == '\U{3000}'
  }

  /** The number of whitespace characters that start `s`. */
  function LeadingSpaces(s: string): (k: nat)
    ensures k <= |s|
    ensures forall i :: 0 <= i < k ==> IsSpace(s[i])
    ensures k == |s| || !IsSpace(s[k])
  {
    if |s| > 0 && IsSpace(s[0]) then 1 + LeadingSpaces(s[1..]) else 0
  }

  /** The number of whitespace characters that end `s`. */
  function TrailingSpaces(s: string): (k: nat)
    ensures k <= |s|
    ensures forall i :: |s| - k <= i < |s| ==> IsSpace(s[i])
    ensures k == |s| || !IsSpace(s[|s| - k - 1])
  {
    if |s| > 0 && IsSpace(s[|s| - 1]) then 1 + TrailingSpaces(s[..|s| - 1]) else 0
  }

  /** `r` is `s` with whitespace only removed before position `i` and after `r`. */
  predicate TrimmedAt(s: string, r: string, i: int)
  {
    && OccursAt(r, s, i)
    && (forall k :: 0 <= k < i ==> IsSpace(s[k]))
    && (forall k :: i + |r| <= k < |s| ==> IsSpace(s[k]))
  }

  /** `str.strip()`: `s` without its leading and trailing whitespace. */
  function Strip(s: string): (r: string)
    ensures r == [] || (!IsSpace(r[0]) && !IsSpace(r[|r| - 1]))
    ensures exists i :: TrimmedAt(s, r, i)
  {
    var a := LeadingSpaces(s);
    var rest := s[a..];
    var r := rest[..|rest| - TrailingSpaces(rest)];
    assert s[a..a + |r|] == r;
    assert forall k :: a + |r| <= k < |s| ==> s[k] == rest[k - a];
    assert TrimmedAt(s, r, a);
    r
  }

  /** A string with no outer whitespace is left alone, so stripping twice is stripping once. */
  lemma {:induction false} StripIdempotent(s: string)
    ensures Strip(Strip(s)) == Strip(s)
  {
    var r := Strip(s);
    if r != [] {
      assert LeadingSpaces(r) == 0;
      assert TrailingSpaces(r) == 0;
    }
  }

  // ---------------------------------------------------------------------------
  // Decimal integers: `str(n)` and `int(text)`

  predicate IsDigit(c: char)
  {
    '0' <= c <= '9'
  }

  function DigitChar(d: nat): char
    requires d < 10
  {
    ('0' as int + d) as char
  }

  /** `str(n)` for a non-negative int. */
  function NatToString(n: nat): (s: string)
  {
    if n < 10 then [DigitChar(n)] else NatToString(n / 10) + [DigitChar(n % 10)]
  }

  /** `str(n)`. */
  function IntToString(n: int): string
  {
    if n < 0 then "-" + NatToString(-n) else NatToString(n)
  }

  function DigitValue(c: char): nat
    requires IsDigit(c)
  {
    c as int - '0' as int
  }

  /** The value of a string of decimal digits. */
  function DigitsValue(ds: string): nat
    requires forall i :: 0 <= i < |ds| ==> IsDigit(ds[i])
  {
    if ds == [] then 0 else DigitsValue(ds[..|ds| - 1]) * 10 + DigitValue(ds[|ds| - 1])
  }

  function WithoutUnderscores(s: string): (r: string)
    ensures forall i :: 0 <= i < |r| ==> r[i] != '_'
    ensures (forall i :: 0 <= i < |s| ==> IsDigit(s[i]) || s[i] == '_') ==> forall i :: 0 <= i < |r| ==> IsDigit(r[i])
  {
    if s == [] then [] else (if s[0] == '_' then [] else [s[0]]) + WithoutUnderscores(s[1..])
  }

  /** A run of digits in which single underscores may separate two digits. */
  predicate IsDigitRun(d: string)
  {
    && |d| > 0
    && IsDigit(d[0]) && IsDigit(d[|d| - 1])
    && (forall i :: 0 <= i < |d| ==> IsDigit(d[i]) || d[i] == '_')
    && !IsSubstring("__", d)
  }

  /** The value of a digit run, None for anything else. */
  function DigitRunValue(d: string): (r: Option<nat>)
    ensures r.Some? <==> IsDigitRun(d)
  {
    if IsDigitRun(d) then Some(DigitsValue(WithoutUnderscores(d))) else None
  }

  /** An optional sign, then a digit run. */
  function ParseSigned(t: string): Option<int>
  {
    var signed := |t| > 0 && (t[0] == '-' || t[0] == '+');
    match DigitRunValue(if signed then t[1..] else t)
    case None => None
    case Some(n) => Some(if signed && t[0] == '-' then -(n as int) else n)
  }

  /** The information separators U+001C-U+001F. `str.isspace()` accepts them, but
      `int()` skips only ASCII whitespace (and non-ASCII whitespace, which it reads
      as a space), so in a string passed to `int()` they are never skipped and
      never part of a literal. */
  predicate HasSeparator(text: string)
  {
    '\U{1C}' in text || '\U{1D}' in text || '\U{1E}' in text || '\U{1F}' in text
  }

  /** `int(text)` for a string, base 10: surrounding whitespace, an optional sign,
      then a digit run. A separator anywhere makes the text invalid. None is the
      `ValueError` case. */
  function ParseInt(text: string): Option<int>
  {
    if HasSeparator(text) then None
    else ParseSigned(Strip(text))
  }

  /** A separator, which `str.strip()` would remove, makes `int()` raise, before
      or after a literal it otherwise accepts. */
  lemma {:induction false} ParseIntRejectsSeparators()
    ensures ParseInt("42") == Some(42)
    ensures ParseInt("\U{1C}42") == None
    ensures ParseInt("42\U{1F}") == None
  {
    assert "\U{1C}42"[0] == '\U{1C}';
    assert "42\U{1F}"[2] == '\U{1F}';
    assert IntToString(42) == "42";
    ParseIntRoundTrip(42);
  }

  lemma {:induction false} NatToStringDigits(n: nat)
    ensures |NatToString(n)| > 0
    ensures forall i :: 0 <= i < |NatToString(n)| ==> IsDigit(NatToString(n)[i])
    ensures DigitsValue(NatToString(n)) == n
  {
    if n >= 10 {
      NatToStringDigits(n / 10);
      var s := NatToString(n);
      assert s[..|s| - 1] == NatToString(n / 10);
    }
  }

  lemma {:induction false} WithoutUnderscoresOfDigits(s: string)
    requires forall i :: 0 <= i < |s| ==> IsDigit(s[i])
    ensures WithoutUnderscores(s) == s
  {
    if s != [] {
      WithoutUnderscoresOfDigits(s[1..]);
      assert [s[0]] + s[1..] == s;
    }
  }

  lemma StripWithoutSpaces(s: string)
    requires forall i :: 0 <= i < |s| ==> !IsSpace(s[i])
    ensures Strip(s) == s
  {
    assert LeadingSpaces(s) == 0;
    assert TrailingSpaces(s) == 0;
  }

  /** A string without underscores has no double underscore. */
  lemma NoUnderscoreNoDouble(d: string)
    requires forall i :: 0 <= i < |d| ==> d[i] != '_'
    ensures !IsSubstring("__", d)
  {
    IsSubstringIffOccurs("__", d);
    forall i | 0 <= i <= |d| - 2 ensures !OccursAt("__", d, i) {
      assert d[i..i + 2][0] == d[i];
    }
  }

  /** `str(m)` is a digit run whose value is `m`. */
  lemma NatToStringParses(m: nat)
    ensures DigitRunValue(NatToString(m)) == Some(m)
    ensures forall i :: 0 <= i < |NatToString(m)| ==> !IsSpace(NatToString(m)[i])
    ensures NatToString(m)[0] != '-' && NatToString(m)[0] != '+'
  {
    var d := NatToString(m);
    NatToStringDigits(m);
    WithoutUnderscoresOfDigits(d);
    NoUnderscoreNoDouble(d);
    assert IsDigitRun(d);
    forall i | 0 <= i < |d| ensures !IsSpace(d[i]) {
      assert IsDigit(d[i]);
    }
  }

  /** `int(text)` on an unsigned digit run without whitespace reads its value. */
  lemma ParseIntUnsigned(digits: string)
    requires DigitRunValue(digits).Some? && digits[0] != '-' && digits[0] != '+'
    requires forall i :: 0 <= i < |digits| ==> !IsSpace(digits[i])
    ensures ParseInt(digits) == Some(DigitRunValue(digits).value as int)
  {
    assert !HasSeparator(digits) by {
      forall c | c in digits ensures !('\U{1C}' <= c <= '\U{1F}') {
        var i :| 0 <= i < |digits| && digits[i] == c;
      }
    }
    StripWithoutSpaces(digits);
  }

  /** `int("-" + digits)` reads the negated value of the digit run. */
  lemma ParseIntNegative(digits: string)
    requires DigitRunValue(digits).Some?
    requires forall i :: 0 <= i < |digits| ==> !IsSpace(digits[i])
    ensures ParseInt("-" + digits) == Some(-(DigitRunValue(digits).value as int))
  {
    var text := "-" + digits;
    forall i | 0 <= i < |text| ensures !IsSpace(text[i]) {
      if i > 0 { assert text[i] == digits[i - 1]; }
    }
    assert !HasSeparator(text) by {
      forall c | c in text ensures !('\U{1C}' <= c <= '\U{1F}') {
        var i :| 0 <= i < |text| && text[i] == c;
      }
    }
    StripWithoutSpaces(text);
    assert text[1..] == digits;
  }

  /** `int(str(n)) == n`. */
  lemma {:induction false} ParseIntRoundTrip(n: int)
    ensures ParseInt(IntToString(n)) == Some(n)
  {
    if n < 0 {
      var digits := NatToString(-n);
      NatToStringParses(-n);
      ParseIntNegative(digits);
      assert IntToString(n) == "-" + digits;
    } else {
      NatToStringParses(n);
      ParseIntUnsigned(NatToString(n));
      assert IntToString(n) == NatToString(n);
    }
  }

  /** `n` is `x` with its fraction dropped toward zero, as `int()` does to a float. */
  predicate TruncatesTowardZero(x: real, n: int)
  {
    if x >= 0.0 then 0 <= n && n as real <= x < n as real + 1.0
    else n <= 0 && n as real - 1.0 < x <= n as real
  }

  /** The outcome of Python's `int(value)` on a decoded JSON value: ints pass, a
      bool is 0 or 1, a float is truncated toward zero, a string is parsed or
      raises `ValueError`, and null, lists and dicts raise `TypeError`. */
  function PyInt(value: Json): (r: Result<int, Exception>)
    ensures value.Int? ==> r == Success(value.i)
    ensures value.Bool? ==> r == Success(if value.b then 1 else 0)
    ensures value.Float? ==> r.Success? && TruncatesTowardZero(value.r, r.value)
    ensures value.Str? ==> (r.Success? <==> ParseInt(value.s).Some?)
    ensures value.Str? && r.Success? ==> r.value == ParseInt(value.s).value
    ensures value.Str? && r.Failure? ==> r.error.ValueError?
    ensures value.Null? || value.Arr? || value.Obj? ==> r == Failure(TypeError)
  {
    match value
    case Int(i) => Success(i)
    case Bool(b) => Success(if b then 1 else 0)
    case Float(r) => Success(if r >= 0.0 then r.Floor else -((-r).Floor))
    case Str(s) =>
      (match ParseInt(s)
       case Some(n) => Success(n)
       case None => Failure(ValueError("invalid literal for int() with base 10")))
    case _ => Failure(TypeError)
  }
}
