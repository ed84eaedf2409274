/** The parts of Python's own behaviour that the client relies on, stated on the
    values `json.loads` produces: truthiness, `dict.get`, `str()` and `repr()`,
    and the decimal rendering of integers. */
module Python {

  datatype Option<+T> = None | Some(value: T) {
    predicate IsFailure() { None? }
    function PropagateFailure<U>(): Option<U> requires None? { None }
    function Extract(): T requires Some? { value }
  }

  /** A decoded JSON value: `None`, `bool`, `int`, `str`, `list` or `dict`.
      An object lists its members in insertion order, as a Python dict keeps them. */
  datatype Json =
    | JNull
    | JBool(b: bool)
    | JInt(i: int)
    | JStr(s: string)
    | JList(items: seq<Json>)
    | JObj(members: seq<(string, Json)>)

  /** The value stored under `key`, if any (`key in d` and `d[key]`). */
  function Lookup(members: seq<(string, Json)>, key: string): Option<Json> {
    if |members| == 0 then None
    else if members[0].0 == key then Some(members[0].1)
    else Lookup(members[1..], key)
  }

  /** A lookup fails exactly when no member has the key, and otherwise finds the
      value of the first member that has it. */
  lemma {:induction false} LookupFindsFirst(members: seq<(string, Json)>, key: string)
    ensures Lookup(members, key).None? <==> forall i :: 0 <= i < |members| ==> members[i].0 != key
    ensures Lookup(members, key).Some? ==>
              exists i :: 0 <= i < |members| && members[i] == (key, Lookup(members, key).value) &&
                          forall j :: 0 <= j < i ==> members[j].0 != key
    decreases |members|
  {
    if |members| > 0 && members[0].0 != key {
      var tail := members[1..];
      LookupFindsFirst(tail, key);
      assert forall i :: 0 < i < |members| ==> members[i] == tail[i - 1];
      var r := Lookup(tail, key);
      if r.Some? {
        var i :| 0 <= i < |tail| && tail[i] == (key, r.value) &&
                 forall j :: 0 <= j < i ==> tail[j].0 != key;
        assert members[i + 1] == (key, r.value);
      }
    }
  }

  /** `d.get(key, default)`. */
  function Get(members: seq<(string, Json)>, key: string, default: Json := JNull): Json {
    match Lookup(members, key)
    case Some(v) => v
    case None => default
  }

  /** `bool(v)`: `None`, `False`, `0`, and empty strings, lists and dicts are false. */
  predicate Truthy(v: Json) {
    match v
    case JNull => false
    case JBool(b) => b
    case JInt(i) => i != 0
    case JStr(s) => s != ""
    case JList(items) => items != []
    case JObj(members) => members != []
  }

  /** `a or b`: `a` when it is true, otherwise `b`. */
  function Or(a: Json, b: Json): (r: Json)
    ensures Truthy(r) <==> Truthy(a) || Truthy(b)
  {
    if Truthy(a) then a else b
  }

  /** Python's `v == 0` for a decoded value: `False == 0` holds as well. */
  predicate EqualsZero(v: Json) {
    v == JInt(0) || v == JBool(false)
  }

  // ---------------------------------------------------------------------------
  // Decimal integers: str(int) and its inverse.

  predicate IsDigit(c: char) { '0' <= c <= '9' }

  predicate AllDigits(s: string) { forall k :: 0 <= k < |s| ==> IsDigit(s[k]) }

  function DigitChar(d: int): (c: char)
    requires 0 <= d < 10
    ensures IsDigit(c) && c as int - '0' as int == d
  {
    ('0' as int + d) as char
  }

  /** The decimal digits of `n`, without leading zeros. */
  function NatToString(n: nat): (r: string)
    ensures |r| >= 1 && AllDigits(r)
    ensures r[0] == '0' ==> n == 0
    decreases n
  {
    if n < 10 then [DigitChar(n)] else NatToString(n / 10) + [DigitChar(n % 10)]
  }

  /** `str(i)` for a Python int: a minus sign, then the digits of the magnitude. */
  function IntToString(i: int): (r: string)
    ensures |r| >= 1 && (r[0] == '-' <==> i < 0)
    ensures forall k :: 0 <= k < |r| ==> IsDigit(r[k]) || (k == 0 && r[k] == '-')
  {
    if i < 0 then "-" + NatToString(-i) else NatToString(i)
  }

  function DigitsValue(s: string): nat
    requires AllDigits(s)
  {
    if s == [] then 0 else DigitsValue(s[..|s| - 1]) * 10 + (s[|s| - 1] as int - '0' as int)
  }

  /** Digits as `str` writes them: at least one, and no leading zero unless the
      number is 0 itself. */
  predicate CanonicalDigits(s: string) {
    |s| >= 1 && AllDigits(s) && (s[0] != '0' || |s| == 1)
  }

  /** Reads back a decimal integer written as `str` writes it: an optional minus
      sign (not before 0) and canonical digits; `None` for anything else, "007"
      and "-0" included. */
  function ParseInt(s: string): Option<int> {
    if |s| >= 2 && s[0] == '-' && CanonicalDigits(s[1..]) && s[1] != '0' then Some(0 - DigitsValue(s[1..]))
    else if CanonicalDigits(s) then Some(DigitsValue(s))
    else None
  }

  lemma {:induction false} DigitsValueOfNatToString(n: nat)
    ensures DigitsValue(NatToString(n)) == n
    decreases n
  {
    if n >= 10 {
      var s := NatToString(n);
      DigitsValueOfNatToString(n / 10);
      assert s[..|s| - 1] == NatToString(n / 10);
    }
  }

  /** Canonical digits are the rendering of the number they denote. */
  lemma {:induction false} NatToStringOfDigits(s: string)
    requires CanonicalDigits(s)
    ensures NatToString(DigitsValue(s)) == s
    ensures s[0] != '0' ==> DigitsValue(s) >= 1
    decreases |s|
  {
    if |s| >= 2 {
      var init := s[..|s| - 1];
      assert init[0] == s[0];
      NatToStringOfDigits(init);
      var d := s[|s| - 1] as int - '0' as int;
      assert DigitsValue(s) == DigitsValue(init) * 10 + d;
      assert DigitsValue(s) / 10 == DigitsValue(init) && DigitsValue(s) % 10 == d;
      assert s == init + [s[|s| - 1]];
    }
  }

  /** Only the rendering of an integer reads back as it: the text `ParseInt`
      accepts for `i` is exactly `str(i)`. */
  lemma ParseIntOnlyReadsRendering(s: string, i: int)
    requires ParseInt(s) == Some(i)
    ensures s == IntToString(i)
  {
    if |s| >= 2 && s[0] == '-' && CanonicalDigits(s[1..]) && s[1] != '0' {
      NatToStringOfDigits(s[1..]);
      assert s == "-" + s[1..];
    } else {
      NatToStringOfDigits(s);
    }
  }

  /** Rendering an integer and reading it back gives the integer. */
  lemma IntToStringRoundTrip(i: int)
    ensures ParseInt(IntToString(i)) == Some(i)
  {
    if i < 0 {
      DigitsValueOfNatToString(-i);
      assert IntToString(i)[1..] == NatToString(-i);
      assert NatToString(-i)[0] != '0';
    } else {
      DigitsValueOfNatToString(i);
    }
  }

  // ---------------------------------------------------------------------------
  // repr() of a string.

  function HexLower(d: int): (c: char)
    requires 0 <= d < 16
  {
    if d < 10 then DigitChar(d) else ('a' as int + d - 10) as char
  }

  /** The characters below U+0100 that `str.isprintable` rejects. */
  predicate IsLatin1Unprintable(c: char) {
    var n := c as int;
    n < 0x20 || (0x7f <= n <= 0xa0) || n == 0xad
  }

  /** The quote `repr` chooses: a double quote only when the text holds a single
      quote and no double quote. */
  function ReprQuote(s: string): char {
    if '\'' in s && '"' !in s then '"' else '\''
  }

  function EscapeChar(c: char, quote: char): string {
    if c == '\\' then "\\\\"
    else if c == quote then ['\\', quote]
    else if c == '\t' then "\\t"
    else if c == '\n' then "\\n"
    else if c == '\r' then "\\r"
    else if IsLatin1Unprintable(c) then ['\\', 'x', HexLower(c as int / 16), HexLower(c as int % 16)]
    else [c]
  }

  function EscapeAll(s: string, quote: char): string {
    if s == [] then "" else EscapeChar(s[0], quote) + EscapeAll(s[1..], quote)
  }

  /** `repr(s)` for a string. */
  function StrRepr(s: string): string {
    var q := ReprQuote(s);
    [q] + EscapeAll(s, q) + [q]
  }

  /** A string that `repr` renders verbatim between single quotes. */
  predicate IsPlain(s: string) {
    forall k :: 0 <= k < |s| ==>
      s[k] != '\\' && s[k] != '\'' && s[k] != '"' && !IsLatin1Unprintable(s[k])
  }

  lemma {:induction false} EscapeAllPlain(s: string, quote: char)
    requires IsPlain(s) && (quote == '\'' || quote == '"')
    ensures EscapeAll(s, quote) == s
    decreases |s|
  {
    if s != [] {
      EscapeAllPlain(s[1..], quote);
      assert s == [s[0]] + s[1..];
    }
  }

  /** A plain string is rendered as itself between single quotes. */
  lemma StrReprPlain(s: string)
    requires IsPlain(s)
    ensures StrRepr(s) == "'" + s + "'"
  {
    assert '\'' !in s by {
      forall k | 0 <= k < |s| ensures s[k] != '\'' { }
    }
    EscapeAllPlain(s, '\'');
  }

  // ---------------------------------------------------------------------------
  // str methods.

  /** `s.rstrip(c)`: `s` without its trailing run of `c`. */
  function RStrip(s: string, c: char): (r: string)
    ensures r <= s
    ensures forall k :: |r| <= k < |s| ==> s[k] == c
    ensures r == [] || r[|r| - 1] != c
    decreases |s|
  {
    if s != [] && s[|s| - 1] == c then RStrip(s[..|s| - 1], c) else s
  }

  /** `s.lstrip(c)`: `s` without its leading run of `c`. */
  function LStrip(s: string, c: char): (r: string)
    ensures |r| <= |s| && r == s[|s| - |r|..]
    ensures forall k :: 0 <= k < |s| - |r| ==> s[k] == c
    ensures r == [] || r[0] != c
    decreases |s|
  {
    if s != [] && s[0] == c then LStrip(s[1..], c) else s
  }

  /** `needle` occurs in `hay` starting at index `i`. */
  predicate OccursAt(hay: string, needle: string, i: int) {
    0 <= i && i + |needle| <= |hay| && hay[i..i + |needle|] == needle
  }

  /** `needle in hay`. */
  function Contains(hay: string, needle: string): (r: bool)
    ensures r <==> exists i :: OccursAt(hay, needle, i)
    decreases |hay|
  {
    if |needle| > |hay| then false
    else if hay[..|needle|] == needle then
      assert OccursAt(hay, needle, 0);
      true
    else
      var r := Contains(hay[1..], needle);
      assert forall i :: OccursAt(hay, needle, i) <==> i > 0 && OccursAt(hay[1..], needle, i - 1) by {
        forall i | 0 < i
          ensures OccursAt(hay, needle, i) <==> OccursAt(hay[1..], needle, i - 1)
        {
          if i + |needle| <= |hay| {
            assert hay[1..][i - 1..i - 1 + |needle|] == hay[i..i + |needle|];
          }
        }
      }
      if r then
        var j :| OccursAt(hay[1..], needle, j);
        assert OccursAt(hay, needle, j + 1);
        r
      else
        r
  }

  /** `s.partition(sep)` when `sep` occurs in `s`: the text before its first
      occurrence and the text after it. */
  function SplitFirst(s: string, sep: char): (r: Option<(string, string)>)
    ensures r.None? <==> sep !in s
    ensures r.Some? ==> sep !in r.value.0 && s == r.value.0 + [sep] + r.value.1
    decreases |s|
  {
    if s == [] then None
    else if s[0] == sep then Some(("", s[1..]))
    else
      var (before, after) :- SplitFirst(s[1..], sep);
      assert s == [s[0]] + s[1..];
      Some(([s[0]] + before, after))
  }

  /** The first occurrence of the separator is the one after `before`. */
  lemma {:induction false} SplitFirstAt(before: string, sep: char, after: string)
    requires sep !in before
    ensures SplitFirst(before + [sep] + after, sep) == Some((before, after))
    decreases |before|
  {
    var s := before + [sep] + after;
    if before == [] {
      assert s[0] == sep && s[1..] == after;
    } else {
      assert s[0] == before[0] && s[1..] == before[1..] + [sep] + after;
      SplitFirstAt(before[1..], sep, after);
      assert [before[0]] + before[1..] == before;
    }
  }

  /** `s.split(sep)`. */
  function Split(s: string, sep: char): (r: seq<string>)
    ensures |r| >= 1
    ensures forall i :: 0 <= i < |r| ==> sep !in r[i]
    decreases |s|
  {
    match SplitFirst(s, sep)
    case None => [s]
    case Some((before, after)) => [before] + Split(after, sep)
  }

  /** `sep.join(parts)`. */
  function Join(parts: seq<string>, sep: string): string {
    if |parts| == 0 then ""
    else if |parts| == 1 then parts[0]
    else parts[0] + sep + Join(parts[1..], sep)
  }

  /** Splitting a join at its separator gives the parts back when none of them
      holds the separator. */
  lemma {:induction false} SplitJoin(parts: seq<string>, sep: char)
    requires |parts| >= 1
    requires forall i :: 0 <= i < |parts| ==> sep !in parts[i]
    ensures Split(Join(parts, [sep]), sep) == parts
    decreases |parts|
  {
    if |parts| > 1 {
      var rest := Join(parts[1..], [sep]);
      SplitFirstAt(parts[0], sep, rest);
      SplitJoin(parts[1..], sep);
      assert parts == [parts[0]] + parts[1..];
    }
  }

  // ---------------------------------------------------------------------------
  // str() and repr() of decoded values.

  /** `str(v)`; for lists and dicts this is the same as `repr(v)`. */
  function Str(v: Json): string
    decreases v, 0
  {
    match v
    case JNull => "None"
    case JBool(b) => if b then "True" else "False"
    case JInt(i) => IntToString(i)
    case JStr(s) => s
    case JList(items) =>
      "[" + Join(seq(|items|, k requires 0 <= k < |items| => Repr(items[k])), ", ") + "]"
    case JObj(members) =>
      "{" + Join(seq(|members|, k requires 0 <= k < |members| =>
                   StrRepr(members[k].0) + ": " + Repr(members[k].1)), ", ") + "}"
  }

  /** `repr(v)`: quoted for strings, otherwise the same as `str(v)`. */
  function Repr(v: Json): string
    decreases v, 1
  {
    if v.JStr? then StrRepr(v.s) else Str(v)
  }

  /** Only the empty string renders as the empty text. */
  lemma StrEmptyOnlyForEmptyString(v: Json)
    ensures Str(v) == "" <==> v == JStr("")
  {
    if v.JInt? {
      assert |IntToString(v.i)| >= 1;
    }
  }
}
