/**
 * The JavaScript conversions the queue and the persist store rely on:
 * `String(v)`, `Number(v)` / `isNaN(v)`, `parseInt(v)`, loose equality with a
 * string, `Object.keys(v)` with `v[key]`, `toLowerCase()` and
 * `replace(" ", "_")`. Numbers are integers, so only decimal integer
 * literals are numeric strings here.
 */
module Coerce {
  import opened Values
  import Keys

  // ---------------------------------------------------------------------------
  // Decimal digits.

  predicate IsDigit(c: char)
  {
    '0' <= c <= '9'
  }

  predicate AllDigits(s: string)
  {
    forall i :: 0 <= i < |s| ==> IsDigit(s[i])
  }

  function DigitChar(d: nat): char
    requires d < 10
  {
    "0123456789"[d]
  }

  /** The value of a string of decimal digits. */
  function DigitsValue(s: string): nat
    requires AllDigits(s)
    decreases |s|
  {
    if s == [] then 0 else 10 * DigitsValue(s[..|s| - 1]) + (s[|s| - 1] - '0') as nat
  }

  /** The decimal numeral of `n`, without leading zeros. */
  function NatToString(n: nat): (s: string)
    ensures |s| > 0 && AllDigits(s)
    decreases n
  {
    if n < 10 then [DigitChar(n)] else NatToString(n / 10) + [DigitChar(n % 10)]
  }

  /** `String(n)` for an integer. */
  function IntToString(n: int): string
  {
    if n < 0 then "-" + NatToString(-n) else NatToString(n)
  }

  // ---------------------------------------------------------------------------
  // String(v).

  /** `a.join(",")` on strings. */
  function JoinComma(ss: seq<string>): string
    decreases |ss|
  {
    if ss == [] then "" else if |ss| == 1 then ss[0] else ss[0] + "," + JoinComma(ss[1..])
  }

  /**
   * `String(v)`. An array joins its elements with commas, printing undefined
   * and null as empty strings. The text of a function is not modelled: every
   * function prints as "function".
   */
  function ToStr(v: Value): string
    decreases v
  {
    match v
    case Undefined => "undefined"
    case Null => "null"
    case Bool(b) => if b then "true" else "false"
    case Num(n) => IntToString(n)
    case Str(s) => s
    case Arr(items) =>
      JoinComma(seq(|items|, i requires 0 <= i < |items| =>
        if items[i].Undefined? || items[i].Null? then "" else ToStr(items[i])))
    case Obj(_) => "[object Object]"
    case Func(_) => "function"
    case Error(m, _) => if m == "" then "Error" else "Error: " + m
  }

  // ---------------------------------------------------------------------------
  // Number(v), isNaN(v), parseInt(v). `None` is NaN.

  /**
   * The characters `trim`, `Number` and `parseInt` skip: white space (tab,
   * vertical tab, form feed, the byte-order mark and the space separators)
   * and the line terminators.
   */
  predicate IsSpace(c: char)
  {
    c == '\t' || c == '\n' || c == '\U{B}' || c == '\U{C}' || c == '\r' || c == ' ' || c == '\U{A0}' ||
    c == '\U{1680}' || ('\U{2000}' <= c <= '\U{200A}') || c == '\U{2028}' || c == '\U{2029}' ||
    c == '\U{202F}' || c == '\U{205F}' || c == '\U{3000}' || c == '\U{FEFF}'
  }

  /** `s` without its leading white space. */
  function TrimStart(s: string): (r: string)
    ensures |r| <= |s| && r == s[|s| - |r|..]
    ensures r != [] ==> !IsSpace(r[0])
    decreases |s|
  {
    if s != [] && IsSpace(s[0]) then TrimStart(s[1..]) else s
  }

  /** `s` without its trailing white space. */
  function TrimEnd(s: string): (r: string)
    ensures |r| <= |s| && r == s[..|r|]
    ensures forall i :: |r| <= i < |s| ==> IsSpace(s[i])
    ensures r != [] ==> !IsSpace(r[|r| - 1])
    decreases |s|
  {
    if s != [] && IsSpace(s[|s| - 1]) then TrimEnd(s[..|s| - 1]) else s
  }

  /** `s.trim()` */
  function Trim(s: string): string
  {
    TrimEnd(TrimStart(s))
  }

  /**
   * `Number(s)` for a string, with white space at both ends ignored: a blank
   * string is 0; an optional sign and decimal digits; anything else NaN.
   */
  function StringToNumber(s: string): Option<int>
  {
    var t := Trim(s);
    if t == [] then Some(0)
    else if AllDigits(t) then Some(DigitsValue(t))
    else if (t[0] == '-' || t[0] == '+') && |t| > 1 && AllDigits(t[1..]) then
      Some(if t[0] == '-' then -(DigitsValue(t[1..]) as int) else DigitsValue(t[1..]))
    else None
  }

  /** `Number(v)`: null is 0, booleans are 0 or 1, objects go through their string form. */
  function ToNumber(v: Value): Option<int>
  {
    match v
    case Undefined => None
    case Null => Some(0)
    case Bool(b) => Some(if b then 1 else 0)
    case Num(n) => Some(n)
    case _ => StringToNumber(ToStr(v))
  }

  /** The global `isNaN(v)`. */
  predicate IsNaN(v: Value)
  {
    ToNumber(v).None?
  }

  /** The length of the longest all-digit prefix of `s`. */
  function DigitPrefix(s: string): (n: nat)
    ensures n <= |s| && AllDigits(s[..n])
    ensures n < |s| ==> !IsDigit(s[n])
    decreases |s|
  {
    if s == [] || !IsDigit(s[0]) then 0
    else
      var n := 1 + DigitPrefix(s[1..]);
      assert s[..n] == [s[0]] + s[1..][..n - 1];
      n
  }

  /** `parseInt(s)` on a string: leading white space, an optional sign, then at least one digit. */
  function ParseIntString(s: string): Option<int>
  {
    LeadingInteger(TrimStart(s))
  }

  /** The optional sign and the digits at the start of `t`, if there is at least one digit. */
  function LeadingInteger(t: string): Option<int>
  {
    var neg := t != [] && t[0] == '-';
    var body := if t != [] && (t[0] == '-' || t[0] == '+') then t[1..] else t;
    var n := DigitPrefix(body);
    if n == 0 then None
    else
      var m := DigitsValue(body[..n]);
      Some(if neg then -(m as int) else m)
  }

  /** `parseInt(v)`: integers are returned as they are, anything else goes through `String(v)`. */
  function ParseInt(v: Value): Option<int>
  {
    if v.Num? then Some(v.n) else ParseIntString(ToStr(v))
  }

  // ---------------------------------------------------------------------------
  // Loose equality with a string.

  /** `v == s` for a string `s`, with JavaScript's loose-equality coercions. */
  predicate LooseEqualsString(v: Value, s: string)
  {
    match v
    case Undefined => false
    case Null => false
    case Str(x) => x == s
    case Num(n) => StringToNumber(s) == Some(n)
    case Bool(b) => StringToNumber(s) == Some(if b then 1 else 0)
    case _ => ToStr(v) == s
  }

  // ---------------------------------------------------------------------------
  // Object.keys(v) together with v[key].

  datatype Prop = Prop(key: string, val: Value)

  /** The keys of a sequence of properties. */
  function KeysOfProps(ps: seq<Prop>): seq<string>
  {
    seq(|ps|, i requires 0 <= i < |ps| => ps[i].key)
  }

  /** The properties of a map, smallest key first. */
  function MapProps(m: map<string, Value>): (ps: seq<Prop>)
    ensures |ps| == |m.Keys|
    ensures forall i :: 0 <= i < |ps| ==> ps[i].key in m && ps[i].val == m[ps[i].key]
    ensures forall k :: k in m ==> k in KeysOfProps(ps)
    ensures forall i, j :: 0 <= i < j < |ps| ==> ps[i].key != ps[j].key
  {
    var ks := Keys.Sorted(m.Keys);
    var ps := seq(|ks|, i requires 0 <= i < |ks| => Prop(ks[i], m[ks[i]]));
    assert forall i :: 0 <= i < |ps| ==> ps[i].key == ks[i];
    assert KeysOfProps(ps) == ks;
    ps
  }

  /**
   * `Object.keys(v)`, each key paired with `v[key]`: undefined and null throw
   * a TypeError (`None`); arrays and strings list their indices; numbers,
   * booleans and functions have no own keys.
   */
  function ObjectProps(v: Value): Option<seq<Prop>>
  {
    match v
    case Undefined => None
    case Null => None
    case Obj(f) => Some(MapProps(f))
    case Error(_, p) => Some(MapProps(p))
    case Arr(items) => Some(seq(|items|, i requires 0 <= i < |items| => Prop(NatToString(i), items[i])))
    case Str(s) => Some(seq(|s|, i requires 0 <= i < |s| => Prop(NatToString(i), Str([s[i]]))))
    case _ => Some([])
  }

  /** The message of the TypeError that `Object.keys(undefined)` and `Object.keys(null)` throw. */
  const KeysOfNothing := "Cannot convert undefined or null to object"

  // ---------------------------------------------------------------------------
  // String helpers.

  /** `toLowerCase()` on ASCII letters; other characters are kept. */
  function ToLowerAscii(s: string): (r: string)
    ensures |r| == |s|
    ensures forall i :: 0 <= i < |s| ==> r[i] == (if 'A' <= s[i] <= 'Z' then (s[i] as int + 32) as char else s[i])
  {
    seq(|s|, i requires 0 <= i < |s| => if 'A' <= s[i] <= 'Z' then (s[i] as int + 32) as char else s[i])
  }

  /** `s.replace(" ", "_")`: only the first space is replaced. */
  function ReplaceFirstSpace(s: string): (r: string)
    decreases |s|
  {
    if s == [] then []
    else if s[0] == ' ' then ['_'] + s[1..]
    else [s[0]] + ReplaceFirstSpace(s[1..])
  }

  // ---------------------------------------------------------------------------
  // Properties.

  /** The digits of `n` read back as `n`. */
  lemma {:induction false} NatToStringRoundTrip(n: nat)
    ensures DigitsValue(NatToString(n)) == n
    decreases n
  {
    var s := NatToString(n);
    if n >= 10 {
      NatToStringRoundTrip(n / 10);
      assert s[..|s| - 1] == NatToString(n / 10);
    }
  }

  /** `Number(String(n)) == n`: printing an integer and reading it back loses nothing. */
  lemma IntToStringRoundTrip(n: int)
    ensures StringToNumber(IntToString(n)) == Some(n)
    ensures ParseIntString(IntToString(n)) == Some(n)
  {
    if n < 0 {
      NegativeIntToString(n);
      SignedDigitsRead(IntToString(n));
    } else {
      NatToStringRoundTrip(n);
      DigitsRead(IntToString(n));
    }
  }

  /** `String(n)` of a negative `n` is a minus sign and the numeral of `-n`. */
  lemma NegativeIntToString(n: int)
    requires n < 0
    ensures var s := IntToString(n); |s| > 1 && s[0] == '-' && AllDigits(s[1..]) && DigitsValue(s[1..]) == -n
  {
    var m: nat := -n;
    NatToStringRoundTrip(m);
    var d := NatToString(m);
    assert DigitsValue(d) == m;
    var s := IntToString(n);
    assert s[1..] == d;
  }

  /** A numeral reads back as its value under both `Number` and `parseInt`. */
  lemma DigitsRead(d: string)
    requires d != [] && AllDigits(d)
    ensures StringToNumber(d) == Some(DigitsValue(d))
    ensures ParseIntString(d) == Some(DigitsValue(d))
  {
    assert IsDigit(d[0]) && IsDigit(d[|d| - 1]);
    TrimKeeps(d);
    assert d[..|d|] == d;
    DigitPrefixAll(d);
  }

  /** A minus sign and a numeral read back as the negated value under both `Number` and `parseInt`. */
  lemma SignedDigitsRead(s: string)
    requires |s| > 1 && s[0] == '-' && AllDigits(s[1..])
    ensures StringToNumber(s) == Some(-(DigitsValue(s[1..]) as int))
    ensures ParseIntString(s) == Some(-(DigitsValue(s[1..]) as int))
  {
    assert !IsDigit(s[0]);
    assert IsDigit(s[1..][|s| - 2]);
    TrimKeeps(s);
    assert s[1..][..|s| - 1] == s[1..];
    DigitPrefixAll(s[1..]);
  }

  /** A string that neither starts nor ends with white space is its own trim. */
  lemma TrimKeeps(s: string)
    requires s != [] && !IsSpace(s[0]) && !IsSpace(s[|s| - 1])
    ensures Trim(s) == s && TrimStart(s) == s
  {
  }

  /** The digit prefix of a numeral is all of it. */
  lemma {:induction false} DigitPrefixAll(d: string)
    requires AllDigits(d)
    ensures DigitPrefix(d) == |d|
    decreases |d|
  {
    if d != [] {
      DigitPrefixAll(d[1..]);
    }
  }

  /** `parseInt` ignores any white space put in front of its argument. */
  lemma {:induction false} ParseIntSkipsSpace(w: string, s: string)
    requires forall i :: 0 <= i < |w| ==> IsSpace(w[i])
    ensures ParseIntString(w + s) == ParseIntString(s)
    decreases |w|
  {
    if w == [] {
      assert w + s == s;
    } else {
      assert (w + s)[0] == w[0] && (w + s)[1..] == w[1..] + s;
      assert TrimStart(w + s) == TrimStart(w[1..] + s);
      ParseIntSkipsSpace(w[1..], s);
    }
  }

  /** The digit prefix of a numeral followed by anything but a digit is the numeral. */
  lemma {:induction false} DigitPrefixStops(d: string, w: string)
    requires AllDigits(d) && (w == [] || !IsDigit(w[0]))
    ensures DigitPrefix(d + w) == |d|
    decreases |d|
  {
    if d != [] {
      assert (d + w)[1..] == d[1..] + w;
      DigitPrefixStops(d[1..], w);
    }
  }

  /**
   * `isNaN` and `parseInt` agree on strings that are not blank: a numeric
   * string parses to its own value. A blank string is the exception:
   * `Number("")` and `Number(" ")` are 0 while `parseInt` of either is NaN.
   */
  lemma NumericStringParses(s: string)
    requires Trim(s) != [] && StringToNumber(s).Some?
    ensures ParseIntString(s) == StringToNumber(s)
  {
    var u := TrimStart(s);
    var t := Trim(s);
    var w := u[|t|..];
    TrimSplit(s);
    if AllDigits(t) {
      DigitsThenSpace(t, w);
    } else {
      SignedDigitsThenSpace(t, w);
    }
  }

  /** After its leading white space is dropped, a string is its trim followed by white space. */
  lemma TrimSplit(s: string)
    ensures var u := TrimStart(s); var t := Trim(s); u == t + u[|t|..] && (u[|t|..] == [] || IsSpace(u[|t|]))
  {
    var u := TrimStart(s);
    assert Trim(s) == TrimEnd(u);
    TrimEndSplit(u);
  }

  /** A string is its trailing-space trim followed by white space. */
  lemma TrimEndSplit(u: string)
    ensures var t := TrimEnd(u); u == t + u[|t|..] && (u[|t|..] == [] || IsSpace(u[|t|]))
  {
    var t := TrimEnd(u);
    assert t == u[..|t|];
    assert u == u[..|t|] + u[|t|..];
    if |t| < |u| {
      assert IsSpace(u[|t|]);
    }
  }

  /** `parseInt` reads a numeral up to the white space after it. */
  lemma DigitsThenSpace(t: string, w: string)
    requires t != [] && AllDigits(t) && (w == [] || IsSpace(w[0]))
    ensures LeadingInteger(t + w) == Some(DigitsValue(t))
  {
    assert IsDigit((t + w)[0]);
    DigitPrefixStops(t, w);
    assert (t + w)[..|t|] == t;
  }

  /** `parseInt` reads a signed numeral up to the white space after it. */
  lemma SignedDigitsThenSpace(t: string, w: string)
    requires |t| > 1 && (t[0] == '-' || t[0] == '+') && AllDigits(t[1..]) && (w == [] || IsSpace(w[0]))
    ensures LeadingInteger(t + w) == Some(if t[0] == '-' then -(DigitsValue(t[1..]) as int) else DigitsValue(t[1..]))
  {
    var u := t + w;
    assert u[0] == t[0];
    assert u[1..] == t[1..] + w;
    DigitPrefixStops(t[1..], w);
    assert u[1..][..|t| - 1] == t[1..];
  }

  /** `Number` of a blank string is 0 but `parseInt` of it is NaN. */
  lemma BlankStringIsNumericButNotParsable(s: string)
    requires Trim(s) == []
    ensures !IsNaN(Str(s))
    ensures ParseInt(Str(s)).None?
  {
    assert TrimStart(s) == [];
  }

  /** Loose equality with a string is plain equality for strings, and never holds for undefined or null. */
  lemma LooseEqualsStringOnStrings(v: Value, s: string)
    ensures v.Str? ==> (LooseEqualsString(v, s) <==> v.s == s)
    ensures v.Undefined? || v.Null? ==> !LooseEqualsString(v, s)
  {
  }

  /** A string that starts with a character other than white space, a sign or a digit is NaN to parseInt. */
  lemma WordIsNotParsable(s: string)
    requires s != [] && !IsSpace(s[0]) && !IsDigit(s[0]) && s[0] != '-' && s[0] != '+'
    ensures ParseIntString(s).None?
  {
    assert TrimStart(s) == s;
  }

  /** `Number("SESSION")` and `Number("PAGELOAD")` are NaN. */
  lemma SessionIsNotNumeric()
    ensures StringToNumber("SESSION").None? && StringToNumber("PAGELOAD").None?
  {
    TrimKeeps("SESSION");
    TrimKeeps("PAGELOAD");
    assert !IsDigit("SESSION"[0]) && !IsDigit("PAGELOAD"[0]);
  }

  /** An array holding only `s` is loosely equal to `s`. */
  lemma SingletonArrayLooselyEqualsItsString(s: string)
    ensures LooseEqualsString(Arr([Str(s)]), s)
  {
    assert ToStr(Arr([Str(s)])) == JoinComma([s]);
  }

  /** Lower-casing is idempotent. */
  lemma ToLowerAsciiIdempotent(s: string)
    ensures ToLowerAscii(ToLowerAscii(s)) == ToLowerAscii(s)
  {
  }

  /**
   * `replace(" ", "_")` with a string pattern: the first space becomes an
   * underscore and every later space stays; without a space nothing changes.
   */
  lemma {:induction false} ReplaceFirstSpaceShape(s: string)
    ensures |ReplaceFirstSpace(s)| == |s|
    ensures ' ' !in s ==> ReplaceFirstSpace(s) == s
    ensures ' ' in s ==> exists i :: (0 <= i < |s| && s[i] == ' ' && ' ' !in s[..i] &&
      ReplaceFirstSpace(s) == s[..i] + "_" + s[i + 1..])
    decreases |s|
  {
    if ' ' in s {
      var i := FirstSpaceReplaced(s);
    } else if s != [] {
      ReplaceFirstSpaceShape(s[1..]);
      assert s == [s[0]] + s[1..];
    }
  }

  /** The position of the first space, which `ReplaceFirstSpace` turns into an underscore. */
  lemma {:induction false} FirstSpaceReplaced(s: string) returns (i: nat)
    requires ' ' in s
    ensures i < |s| && s[i] == ' ' && ' ' !in s[..i]
    ensures ReplaceFirstSpace(s) == s[..i] + "_" + s[i + 1..]
    decreases |s|
  {
    if s[0] == ' ' {
      i := 0;
      assert s[..0] == [];
    } else {
      assert s == [s[0]] + s[1..];
      var j := FirstSpaceReplaced(s[1..]);
      i := j + 1;
      assert s[..i] == [s[0]] + s[1..][..j];
      assert s[i + 1..] == s[1..][j + 1..];
    }
  }

  /** "My Queue" lower-cases to "my queue", whose one space then becomes "_". */
  lemma SimpleNameExample()
    ensures ReplaceFirstSpace(ToLowerAscii("My Queue")) == "my_queue"
  {
    var lower := ToLowerAscii("My Queue");
    assert forall i :: 0 <= i < 8 ==> lower[i] == "my queue"[i];
    assert lower == "my queue";
    assert ReplaceFirstSpace(" queue") == "_queue";
    assert ReplaceFirstSpace("y queue") == "y_queue";
  }

  /** `Object.keys` throws exactly for undefined and null, and lists one property per key of an object. */
  lemma ObjectPropsShape(v: Value)
    ensures ObjectProps(v).None? <==> v.Undefined? || v.Null?
    ensures v.Obj? ==> |ObjectProps(v).value| == |v.fields.Keys|
    ensures v.Arr? ==> |ObjectProps(v).value| == |v.items|
  {
  }
}
