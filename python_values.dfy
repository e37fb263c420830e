/** The part of Python's data model that the event forwarder relies on: the values
    json.loads produces, dictionaries that keep their keys in insertion order,
    `d.get(k, default)`, `d[k] = v`, subscripting with its exceptions, and str()/repr(). */
module PyValues {

  datatype Option<+T> = None | Some(value: T)

  /** A value as the Lambda runtime hands it to a handler after json.loads:
      None, bool, int, str, list or dict. A dict is its sequence of items in
      insertion order, as Python keeps it. */
  datatype Value =
    | Null
    | Bool(b: bool)
    | Int(i: int)
    | Str(s: string)
    | List(elems: seq<Value>)
    | Dict(items: seq<Item>)

  datatype Item = Item(key: string, val: Value)

  /** The exceptions the handler can meet. SdkError stands for whatever the AWS
      SDK raises from a call (a service error, a parameter check, the network). */
  datatype PyException =
    | AttributeError(name: string)
    | KeyError(key: Value)
    | IndexError
    | TypeError
    | SdkError(message: string)

  datatype Result<+T> = Ok(value: T) | Raise(error: PyException)

  // ---------------------------------------------------------------------------
  // Dictionaries

  /** The keys of a dict, in insertion order. */
  function Keys(d: seq<Item>): (ks: seq<string>)
    ensures |ks| == |d|
  {
    if d == [] then [] else [d[0].key] + Keys(d[1..])
  }

  /** Python dicts never hold a key twice. */
  predicate DistinctKeys(d: seq<Item>) {
    var ks := Keys(d);
    forall i, j :: 0 <= i < j < |ks| ==> ks[i] != ks[j]
  }

  /** `d[k]` when it exists: the value stored under k. */
  function Get(d: seq<Item>, k: string): Option<Value> {
    if d == [] then None
    else if d[0].key == k then Some(d[0].val)
    else Get(d[1..], k)
  }

  lemma GetSingle(k0: string, v: Value, k: string)
    ensures Get([Item(k0, v)], k) == if k0 == k then Some(v) else None
  {
    assert [Item(k0, v)][1..] == [];
  }

  /** `k in d` */
  predicate HasKey(d: seq<Item>, k: string) {
    Get(d, k).Some?
  }

  /** A key is found exactly when it is one of the dict's keys. */
  lemma {:induction false} HasKeyIsInKeys(d: seq<Item>, k: string)
    ensures HasKey(d, k) <==> k in Keys(d)
  {
    if d != [] {
      HasKeyIsInKeys(d[1..], k);
      assert Keys(d) == [d[0].key] + Keys(d[1..]);
    }
  }

  /** `d.get(k, default)` */
  function GetOr(d: seq<Item>, k: string, default: Value): (r: Value)
    ensures HasKey(d, k) ==> Get(d, k) == Some(r)
    ensures !HasKey(d, k) ==> r == default
  {
    match Get(d, k)
    case Some(v) => v
    case None => default
  }

  /** `d[k] = v`: an existing key keeps its place and takes the new value,
      a new key goes at the end. */
  function Put(d: seq<Item>, k: string, v: Value): (r: seq<Item>)
    ensures Get(r, k) == Some(v)
    ensures forall k' :: k' != k ==> Get(r, k') == Get(d, k')
  {
    if d == [] then [Item(k, v)]
    else if d[0].key == k then
      TailOfCons(Item(k, v), d[1..]);
      [Item(k, v)] + d[1..]
    else
      var rest := Put(d[1..], k, v);
      TailOfCons(d[0], rest);
      [d[0]] + rest
  }

  lemma TailOfCons(x: Item, rest: seq<Item>)
    ensures ([x] + rest)[1..] == rest
  {
  }

  /** Assignment keeps the insertion order: an existing key stays where it is,
      a new one is appended. */
  lemma {:induction false} PutKeys(d: seq<Item>, k: string, v: Value)
    ensures Keys(Put(d, k, v)) == if HasKey(d, k) then Keys(d) else Keys(d) + [k]
  {
    if d != [] && d[0].key != k {
      PutKeys(d[1..], k, v);
      assert Put(d, k, v)[1..] == Put(d[1..], k, v);
    }
  }

  lemma PutKeepsKeysDistinct(d: seq<Item>, k: string, v: Value)
    ensures DistinctKeys(d) ==> DistinctKeys(Put(d, k, v))
  {
    if DistinctKeys(d) {
      var ks, rs := Keys(d), Keys(Put(d, k, v));
      HasKeyIsInKeys(d, k);
      PutKeys(d, k, v);
      forall i, j | 0 <= i < j < |rs| ensures rs[i] != rs[j] {
        if k !in ks && j == |ks| {
          assert ks[i] in ks;
        } else {
          assert rs[i] == ks[i] && rs[j] == ks[j];
        }
      }
    }
  }

  /** Assigning a key the dict does not hold appends the pair. */
  lemma {:induction false} PutAppends(d: seq<Item>, k: string, v: Value)
    requires !HasKey(d, k)
    ensures Put(d, k, v) == d + [Item(k, v)]
  {
    if d != [] {
      PutAppends(d[1..], k, v);
      assert d == [d[0]] + d[1..];
    }
  }

  // ---------------------------------------------------------------------------
  // Subscripting and comparison

  /** `v[k]` with a str key: only a dict accepts it; a missing key is a KeyError,
      and subscripting a list, a str or a scalar with a str is a TypeError. */
  function Lookup(v: Value, k: string): (r: Result<Value>)
    ensures r.Ok? <==> v.Dict? && HasKey(v.items, k)
    ensures r.Ok? ==> Get(v.items, k) == Some(r.value)
    ensures v.Dict? && r.Raise? ==> r.error == KeyError(Str(k))
    ensures !v.Dict? ==> r == Raise(TypeError)
  {
    match v
    case Dict(items) =>
      (match Get(items, k)
       case Some(x) => Ok(x)
       case None => Raise(KeyError(Str(k))))
    case _ => Raise(TypeError)
  }

  /** `bool(v)`: None, False, 0, the empty str, list and dict are false. */
  predicate Truthy(v: Value) {
    match v
    case Null => false
    case Bool(b) => b
    case Int(i) => i != 0
    case Str(s) => s != ""
    case List(xs) => xs != []
    case Dict(items) => items != []
  }

  /** Python's normalisation of a sequence index: -1 is the last element. */
  function PyIndex(n: nat, i: int): (r: Option<nat>)
    ensures r.Some? <==> -(n as int) <= i < n
    ensures r.Some? ==> r.value < n && (r.value == i || r.value == i + n)
  {
    if 0 <= i < n then Some(i)
    else if -(n as int) <= i < 0 then Some(i + n)
    else None
  }

  /** `v[i]` with an int index: a list or a str is indexed (negative indices count
      from the end, out of range is an IndexError); a dict looks the int up as a
      key, which its str keys never equal; anything else is a TypeError. */
  function At(v: Value, i: int): (r: Result<Value>)
    ensures r.Ok? <==> (v.List? && -(|v.elems| as int) <= i < |v.elems|) || (v.Str? && -(|v.s| as int) <= i < |v.s|)
    ensures v.List? && 0 <= i < |v.elems| ==> r == Ok(v.elems[i])
    ensures v.List? && -(|v.elems| as int) <= i < 0 ==> r == Ok(v.elems[i + |v.elems|])
    ensures v.Str? && 0 <= i < |v.s| ==> r == Ok(Str([v.s[i]]))
    ensures v.Str? && -(|v.s| as int) <= i < 0 ==> r == Ok(Str([v.s[i + |v.s|]]))
    ensures (v.List? || v.Str?) && r.Raise? ==> r.error == IndexError
    ensures v.Dict? ==> r == Raise(KeyError(Int(i)))
    ensures v.Null? || v.Bool? || v.Int? ==> r == Raise(TypeError)
  {
    match v
    case List(xs) =>
      (match PyIndex(|xs|, i)
       case Some(j) => Ok(xs[j])
       case None => Raise(IndexError))
    case Str(s) =>
      (match PyIndex(|s|, i)
       case Some(j) => Ok(Str([s[j]]))
       case None => Raise(IndexError))
    case Dict(_) => Raise(KeyError(Int(i)))
    case _ => Raise(TypeError)
  }

  /** `v > 0`: an int compares by value, a bool as 0 or 1, and None, a str, a list
      or a dict cannot be ordered against an int. */
  function IsPositive(v: Value): (r: Result<bool>)
    ensures r.Ok? <==> v.Int? || v.Bool?
    ensures v.Int? ==> r == Ok(v.i > 0)
    ensures v.Bool? ==> r == Ok(v.b)
    ensures !(v.Int? || v.Bool?) ==> r == Raise(TypeError)
  {
    match v
    case Int(i) => Ok(i > 0)
    case Bool(b) => Ok(b)
    case _ => Raise(TypeError)
  }

  // ---------------------------------------------------------------------------
  // str() and repr()

  predicate IsDigit(c: char) { '0' <= c <= '9' }

  function DigitChar(n: nat): (c: char)
    requires n < 10
    ensures IsDigit(c) && DigitOf(c) == n
  {
    ('0' as int + n) as char
  }

  function DigitOf(c: char): nat
    requires IsDigit(c)
  {
    c as int - '0' as int
  }

  /** The decimal numeral of a natural number, as str() writes it: at least one
      digit and no leading zero. */
  function Digits(n: nat): (s: string)
    ensures |s| > 0 && forall c :: c in s ==> IsDigit(c)
    ensures s[0] == '0' ==> n == 0 && s == "0"
  {
    if n < 10 then [DigitChar(n)] else Digits(n / 10) + [DigitChar(n % 10)]
  }

  /** str() of an int: a minus sign exactly for a negative number, then digits. */
  function Decimal(i: int): (s: string)
    ensures |s| > 0 && (s[0] == '-' <==> i < 0)
    ensures forall c :: c in s[if i < 0 then 1 else 0..] ==> IsDigit(c)
    ensures |s| > (if i < 0 then 1 else 0)
  {
    if i < 0 then "-" + Digits(-i)
    else assert Digits(i)[0] in Digits(i); Digits(i)
  }

  /** The number that a string of decimal digits denotes. */
  function DigitsValue(s: string): nat
    requires forall c :: c in s ==> IsDigit(c)
  {
    if s == [] then 0
    else DigitsValue(s[..|s| - 1]) * 10 + DigitOf(s[|s| - 1])
  }

  /** The integer a decimal numeral with an optional minus sign denotes. */
  function DecimalValue(s: string): Option<int> {
    if |s| > 1 && s[0] == '-' && forall c :: c in s[1..] ==> IsDigit(c) then
      Some(-(DigitsValue(s[1..]) as int))
    else if |s| > 0 && forall c :: c in s ==> IsDigit(c) then
      Some(DigitsValue(s))
    else None
  }

  lemma {:induction false} DigitsRoundTrip(n: nat)
    ensures DigitsValue(Digits(n)) == n
  {
    if n >= 10 {
      DigitsRoundTrip(n / 10);
      var s := Digits(n);
      assert s[..|s| - 1] == Digits(n / 10);
    }
  }

  /** str() of an int loses nothing: the numeral gives the int back. */
  lemma DecimalRoundTrip(i: int)
    ensures DecimalValue(Decimal(i)) == Some(i)
  {
    if i < 0 {
      DigitsRoundTrip(-i);
      assert Decimal(i)[1..] == Digits(-i);
    } else {
      DigitsRoundTrip(i);
      assert Decimal(i)[0] in Digits(i);
    }
  }

  /** A lowercase hex digit: the decimal digits, then `a` to `f`. */
  function HexDigit(n: nat): (c: char)
    requires n < 16
  {
    if n < 10 then DigitChar(n) else ('a' as int + n - 10) as char
  }

  function HexValue(c: char): Option<nat> {
    if IsDigit(c) then Some(DigitOf(c))
    else if 'a' <= c <= 'f' then Some(c as int - 'a' as int + 10)
    else None
  }

  /** The characters below U+0100 that Python's str.isprintable() rejects:
      the C0 and C1 controls, DEL, the no-break space and the soft hyphen. */
  predicate NonPrintable(c: char) {
    c as int < 0x20 || 0x7f <= c as int <= 0xa0 || c as int == 0xad
  }

  /** The quote repr() puts around a string: a single quote unless the string
      holds a single quote and no double quote. */
  function QuoteFor(s: string): (q: char)
    ensures q == '\'' || q == '"'
  {
    if '\'' in s && '"' !in s then '"' else '\''
  }

  /** How repr() writes one character of a string quoted with q. */
  function EscapeChar(c: char, q: char): string {
    if c == '\\' then "\\\\"
    else if c == q then ['\\', q]
    else if c == '\t' then "\\t"
    else if c == '\n' then "\\n"
    else if c == '\r' then "\\r"
    else if NonPrintable(c) then ['\\', 'x', HexDigit(c as int / 16), HexDigit(c as int % 16)]
    else [c]
  }

  function Escape(s: string, q: char): string {
    if s == [] then "" else EscapeChar(s[0], q) + Escape(s[1..], q)
  }

  /** repr() of a str. */
  function Quote(s: string): (r: string)
    ensures |r| >= 2 && r[0] == r[|r| - 1] == QuoteFor(s)
  {
    var q := QuoteFor(s);
    [q] + Escape(s, q) + [q]
  }

  /** Reads back the escapes EscapeChar writes. */
  function Unescape(t: string): Option<string> {
    if t == [] then Some([])
    else if t[0] != '\\' then
      (match Unescape(t[1..])
       case Some(rest) => Some([t[0]] + rest)
       case None => None)
    else if |t| < 2 then None
    else
      var c: Option<char> :=
        if t[1] == '\\' || t[1] == '\'' || t[1] == '"' then Some(t[1])
        else if t[1] == 't' then Some('\t')
        else if t[1] == 'n' then Some('\n')
        else if t[1] == 'r' then Some('\r')
        else None;
      if c.Some? then
        (match Unescape(t[2..])
         case Some(rest) => Some([c.value] + rest)
         case None => None)
      else if t[1] == 'x' && |t| >= 4 && HexValue(t[2]).Some? && HexValue(t[3]).Some? then
        (match Unescape(t[4..])
         case Some(rest) => Some([(HexValue(t[2]).value * 16 + HexValue(t[3]).value) as char] + rest)
         case None => None)
      else None
  }

  /** Reads a quoted string literal back. */
  function Unquote(r: string): Option<string> {
    if |r| >= 2 && r[0] == r[|r| - 1] && (r[0] == '\'' || r[0] == '"') then Unescape(r[1..|r| - 1])
    else None
  }

  lemma HexRoundTrip(n: nat)
    requires n < 16
    ensures HexValue(HexDigit(n)) == Some(n)
  {
  }

  lemma EscapeCharRoundTrip(c: char, q: char, rest: string)
    requires q == '\'' || q == '"'
    ensures Unescape(EscapeChar(c, q) + rest) ==
      match Unescape(rest) case Some(u) => Some([c] + u) case None => None
  {
    var t := EscapeChar(c, q) + rest;
    if c == '\\' || c == q || c == '\t' || c == '\n' || c == '\r' {
      assert t[2..] == rest;
    } else if NonPrintable(c) {
      var hi, lo := c as int / 16, c as int % 16;
      HexRoundTrip(hi);
      HexRoundTrip(lo);
      assert t[4..] == rest;
      assert (hi * 16 + lo) as char == c;
    } else {
      assert t[1..] == rest;
    }
  }

  lemma {:induction false} EscapeRoundTrip(s: string, q: char)
    requires q == '\'' || q == '"'
    ensures Unescape(Escape(s, q)) == Some(s)
  {
    if s != [] {
      EscapeRoundTrip(s[1..], q);
      EscapeCharRoundTrip(s[0], q, Escape(s[1..], q));
      assert [s[0]] + s[1..] == s;
    }
  }

  /** repr() of a str loses nothing: the literal reads back as the string. */
  lemma QuoteRoundTrip(s: string)
    ensures Unquote(Quote(s)) == Some(s)
  {
    var q := QuoteFor(s);
    var r := Quote(s);
    assert r[1..|r| - 1] == Escape(s, q);
    EscapeRoundTrip(s, q);
  }

  /** `", ".join(parts)` */
  function Join(parts: seq<string>): string {
    if |parts| == 0 then ""
    else if |parts| == 1 then parts[0]
    else parts[0] + ", " + Join(parts[1..])
  }

  /** repr() of a value: lists and dicts show their members with repr(). */
  function Repr(v: Value): (r: string)
    ensures v.Str? ==> Unquote(r) == Some(v.s)
    ensures v.Int? ==> DecimalValue(r) == Some(v.i)
    ensures v.List? ==> |r| >= 2 && r[0] == '[' && r[|r| - 1] == ']'
    ensures v.Dict? ==> |r| >= 2 && r[0] == '{' && r[|r| - 1] == '}'
    ensures v.Null? ==> r == "None"
    ensures v.Bool? ==> r == (if v.b then "True" else "False")
  {
    match v
    case Null => "None"
    case Bool(b) => if b then "True" else "False"
    case Int(i) => DecimalRoundTrip(i); Decimal(i)
    case Str(s) => QuoteRoundTrip(s); Quote(s)
    case List(xs) =>
      "[" + Join(seq(|xs|, k requires 0 <= k < |xs| => Repr(xs[k]))) + "]"
    case Dict(items) =>
      "{" + Join(seq(|items|, k requires 0 <= k < |items| => Quote(items[k].key) + ": " + Repr(items[k].val))) + "}"
  }

  /** str() of a value: a str is itself, everything else is its repr(). */
  function PyStr(v: Value): (r: string)
    ensures v.Str? ==> r == v.s
    ensures v.Int? ==> DecimalValue(r) == Some(v.i)
    ensures !v.Str? && !v.Int? ==> r == Repr(v)
  {
    match v
    case Str(s) => s
    case Int(i) => DecimalRoundTrip(i); Decimal(i)
    case _ => Repr(v)
  }
}
