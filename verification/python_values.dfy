/** Python values as the search tools and the heartbeat service see them: decoded JSON
    (objects keep their insertion order, as Python dicts do), exceptions, truthiness,
    str() and repr(), iteration by a `for` loop, and str.join. */
module PyValue {

  datatype Option<+T> = None | Some(value: T)

  /** A decoded JSON value. Numbers are integers; an object is its list of entries in
      insertion order. `json.loads` keeps the last of repeated keys, so a decoded dict
      has distinct keys; the lookups below take the first entry with a key, which is
      the only one for a dict with distinct keys (see `DistinctKeys`). */
  datatype Json =
    | JNull
    | JBool(b: bool)
    | JNum(n: int)
    | JStr(s: string)
    | JArr(items: seq<Json>)
    | JObj(fields: seq<(string, Json)>)

  /** A raised Python exception: the name of its type and what str() of it gives. */
  datatype Exc = Exc(typeName: string, message: string)

  /** What a Python call does: return a value or raise. */
  datatype Outcome<+T> = Returned(value: T) | Raised(exc: Exc)

  /** The value stored under `key` (dict lookup), if any. */
  function Lookup(fields: seq<(string, Json)>, key: string): (r: Option<Json>)
    ensures r.None? <==> forall i | 0 <= i < |fields| :: fields[i].0 != key
    ensures r.Some? ==> exists i | 0 <= i < |fields| :: fields[i] == (key, r.value)
  {
    if |fields| == 0 then None
    else if fields[0].0 == key then Some(fields[0].1)
    else Lookup(fields[1..], key)
  }

  /** The lookup finds the first entry with the key. */
  lemma {:induction false} LookupFirst(fields: seq<(string, Json)>, key: string, i: nat)
    requires i < |fields| && fields[i].0 == key
    requires forall j | 0 <= j < i :: fields[j].0 != key
    ensures Lookup(fields, key) == Some(fields[i].1)
  {
    if i > 0 {
      LookupFirst(fields[1..], key, i - 1);
    }
  }

  /** `d.get(key, default)` is the first entry with the key. */
  lemma GetFirst(fields: seq<(string, Json)>, key: string, default: Json, i: nat)
    requires i < |fields| && fields[i].0 == key
    requires forall j | 0 <= j < i :: fields[j].0 != key
    ensures Get(fields, key, default) == fields[i].1
  {
    LookupFirst(fields, key, i);
  }

  /** The keys of a dict as Python holds it: no key appears twice. */
  predicate DistinctKeys(fields: seq<(string, Json)>) {
    forall i, j | 0 <= i < j < |fields| :: fields[i].0 != fields[j].0
  }

  /** In a dict with distinct keys, `d.get(key, default)` is the value of the entry
      that has the key, wherever it stands. */
  lemma GetDistinct(fields: seq<(string, Json)>, key: string, default: Json, i: nat)
    requires DistinctKeys(fields) && i < |fields| && fields[i].0 == key
    ensures Get(fields, key, default) == fields[i].1
  {
    GetFirst(fields, key, default, i);
  }

  /** `key in d` */
  predicate HasKey(fields: seq<(string, Json)>, key: string) {
    Lookup(fields, key).Some?
  }

  /** `d.get(key, default)` */
  function Get(fields: seq<(string, Json)>, key: string, default: Json): (v: Json)
    ensures !HasKey(fields, key) ==> v == default
    ensures HasKey(fields, key) ==> exists i | 0 <= i < |fields| :: fields[i] == (key, v)
  {
    match Lookup(fields, key)
    case Some(v) => v
    case None => default
  }

  /** The keys of an object, in insertion order. */
  function Keys(fields: seq<(string, Json)>): (ks: seq<string>)
    ensures |ks| == |fields|
    ensures forall i | 0 <= i < |fields| :: ks[i] == fields[i].0
  {
    seq(|fields|, i requires 0 <= i < |fields| => fields[i].0)
  }

  /** `bool(v)` */
  predicate Truthy(v: Json) {
    match v
    case JNull => false
    case JBool(b) => b
    case JNum(n) => n != 0
    case JStr(s) => s != ""
    case JArr(items) => |items| > 0
    case JObj(fields) => |fields| > 0
  }

  /** The values Python finds false are exactly None, False, 0, "", [] and {}. */
  lemma FalsyValues(v: Json)
    ensures !Truthy(v) <==>
            v == JNull || v == JBool(false) || v == JNum(0) || v == JStr("") || v == JArr([]) || v == JObj([])
  {
  }

  /** `type(v).__name__` */
  function TypeName(v: Json): string {
    match v
    case JNull => "NoneType"
    case JBool(_) => "bool"
    case JNum(_) => "int"
    case JStr(_) => "str"
    case JArr(_) => "list"
    case JObj(_) => "dict"
  }

  /** What `v.get(...)` raises when `v` is not a dict. */
  function NoGet(v: Json): (e: Exc)
    ensures e.typeName == "AttributeError"
  {
    Exc("AttributeError", "'" + TypeName(v) + "' object has no attribute 'get'")
  }

  /** What `for x in v` raises when `v` cannot be iterated. */
  function NotIterable(v: Json): (e: Exc)
    ensures e.typeName == "TypeError"
  {
    Exc("TypeError", "'" + TypeName(v) + "' object is not iterable")
  }

  /** The elements a `for` loop over `v` visits: a list's items, a dict's keys, a
      string's characters; numbers, booleans and None raise. */
  function Iterate(v: Json): (r: Outcome<seq<Json>>)
    ensures r.Raised? <==> v.JNull? || v.JBool? || v.JNum?
    ensures r.Raised? ==> r.exc == NotIterable(v)
    ensures r.Returned? ==> (|r.value| > 0 <==> Truthy(v))
    ensures v.JArr? ==> r == Returned(v.items)
    ensures r.Returned? && !v.JArr? ==> forall i | 0 <= i < |r.value| :: r.value[i].JStr?
  {
    match v
    case JArr(items) => Returned(items)
    case JObj(fields) => Returned(seq(|fields|, i requires 0 <= i < |fields| => JStr(fields[i].0)))
    case JStr(s) => Returned(seq(|s|, i requires 0 <= i < |s| => JStr([s[i]])))
    case _ => Raised(NotIterable(v))
  }

  /** The index of the first element that is not a dict, or the length when all are. */
  function FirstNonObject(xs: seq<Json>): (k: nat)
    ensures k <= |xs|
    ensures forall i | 0 <= i < k :: xs[i].JObj?
    ensures k < |xs| ==> !xs[k].JObj?
  {
    if |xs| == 0 then 0
    else if !xs[0].JObj? then 0
    else 1 + FirstNonObject(xs[1..])
  }

  /** The entries of a list whose elements are all dicts. */
  function Objects(xs: seq<Json>): (os: seq<seq<(string, Json)>>)
    requires forall i | 0 <= i < |xs| :: xs[i].JObj?
    ensures |os| == |xs|
    ensures forall i | 0 <= i < |xs| :: xs[i] == JObj(os[i])
  {
    seq(|xs|, i requires 0 <= i < |xs| => xs[i].fields)
  }

  /** The dicts of one more element. */
  lemma ObjectsSnoc(items: seq<Json>, i: nat)
    requires i < |items| && forall j | 0 <= j <= i :: items[j].JObj?
    ensures Objects(items[..i + 1]) == Objects(items[..i]) + [items[i].fields]
  {
  }

  /** Decimal digits of a natural number, as `str(n)` writes them. */
  function Decimal(n: nat): (s: string)
    ensures |s| >= 1
    ensures forall i | 0 <= i < |s| :: '0' <= s[i] <= '9'
  {
    var d := [(('0' as int) + n % 10) as char];
    if n < 10 then d else Decimal(n / 10) + d
  }

  /** The number that a string of decimal digits spells. */
  function DigitsValue(s: string): int {
    if |s| == 0 then 0 else 10 * DigitsValue(s[..|s| - 1]) + (s[|s| - 1] as int - '0' as int)
  }

  /** The digits `Decimal` writes spell the number. */
  lemma {:induction false} DecimalValue(n: nat)
    ensures DigitsValue(Decimal(n)) == n
  {
    var d := [(('0' as int) + n % 10) as char];
    if n >= 10 {
      var s := Decimal(n / 10) + d;
      assert s[..|s| - 1] == Decimal(n / 10);
      DecimalValue(n / 10);
    }
  }

  /** `str(n)` for an integer. */
  function IntText(n: int): string {
    if n < 0 then "-" + Decimal(-n) else Decimal(n)
  }

  /** The total length of `parts`. */
  function TotalLength(parts: seq<string>): nat {
    if |parts| == 0 then 0 else |parts[0]| + TotalLength(parts[1..])
  }

  /** `sep.join(parts)`: the parts with one separator between each two neighbours. */
  function Join(sep: string, parts: seq<string>): (s: string)
    ensures |parts| == 0 ==> s == ""
    ensures |parts| == 1 ==> s == parts[0]
  {
    if |parts| == 0 then ""
    else if |parts| == 1 then parts[0]
    else parts[0] + sep + Join(sep, parts[1..])
  }

  /** Joining a head with a non-empty tail puts the separator right after the head. */
  lemma {:induction false} JoinCons(sep: string, head: string, tail: seq<string>)
    requires |tail| > 0
    ensures Join(sep, [head] + tail) == head + sep + Join(sep, tail)
  {
    assert ([head] + tail)[1..] == tail;
  }

  /** The join is as long as the parts and one separator between each two of them. */
  lemma {:induction false} JoinLength(sep: string, parts: seq<string>)
    requires |parts| > 0
    ensures |Join(sep, parts)| == TotalLength(parts) + (|parts| - 1) * |sep|
  {
    if |parts| > 1 {
      JoinLength(sep, parts[1..]);
    }
  }

  /** Joining two non-empty lists puts one separator between their joins. */
  lemma {:induction false} JoinAppend(sep: string, a: seq<string>, b: seq<string>)
    requires |a| > 0 && |b| > 0
    ensures Join(sep, a + b) == Join(sep, a) + sep + Join(sep, b)
  {
    if |a| == 1 {
      assert a + b == [a[0]] + b;
      JoinCons(sep, a[0], b);
    } else {
      assert a + b == [a[0]] + (a[1..] + b);
      JoinCons(sep, a[0], a[1..] + b);
      JoinAppend(sep, a[1..], b);
      assert a == [a[0]] + a[1..];
      JoinCons(sep, a[0], a[1..]);
    }
  }

  const HexDigits := "0123456789abcdef"

  /** How repr() writes one character of a string quoted by `quote`. */
  function EscapeChar(c: char, quote: char): string {
    if c == quote || c == '\\' then ['\\', c]
    else if c == '\t' then "\\t"
    else if c == '\n' then "\\n"
    else if c == '\r' then "\\r"
    else if (c as int) < 0x20 || (c as int) == 0x7f then
      "\\x" + [HexDigits[(c as int) / 16], HexDigits[(c as int) % 16]]
    else [c]
  }

  function EscapeAll(s: string, quote: char): string {
    if |s| == 0 then "" else EscapeChar(s[0], quote) + EscapeAll(s[1..], quote)
  }

  /** A character repr() writes as it is when the text is quoted by `quote`. */
  predicate Plain(c: char, quote: char) {
    c != quote && c != '\\' && 0x20 <= (c as int) && (c as int) != 0x7f
  }

  /** Text made of plain characters is not changed by escaping. */
  lemma {:induction false} EscapeAllPlain(s: string, quote: char)
    requires forall i | 0 <= i < |s| :: Plain(s[i], quote)
    ensures EscapeAll(s, quote) == s
  {
    if |s| > 0 {
      EscapeAllPlain(s[1..], quote);
      assert s == [s[0]] + s[1..];
    }
  }

  /** `repr(s)` for a string: single quotes unless the text has a single quote and no
      double quote. */
  function StrRepr(s: string): (r: string)
    ensures |r| >= 2 && r[0] == r[|r| - 1]
    ensures r[0] == '\'' || r[0] == '"'
    ensures r[0] == '"' <==> '\'' in s && '"' !in s
  {
    var quote := if '\'' in s && '"' !in s then '"' else '\'';
    [quote] + EscapeAll(s, quote) + [quote]
  }

  /** The repr of text without quotes, backslashes or control characters is the text
      between single quotes. */
  lemma PlainStrRepr(s: string)
    requires forall i | 0 <= i < |s| :: Plain(s[i], '\'') && s[i] != '"' && (s[i] as int) < 0x7f
    ensures StrRepr(s) == "'" + s + "'"
  {
    EscapeAllPlain(s, '\'');
  }

  /** `repr(v)`: quoted for text, otherwise what str() writes. */
  function Repr(v: Json): string
    decreases v, 1
  {
    match v
    case JStr(s) => StrRepr(s)
    case _ => Str(v)
  }

  /** `str(v)`, which is also what an f-string writes for `{v}`. */
  function Str(v: Json): string
    decreases v, 0
  {
    match v
    case JNull => "None"
    case JBool(b) => if b then "True" else "False"
    case JNum(n) => IntText(n)
    case JStr(s) => s
    case JArr(items) =>
      "[" + Join(", ", seq(|items|, i requires 0 <= i < |items| => Repr(items[i]))) + "]"
    case JObj(fields) =>
      "{" + Join(", ", seq(|fields|, i requires 0 <= i < |fields| =>
        StrRepr(fields[i].0) + ": " + Repr(fields[i].1))) + "}"
  }

  /** str() writes text as it is; anything else is never empty, a list is in brackets
      and a dict in braces. */
  lemma StrShape(v: Json)
    ensures v.JStr? ==> Str(v) == v.s
    ensures !v.JStr? ==> |Str(v)| >= 1
    ensures v.JArr? ==> |Str(v)| >= 2 && Str(v)[0] == '[' && Str(v)[|Str(v)| - 1] == ']'
    ensures v.JObj? ==> |Str(v)| >= 2 && Str(v)[0] == '{' && Str(v)[|Str(v)| - 1] == '}'
  {
  }

  /** repr() is never empty and puts text between matching quotes. */
  lemma ReprShape(v: Json)
    ensures |Repr(v)| >= 1
    ensures v.JStr? ==> Repr(v)[0] == Repr(v)[|Repr(v)| - 1] && (Repr(v)[0] == '\'' || Repr(v)[0] == '"')
  {
    if !v.JStr? {
      StrShape(v);
    }
  }

  /** str() and repr() differ only on text. */
  lemma ReprIsStrExceptText(v: Json)
    requires !v.JStr?
    ensures Repr(v) == Str(v)
  {
  }

  /** A list prints its elements by their repr, between brackets. */
  lemma StrOfShortList(x: Json)
    ensures Str(JArr([])) == "[]"
    ensures Str(JArr([x])) == "[" + Repr(x) + "]"
  {
    assert seq(1, i requires 0 <= i < 1 => Repr([x][i])) == [Repr(x)];
  }

  /** `sub in s` for strings. */
  predicate Contains(s: string, sub: string) {
    |sub| <= |s| && (s[..|sub|] == sub || Contains(s[1..], sub))
  }
}
