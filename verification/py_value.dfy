/**
 * The part of Python's value model the documentation generator touches:
 * descriptor dictionaries parsed from JSON, `dict.get`, `in`, truthiness,
 * iteration and the text an f-string substitutes (`str()`, which falls back
 * to `repr()` for everything but strings).
 */
module PyValue {
  import opened Wrappers

  /** A JSON-derived Python value. A dictionary keeps its keys in insertion order. */
  datatype Value =
    | Null
    | Bool(b: bool)
    | Int(i: int)
    | Str(s: string)
    | List(items: seq<Value>)
    | Dict(entries: seq<(string, Value)>)

  /** The value bound to `key`: the first entry carrying it. */
  function Lookup(entries: seq<(string, Value)>, key: string): (r: Option<Value>)
    ensures r.Some? <==> exists i :: 0 <= i < |entries| && entries[i].0 == key
  {
    if entries == [] then None
    else if entries[0].0 == key then Some(entries[0].1)
    else Lookup(entries[1..], key)
  }

  /** `key in d` for a dictionary `d`. */
  predicate Has(d: Value, key: string)
  {
    d.Dict? && Lookup(d.entries, key).Some?
  }

  /** `d.get(key, default)` */
  function Get(d: Value, key: string, default: Value): (r: Value)
    ensures Has(d, key) ==> r == Lookup(d.entries, key).value
    ensures !Has(d, key) ==> r == default
  {
    if d.Dict? then
      match Lookup(d.entries, key)
      case Some(v) => v
      case None => default
    else default
  }

  /** The entry found is the first one with the key: later duplicates are shadowed. */
  lemma {:induction false} LookupFirst(entries: seq<(string, Value)>, key: string)
    requires Lookup(entries, key).Some?
    ensures exists i :: 0 <= i < |entries| && entries[i] == (key, Lookup(entries, key).value)
                        && forall j :: 0 <= j < i ==> entries[j].0 != key
  {
    if entries[0].0 != key {
      LookupFirst(entries[1..], key);
      var i :| 0 <= i < |entries[1..]| && entries[1..][i] == (key, Lookup(entries, key).value)
               && forall j :: 0 <= j < i ==> entries[1..][j].0 != key;
      assert entries[i + 1] == entries[1..][i];
      assert forall j :: 1 <= j < i + 1 ==> entries[j] == entries[1..][j - 1];
    } else {
      assert entries[0] == (key, Lookup(entries, key).value);
    }
  }

  /** `d.get(key, default)` gives the value of the first entry with the key, or the default when there is none. */
  lemma GetFirst(d: Value, key: string, default: Value)
    ensures Has(d, key) ==> exists i :: 0 <= i < |d.entries| && d.entries[i] == (key, Get(d, key, default))
                                        && forall j :: 0 <= j < i ==> d.entries[j].0 != key
    ensures !Has(d, key) ==> Get(d, key, default) == default
  {
    if Has(d, key) {
      LookupFirst(d.entries, key);
    }
  }

  /** `d[key]`, for a key that is present. */
  function At(d: Value, key: string): Value
    requires Has(d, key)
  {
    Lookup(d.entries, key).value
  }

  /** `bool(v)` */
  predicate Truthy(v: Value)
  {
    match v
    case Null => false
    case Bool(b) => b
    case Int(i) => i != 0
    case Str(s) => s != ""
    case List(items) => items != []
    case Dict(entries) => entries != []
  }

  /** Values a `for` loop can walk over. */
  predicate Iterable(v: Value)
  {
    v.List? || v.Dict? || v.Str?
  }

  /** The values `for x in v` visits: list items, dictionary keys, or one-character strings. */
  function Iteration(v: Value): (r: seq<Value>)
    ensures v.List? ==> r == v.items
    ensures v.Dict? ==> |r| == |v.entries| && forall i :: 0 <= i < |r| ==> r[i] == Str(v.entries[i].0)
    ensures v.Str? ==> |r| == |v.s| && forall i :: 0 <= i < |r| ==> r[i] == Str([v.s[i]])
    ensures !Iterable(v) ==> r == []
  {
    match v
    case List(items) => items
    case Dict(entries) => seq(|entries|, i requires 0 <= i < |entries| => Str(entries[i].0))
    case Str(s) => seq(|s|, i requires 0 <= i < |s| => Str([s[i]]))
    case _ => []
  }

  function DigitChar(d: nat): char
    requires d < 10
  {
    (48 + d) as char
  }

  /** Decimal digits of a natural number, most significant first, without leading zeros. */
  function NatText(n: nat): (r: string)
    ensures |r| > 0
    ensures forall i :: 0 <= i < |r| ==> '0' <= r[i] <= '9'
    ensures r[0] == '0' ==> n == 0
  {
    if n < 10 then [DigitChar(n)] else NatText(n / 10) + [DigitChar(n % 10)]
  }

  /** The value a decimal numeral denotes. */
  function NumeralValue(s: string): int
  {
    if s == [] then 0 else NumeralValue(s[..|s| - 1]) * 10 + (s[|s| - 1] as int - 48)
  }

  /** `str(n)` reads back as `n`. */
  lemma {:induction false} NatTextValue(n: nat)
    ensures NumeralValue(NatText(n)) == n
  {
    if n >= 10 {
      NatTextValue(n / 10);
      var t := NatText(n / 10) + [DigitChar(n % 10)];
      assert t[..|t| - 1] == NatText(n / 10);
    }
  }

  /** `str(i)` for an integer. */
  function IntText(i: int): string
  {
    if i < 0 then "-" + NatText(-i) else NatText(i)
  }

  const HEX_DIGITS := "0123456789abcdef"

  /** The quote `repr()` puts around a string: single, unless it holds a single quote and no double quote. */
  function QuoteFor(s: string): (q: char)
    ensures q == '"' <==> '\'' in s && '"' !in s
    ensures q == '"' || q == '\''
    ensures q in s ==> '\'' in s && '"' in s
  {
    if '\'' in s && '"' !in s then '"' else '\''
  }

  /** How `repr()` writes one character of a string quoted with `q`. */
  function EscapedChar(c: char, q: char): (r: string)
    ensures |r| >= 1
    ensures r[0] == '\\' <==> (c == q || c == '\\' || c < ' ' || c == '\U{7F}')
  {
    if c == q || c == '\\' then ['\\', c]
    else if c == '\t' then "\\t"
    else if c == '\n' then "\\n"
    else if c == '\r' then "\\r"
    else if c < ' ' || c == '\U{7F}' then
      "\\x" + [HEX_DIGITS[c as int / 16], HEX_DIGITS[c as int % 16]]
    else [c]
  }

  function EscapedText(s: string, q: char): string
  {
    if s == [] then "" else EscapedText(s[..|s| - 1], q) + EscapedChar(s[|s| - 1], q)
  }

  /** The characters `repr()` writes as themselves. */
  predicate Plain(c: char, q: char)
  {
    c != q && c != '\\' && ' ' <= c && c != '\U{7F}'
  }

  /** A string of plain characters is written as it is, between its quotes. */
  lemma {:induction false} EscapedTextPlain(s: string, q: char)
    requires forall i :: 0 <= i < |s| ==> Plain(s[i], q)
    ensures EscapedText(s, q) == s
  {
    if s != [] {
      EscapedTextPlain(s[..|s| - 1], q);
      assert s[..|s| - 1] + [s[|s| - 1]] == s;
    }
  }

  /** `repr(s)` for a string. */
  function StrRepr(s: string): (r: string)
    ensures |r| >= 2 && r[0] == QuoteFor(s) && r[|r| - 1] == QuoteFor(s)
  {
    [QuoteFor(s)] + EscapedText(s, QuoteFor(s)) + [QuoteFor(s)]
  }

  /** `repr(v)` */
  function Repr(v: Value): string
    decreases v, 1
  {
    match v
    case Null => "None"
    case Bool(b) => if b then "True" else "False"
    case Int(i) => IntText(i)
    case Str(s) => StrRepr(s)
    case List(_) => "[" + ItemsRepr(v, 0) + "]"
    case Dict(_) => "{" + EntriesRepr(v, 0) + "}"
  }

  /** The reprs of the items of a list from the `k`-th on, each after a comma but the first. */
  function ItemsRepr(v: Value, k: nat): string
    requires v.List? && k <= |v.items|
    decreases v, 0, |v.items| - k
  {
    if k == |v.items| then ""
    else (if k == 0 then "" else ", ") + Repr(v.items[k]) + ItemsRepr(v, k + 1)
  }

  /** The `key: value` reprs of the entries of a dictionary from the `k`-th on. */
  function EntriesRepr(v: Value, k: nat): string
    requires v.Dict? && k <= |v.entries|
    decreases v, 0, |v.entries| - k
  {
    if k == |v.entries| then ""
    else
      var entry := v.entries[k];
      assert entry in v.entries;
      (if k == 0 then "" else ", ") + StrRepr(entry.0) + ": " + Repr(entry.1) + EntriesRepr(v, k + 1)
  }

  /** `str(v)`, the text an f-string substitutes for `{v}`. */
  function Show(v: Value): (r: string)
    ensures v.Str? ==> r == v.s
    ensures v.Null? ==> r == "None"
    ensures v.Bool? ==> r == (if v.b then "True" else "False")
    ensures v.List? ==> |r| >= 2 && r[0] == '[' && r[|r| - 1] == ']'
    ensures v.Dict? ==> |r| >= 2 && r[0] == '{' && r[|r| - 1] == '}'
  {
    if v.Str? then v.s else Repr(v)
  }
}
