/**
 * Profile values, the printer that writes them, and a parser for the part of
 * TOML v1.0.0 (sections "Keys", "String", "Integer", "Boolean", "Array" and
 * "Inline Table") that the printer writes.
 */
module TomlValue {
  import opened Wrappers

  /**
   * A scalar. Opaque is any other Python object, known by its `str()` text: the
   * printer refuses it as a value and stringifies it as a list item.
   */
  datatype Atom = Bool(b: bool) | Int(i: int) | Str(s: string) | Opaque(text: string)

  datatype Value = Scalar(atom: Atom) | List(items: seq<Atom>) | Map(pairs: Pairs)

  /** The items of a nested dict, in insertion order. */
  datatype Pairs = NoPairs | Pair(key: string, value: Value, rest: Pairs)

  // ---------------------------------------------------------------- printing

  const DIGITS := "0123456789"

  function Decimal(n: nat): (s: string)
    ensures s != []
  {
    if n < 10 then [DIGITS[n]] else Decimal(n / 10) + [DIGITS[n % 10]]
  }

  function PrintInt(i: int): string {
    if i < 0 then "-" + Decimal(-i) else Decimal(i)
  }

  /** `str(atom)`. */
  function TextOf(a: Atom): string {
    match a
    case Bool(b) => if b then "True" else "False"
    case Int(i) => PrintInt(i)
    case Str(s) => s
    case Opaque(t) => t
  }

  function Escape(s: string): string {
    if s == [] then ""
    else (if s[0] == '\\' || s[0] == '"' then ['\\', s[0]] else [s[0]]) + Escape(s[1..])
  }

  function PrintString(s: string): string {
    "\"" + Escape(s) + "\""
  }

  function PrintItems(items: seq<Atom>): string {
    if items == [] then ""
    else PrintString(TextOf(items[0])) + if |items| == 1 then "" else ", " + PrintItems(items[1..])
  }

  /** None stands for the printer's ValueError. */
  function PrintValue(v: Value): Option<string> {
    match v
    case Scalar(Bool(b)) => Some(if b then "true" else "false")
    case Scalar(Int(i)) => Some(PrintInt(i))
    case Scalar(Str(s)) => Some(PrintString(s))
    case Scalar(Opaque(_)) => None
    case List(items) => Some("[" + PrintItems(items) + "]")
    case Map(NoPairs) => Some("{}")
    case Map(pairs) =>
      var body :- PrintPairs(pairs);
      Some("{ " + body + " }")
  }

  function PrintPairs(pairs: Pairs): Option<string> {
    match pairs
    case NoPairs => Some("")
    case Pair(key, value, rest) =>
      var text :- PrintValue(value);
      if rest.NoPairs? then Some(key + " = " + text) else
      var more :- PrintPairs(rest);
      Some(key + " = " + text + ", " + more)
  }

  // ---------------------------------------------------------------- parsing

  predicate IsBlank(c: char) {
    c == ' ' || c == '\t'
  }

  predicate IsDigit(c: char) {
    '0' <= c <= '9'
  }

  predicate IsBareChar(c: char) {
    'A' <= c <= 'Z' || 'a' <= c <= 'z' || IsDigit(c) || c == '_' || c == '-'
  }

  predicate IsBareKey(s: string) {
    s != [] && forall i | 0 <= i < |s| :: IsBareChar(s[i])
  }

  /** The characters that may stand unescaped in a string or a comment. */
  predicate IsPlain(c: char) {
    c == '\t' || (' ' <= c && c != '\U{7F}')
  }

  function SkipBlanks(s: string): (r: string)
    ensures |r| <= |s|
  {
    if s != [] && IsBlank(s[0]) then SkipBlanks(s[1..]) else s
  }

  /** The inside of a string, up to its closing quote. */
  function ParseChars(s: string): (r: Option<(string, string)>)
    ensures r.Some? ==> |r.value.1| < |s|
  {
    if s == [] then None
    else if s[0] == '"' then Some(("", s[1..]))
    else if s[0] == '\\' then
      if |s| < 2 || (s[1] != '\\' && s[1] != '"') then None else
      var (text, rest) :- ParseChars(s[2..]);
      Some(([s[1]] + text, rest))
    else if IsPlain(s[0]) then
      var (text, rest) :- ParseChars(s[1..]);
      Some(([s[0]] + text, rest))
    else None
  }

  function ParseString(s: string): (r: Option<(string, string)>)
    ensures r.Some? ==> |r.value.1| < |s|
  {
    if s != [] && s[0] == '"' then ParseChars(s[1..]) else None
  }

  /** One or more strings and the closing bracket. */
  function ParseItems(s: string): (r: Option<(seq<Atom>, string)>)
    ensures r.Some? ==> |r.value.1| < |s|
    decreases |s|
  {
    var (text, rest) :- ParseString(s);
    var next := SkipBlanks(rest);
    if next == [] then None
    else if next[0] == ']' then Some(([Str(text)], next[1..]))
    else if next[0] == ',' then
      var (items, end) :- ParseItems(SkipBlanks(next[1..]));
      Some(([Str(text)] + items, end))
    else None
  }

  /** How many characters of s, from the front, satisfy p. */
  function Run(s: string, p: char -> bool): (n: nat)
    ensures n <= |s|
    ensures forall i | 0 <= i < n :: p(s[i])
    ensures n < |s| ==> !p(s[n])
  {
    if s != [] && p(s[0]) then 1 + Run(s[1..], p) else 0
  }

  function DigitValue(c: char): nat
    requires IsDigit(c)
  {
    c as int - '0' as int
  }

  function FromDecimal(s: string): (n: nat)
    requires forall i | 0 <= i < |s| :: IsDigit(s[i])
  {
    if s == [] then 0 else 10 * FromDecimal(s[..|s| - 1]) + DigitValue(s[|s| - 1])
  }

  /** A decimal number without leading zeros. */
  function ParseNat(s: string): (r: Option<(nat, string)>)
    ensures r.Some? ==> |r.value.1| < |s|
  {
    var n := Run(s, IsDigit);
    if n == 0 || (n > 1 && s[0] == '0') then None else Some((FromDecimal(s[..n]), s[n..]))
  }

  predicate HasKey(pairs: Pairs, key: string) {
    pairs.Pair? && (pairs.key == key || HasKey(pairs.rest, key))
  }

  function ParseValue(s: string): (r: Option<(Value, string)>)
    ensures r.Some? ==> |r.value.1| < |s|
    decreases |s|, 0
  {
    if s == [] then None
    else if s[0] == '"' then
      var (text, rest) :- ParseString(s);
      Some((Scalar(Str(text)), rest))
    else if s[0] == '[' then
      var inside := SkipBlanks(s[1..]);
      if inside != [] && inside[0] == ']' then Some((List([]), inside[1..])) else
      var (items, rest) :- ParseItems(inside);
      Some((List(items), rest))
    else if s[0] == '{' then
      var inside := SkipBlanks(s[1..]);
      if inside != [] && inside[0] == '}' then Some((Map(NoPairs), inside[1..])) else
      var (pairs, rest) :- ParsePairs(inside);
      Some((Map(pairs), rest))
    else if s[0] == '-' then
      var (n, rest) :- ParseNat(s[1..]);
      Some((Scalar(Int(0 - n)), rest))
    else if "true" <= s then Some((Scalar(Bool(true)), s[4..]))
    else if "false" <= s then Some((Scalar(Bool(false)), s[5..]))
    else
      var (n, rest) :- ParseNat(s);
      Some((Scalar(Int(n)), rest))
  }

  /** A bare key, an equals sign and a value. */
  function ParsePair(s: string): (r: Option<(string, Value, string)>)
    ensures r.Some? ==> |r.value.2| < |s| && IsBareKey(r.value.0)
    decreases |s|, 1
  {
    var n := Run(s, IsBareChar);
    var sign := SkipBlanks(s[n..]);
    if n == 0 || sign == [] || sign[0] != '=' then None else
    var (value, rest) :- ParseValue(SkipBlanks(sign[1..]));
    Some((s[..n], value, rest))
  }

  /** One or more pairs with distinct keys and the closing brace. */
  function ParsePairs(s: string): (r: Option<(Pairs, string)>)
    ensures r.Some? ==> |r.value.1| < |s|
    decreases |s|, 2
  {
    var (key, value, rest) :- ParsePair(s);
    var next := SkipBlanks(rest);
    if next == [] then None
    else if next[0] == '}' then Some((Pair(key, value, NoPairs), next[1..]))
    else if next[0] == ',' then
      var (more, end) :- ParsePairs(SkipBlanks(next[1..]));
      if HasKey(more, key) then None else Some((Pair(key, value, more), end))
    else None
  }

  // ---------------------------------------------------------------- what survives a round trip

  predicate PlainText(s: string) {
    forall i | 0 <= i < |s| :: IsPlain(s[i])
  }

  predicate CleanItems(items: seq<Atom>) {
    forall i | 0 <= i < |items| :: items[i].Str? && PlainText(items[i].s)
  }

  /** Booleans, integers, control-free strings, lists of those strings, and nested dicts with bare, distinct keys. */
  predicate Clean(v: Value) {
    match v
    case Scalar(Bool(_)) | Scalar(Int(_)) => true
    case Scalar(Str(s)) => PlainText(s)
    case Scalar(Opaque(_)) => false
    case List(items) => CleanItems(items)
    case Map(pairs) => CleanPairs(pairs)
  }

  predicate CleanPairs(pairs: Pairs) {
    match pairs
    case NoPairs => true
    case Pair(key, value, rest) => IsBareKey(key) && !HasKey(rest, key) && Clean(value) && CleanPairs(rest)
  }
}
