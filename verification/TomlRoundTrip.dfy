/** Printing and then parsing a value gives the value back, exactly when it is clean. */
module TomlRoundTrip {
  import opened Wrappers
  import opened TomlValue

  // ---------------------------------------------------------------- strings

  lemma {:induction false} CharsBack(s: string, rest: string)
    requires PlainText(s)
    ensures ParseChars(Escape(s) + "\"" + rest) == Some((s, rest))
    decreases |s|
  {
    var text := Escape(s) + "\"" + rest;
    if s == [] {
      assert text[1..] == rest;
    } else {
      CharsBack(s[1..], rest);
      var tail := Escape(s[1..]) + "\"" + rest;
      assert [s[0]] + s[1..] == s;
      if s[0] == '\\' || s[0] == '"' {
        assert text == ['\\', s[0]] + tail;
        assert text[2..] == tail;
      } else {
        assert text == [s[0]] + tail;
        assert text[1..] == tail;
      }
    }
  }

  lemma StringBack(s: string, rest: string)
    requires PlainText(s)
    ensures ParseString(PrintString(s) + rest) == Some((s, rest))
  {
    CharsBack(s, rest);
    assert (PrintString(s) + rest)[1..] == Escape(s) + "\"" + rest;
  }

  lemma Regroup(a: string, sep: string, b: string, c: string)
    ensures a + (sep + b) + c == a + (sep + (b + c)) && a + sep + b + c == a + (sep + (b + c))
  {
  }

  /** Text that does not begin with a blank is left alone, and one blank before it is skipped. */
  lemma SkipOneBlank(t: string)
    requires t != [] && !IsBlank(t[0])
    ensures SkipBlanks(t) == t && SkipBlanks(" " + t) == t
  {
    assert (" " + t)[1..] == t;
  }

  lemma {:induction false} ItemsBack(items: seq<Atom>, rest: string)
    requires items != [] && CleanItems(items)
    ensures ParseItems(PrintItems(items) + ("]" + rest)) == Some((items, rest))
    decreases |items|
  {
    hide ParseItems, SkipBlanks;
    var first := items[0].s;
    var end := "]" + rest;
    if |items| == 1 {
      LastItem(first, rest);
      assert items == [Str(first)];
      assert PrintItems(items) == PrintString(first) + "";
      assert PrintItems(items) + end == PrintString(first) + end;
    } else {
      ItemsBack(items[1..], rest);
      var tail := PrintItems(items[1..]) + end;
      MoreItems(first, items[1..], tail, rest);
      assert items == [Str(first)] + items[1..];
      Regroup(PrintString(first), ", ", PrintItems(items[1..]), end);
    }
  }

  lemma LastItem(first: string, rest: string)
    requires PlainText(first)
    ensures ParseItems(PrintString(first) + ("]" + rest)) == Some(([Str(first)], rest))
  {
    hide ParseString, PrintString;
    StringBack(first, "]" + rest);
    assert ("]" + rest)[1..] == rest;
  }

  lemma MoreItems(first: string, more: seq<Atom>, tail: string, rest: string)
    requires PlainText(first) && ParseItems(tail) == Some((more, rest)) && tail != [] && tail[0] == '"'
    ensures ParseItems(PrintString(first) + (", " + tail)) == Some(([Str(first)] + more, rest))
  {
    hide ParseString, PrintString;
    StringBack(first, ", " + tail);
    assert (", " + tail)[1..] == " " + tail;
    SkipOneBlank(tail);
    assert SkipBlanks(", " + tail) == ", " + tail;
  }

  // ---------------------------------------------------------------- numbers

  lemma {:induction false} DecimalDigits(n: nat)
    ensures forall i | 0 <= i < |Decimal(n)| :: IsDigit(Decimal(n)[i])
    ensures FromDecimal(Decimal(n)) == n
    ensures n > 0 ==> Decimal(n)[0] != '0'
    ensures n == 0 ==> Decimal(n) == "0"
  {
    if n >= 10 {
      DecimalDigits(n / 10);
      assert Decimal(n)[..|Decimal(n)| - 1] == Decimal(n / 10);
      assert DigitValue(DIGITS[n % 10]) == n % 10;
    } else {
      assert Decimal(n)[..0] == [];
      assert FromDecimal(Decimal(n)) == DigitValue(DIGITS[n]);
    }
  }

  lemma {:induction false} RunOver(s: string, rest: string, p: char -> bool)
    requires forall i | 0 <= i < |s| :: p(s[i])
    requires rest == [] || !p(rest[0])
    ensures Run(s + rest, p) == |s|
  {
    if s == [] {
      assert s + rest == rest;
    } else {
      assert (s + rest)[1..] == s[1..] + rest;
      RunOver(s[1..], rest, p);
    }
  }

  /** A number's text ends where no digit follows. */
  predicate Stops(rest: string) {
    rest == [] || !IsDigit(rest[0])
  }

  lemma NatBack(n: nat, rest: string)
    requires Stops(rest)
    ensures IsDigit((Decimal(n) + rest)[0]) && ParseNat(Decimal(n) + rest) == Some((n, rest))
  {
    DecimalDigits(n);
    var s := Decimal(n);
    RunOver(s, rest, IsDigit);
    assert (s + rest)[..|s|] == s && (s + rest)[|s|..] == rest;
  }

  // ---------------------------------------------------------------- keys

  lemma KeyBack(key: string, text: string, rest: string, v: Value)
    requires IsBareKey(key) && text != [] && !IsBlank(text[0])
    requires ParseValue(text + rest) == Some((v, rest))
    ensures ParsePair(key + " = " + text + rest) == Some((key, v, rest))
  {
    hide *;
    KeyBefore(key, text + rest, rest, v);
    assert key + " = " + text + rest == key + (" = " + (text + rest));
  }

  lemma KeyBefore(key: string, t: string, rest: string, v: Value)
    requires IsBareKey(key) && t != [] && !IsBlank(t[0]) && ParseValue(t) == Some((v, rest))
    ensures ParsePair(key + (" = " + t)) == Some((key, v, rest))
  {
    hide ParseValue;
    var after := " = " + t;
    var s := key + after;
    RunOver(key, after, IsBareChar);
    assert s[..|key|] == key && s[|key|..] == after;
    var sign := "= " + t;
    assert after == " " + sign && sign[1..] == " " + t;
    SkipOneBlank(sign);
    SkipOneBlank(t);
  }

  // ---------------------------------------------------------------- values

  /** Whether a printed value starts like one: not with a blank, and never with a closing bracket or brace. */
  predicate Starts(text: string) {
    text != [] && !IsBlank(text[0]) && text[0] != ']' && text[0] != '}'
  }

  /** A text that is a natural number, with or without a minus sign, is an integer value. */
  lemma NumberValue(text: string, n: nat, rest: string)
    requires text != [] && IsDigit(text[0]) && ParseNat(text) == Some((n, rest))
    ensures ParseValue(text) == Some((Scalar(Int(n)), rest))
    ensures ParseValue("-" + text) == Some((Scalar(Int(0 - n)), rest))
  {
    hide ParseNat;
    assert ("-" + text)[1..] == text;
  }

  lemma IntBack(i: int, rest: string)
    requires Stops(rest)
    ensures Starts(PrintInt(i)) && ParseValue(PrintInt(i) + rest) == Some((Scalar(Int(i)), rest))
  {
    var n := if i < 0 then -i else i;
    NatBack(n, rest);
    hide ParseValue, ParseNat, Decimal;
    var text := Decimal(n) + rest;
    NumberValue(text, n, rest);
    assert ("-" + Decimal(n)) + rest == "-" + text;
    assert text[0] == Decimal(n)[0];
  }

  lemma BoolBack(b: bool, rest: string)
    ensures var text := if b then "true" else "false"; ParseValue(text + rest) == Some((Scalar(Bool(b)), rest))
  {
    var text := (if b then "true" else "false") + rest;
    assert b ==> text[4..] == rest;
    assert !b ==> text[5..] == rest;
  }

  lemma ScalarBack(a: Atom, rest: string)
    requires Clean(Scalar(a)) && Stops(rest)
    ensures var p := PrintValue(Scalar(a)); p.Some? && Starts(p.value) && ParseValue(p.value + rest) == Some((Scalar(a), rest))
  {
    match a
    case Bool(b) =>
      hide ParseValue;
      BoolBack(b, rest);
    case Int(i) =>
      hide ParseValue, PrintInt;
      IntBack(i, rest);
    case Str(s) => StringBack(s, rest);
  }

  lemma EmptyItems()
    ensures PrintItems([]) == ""
  {
  }

  lemma FirstQuote(items: seq<Atom>)
    requires items != []
    ensures PrintItems(items) != [] && PrintItems(items)[0] == '"'
  {
  }

  lemma ListBack(items: seq<Atom>, rest: string)
    requires CleanItems(items)
    ensures var p := PrintValue(List(items)); p.Some? && Starts(p.value) && ParseValue(p.value + rest) == Some((List(items), rest))
  {
    hide ParseItems, PrintItems, ParsePairs;
    var text := PrintValue(List(items)).value + rest;
    var inside := PrintItems(items) + "]" + rest;
    assert text[1..] == inside;
    if items == [] {
      assert PrintItems(items) == "" by {
        EmptyItems();
      }
      assert inside == "]" + rest && inside[1..] == rest;
    } else {
      FirstQuote(items);
      assert inside == PrintItems(items) + ("]" + rest);
      ItemsBack(items, rest);
    }
  }

  lemma {:induction false} ValueBack(v: Value, rest: string)
    requires Clean(v) && Stops(rest)
    ensures PrintValue(v).Some? && Starts(PrintValue(v).value)
    ensures ParseValue(PrintValue(v).value + rest) == Some((v, rest))
    decreases v
  {
    match v
    case Scalar(a) => ScalarBack(a, rest);
    case List(items) => ListBack(items, rest);
    case Map(NoPairs) =>
      var text := "{}" + rest;
      assert text[1..] == "}" + rest && ("}" + rest)[1..] == rest;
    case Map(pairs) =>
      PairsBack(pairs, rest);
      var body := PrintPairs(pairs).value;
      MapText(pairs, body, rest);
  }

  lemma MapText(pairs: Pairs, body: string, rest: string)
    requires pairs.Pair? && PrintPairs(pairs) == Some(body) && Starts(body)
    requires ParsePairs(body + " }" + rest) == Some((pairs, rest))
    ensures PrintValue(Map(pairs)) == Some("{ " + body + " }")
    ensures ParseValue("{ " + body + " }" + rest) == Some((Map(pairs), rest))
  {
    hide ParsePairs, PrintPairs;
    var text := "{ " + body + " }" + rest;
    var inside := body + " }" + rest;
    assert text[1..] == " " + inside;
    assert (" " + inside)[1..] == inside;
    assert SkipBlanks(inside) == inside;
    assert SkipBlanks(" " + inside) == inside;
  }

  lemma {:induction false} PairsBack(pairs: Pairs, rest: string)
    requires pairs.Pair? && CleanPairs(pairs)
    ensures PrintPairs(pairs).Some? && Starts(PrintPairs(pairs).value)
    ensures ParsePairs(PrintPairs(pairs).value + " }" + rest) == Some((pairs, rest))
    decreases pairs
  {
    hide ParsePairs, ParseValue, PrintValue, SkipBlanks;
    var key, value := pairs.key, pairs.value;
    assert IsBareChar(key[0]);
    if pairs.rest.NoPairs? {
      var end := " }" + rest;
      ValueBack(value, end);
      LastPair(key, value, PrintValue(value).value, rest);
    } else {
      PairsBack(pairs.rest, rest);
      var more := PrintPairs(pairs.rest).value;
      var tail := more + " }" + rest;
      ValueBack(value, ", " + tail);
      var text := PrintValue(value).value;
      MorePairs(key, value, text, pairs.rest, tail, rest);
      assert PrintPairs(pairs).value == key + " = " + text + ", " + more;
      Regroup(key + " = " + text, ", ", more, " }" + rest);
      assert more + (" }" + rest) == tail;
      assert PrintPairs(pairs).value + " }" + rest == PrintPairs(pairs).value + (" }" + rest);
    }
  }

  lemma LastPair(key: string, value: Value, text: string, rest: string)
    requires IsBareKey(key) && Starts(text)
    requires ParseValue(text + (" }" + rest)) == Some((value, " }" + rest))
    ensures ParsePairs(key + " = " + text + " }" + rest) == Some((Pair(key, value, NoPairs), rest))
  {
    hide ParseValue, ParsePair;
    var end := " }" + rest;
    KeyBack(key, text, end, value);
    assert key + " = " + text + end == key + " = " + text + " }" + rest;
    assert end[1..] == "}" + rest && ("}" + rest)[1..] == rest;
    assert SkipBlanks(end) == "}" + rest;
  }

  lemma MorePairs(key: string, value: Value, text: string, more: Pairs, tail: string, rest: string)
    requires IsBareKey(key) && Starts(text) && Starts(tail) && !HasKey(more, key)
    requires ParseValue(text + (", " + tail)) == Some((value, ", " + tail))
    requires ParsePairs(tail) == Some((more, rest))
    ensures ParsePairs(key + " = " + text + (", " + tail)) == Some((Pair(key, value, more), rest))
  {
    hide ParseValue, ParsePair;
    var next := ", " + tail;
    KeyBack(key, text, next, value);
    assert next[1..] == " " + tail && (" " + tail)[1..] == tail;
    assert SkipBlanks(tail) == tail;
    assert SkipBlanks(" " + tail) == tail;
    assert SkipBlanks(next) == next;
  }

  // ---------------------------------------------------------------- only clean values are read

  lemma {:induction false} CharsPlain(s: string)
    requires ParseChars(s).Some?
    ensures PlainText(ParseChars(s).value.0)
    decreases |s|
  {
    if s[0] == '\\' {
      CharsPlain(s[2..]);
    } else if s[0] != '"' {
      CharsPlain(s[1..]);
    }
  }

  lemma {:induction false} ItemsClean(s: string)
    requires ParseItems(s).Some?
    ensures CleanItems(ParseItems(s).value.0)
    decreases |s|
  {
    CharsPlain(s[1..]);
    var next := SkipBlanks(ParseString(s).value.1);
    if next[0] == ',' {
      ItemsClean(SkipBlanks(next[1..]));
    }
  }

  lemma {:induction false} ValuesClean(s: string)
    requires ParseValue(s).Some?
    ensures Clean(ParseValue(s).value.0)
    decreases |s|, 0
  {
    if s[0] == '"' {
      CharsPlain(s[1..]);
    } else if s[0] == '[' {
      var inside := SkipBlanks(s[1..]);
      if inside == [] || inside[0] != ']' {
        ItemsClean(inside);
      }
    } else if s[0] == '{' {
      var inside := SkipBlanks(s[1..]);
      if inside == [] || inside[0] != '}' {
        PairsClean(inside);
      }
    }
  }

  lemma {:induction false} PairsClean(s: string)
    requires ParsePairs(s).Some?
    ensures CleanPairs(ParsePairs(s).value.0)
    decreases |s|, 2
  {
    var n := Run(s, IsBareChar);
    var sign := SkipBlanks(s[n..]);
    ValuesClean(SkipBlanks(sign[1..]));
    var (key, value, rest) := ParsePair(s).value;
    var next := SkipBlanks(rest);
    if next[0] == ',' {
      PairsClean(SkipBlanks(next[1..]));
    }
  }

  // ---------------------------------------------------------------- the results

  /** A value survives being written and read exactly when it is clean. */
  lemma RoundTripExactly(v: Value)
    ensures Clean(v) <==> PrintValue(v).Some? && ParseValue(PrintValue(v).value) == Some((v, ""))
  {
    if Clean(v) {
      ValueBack(v, "");
      assert PrintValue(v).value + "" == PrintValue(v).value;
    } else if PrintValue(v).Some? && ParseValue(PrintValue(v).value) == Some((v, "")) {
      ValuesClean(PrintValue(v).value);
    }
  }

  /** Different clean values are written differently. */
  lemma PrinterInjective(v: Value, w: Value)
    requires Clean(v) && Clean(w) && PrintValue(v) == PrintValue(w)
    ensures v == w
  {
    RoundTripExactly(v);
    RoundTripExactly(w);
  }
}
