/**
 JSON texts (RFC 8259, sections 2 to 7): the compact printer every component uses and a
 parser that inverts it. Numbers are integers; characters are Unicode scalar values.
 */
module Json {

  datatype Field = Field(name: string, value: Value)

  datatype Value =
    | Null
    | Bool(b: bool)
    | Number(n: int)
    | Text(s: string)
    | List(items: seq<Value>)
    | Object(fields: seq<Field>)

  // ---------------------------------------------------------------- printing

  function Hex(n: nat): char
    requires n < 16
  {
    "0123456789abcdef"[n]
  }

  predicate Control(c: char) { (c as int) < 0x20 }

  /** Section 7: the two mandatory escapes and the control characters, the five short forms first. */
  function Escape(c: char): (text: string)
    ensures |text| >= 1
  {
    if c == '\"' then "\\\""
    else if c == '\\' then "\\\\"
    else if (c as int) == 8 then "\\b"
    else if (c as int) == 12 then "\\f"
    else if c == '\n' then "\\n"
    else if c == '\r' then "\\r"
    else if c == '\t' then "\\t"
    else if Control(c) then "\\u00" + [Hex((c as int) / 16), Hex((c as int) % 16)]
    else [c]
  }

  function QuoteBody(s: string): string {
    if s == "" then "" else Escape(s[0]) + QuoteBody(s[1..])
  }

  function Quote(s: string): string { "\"" + QuoteBody(s) + "\"" }

  function Digit(n: nat): char
    requires n < 10
  {
    "0123456789"[n]
  }

  function Decimal(n: nat): (text: string)
    ensures |text| >= 1
  {
    if n < 10 then [Digit(n)] else Decimal(n / 10) + [Digit(n % 10)]
  }

  function PrintNumber(n: int): string {
    if n < 0 then "-" + Decimal(-n) else Decimal(n)
  }

  function Print(v: Value): string {
    match v
    case Null => "null"
    case Bool(b) => if b then "true" else "false"
    case Number(n) => PrintNumber(n)
    case Text(s) => Quote(s)
    case List(items) => "[" + PrintItems(items) + "]"
    case Object(fields) => "{" + PrintFields(fields) + "}"
  }

  function PrintItems(items: seq<Value>): string {
    if items == [] then ""
    else if |items| == 1 then Print(items[0])
    else Print(items[0]) + "," + PrintItems(items[1..])
  }

  function PrintField(field: Field): string { Quote(field.name) + ":" + Print(field.value) }

  function PrintFields(fields: seq<Field>): string {
    if fields == [] then ""
    else if |fields| == 1 then PrintField(fields[0])
    else PrintField(fields[0]) + "," + PrintFields(fields[1..])
  }

  // ---------------------------------------------------------------- parsing

  datatype Parse<+T> = Fail | Done(value: T, rest: string)

  predicate Space(c: char) { c == ' ' || c == '\n' || c == '\r' || c == '\t' }

  function Skip(text: string): (rest: string)
    ensures |rest| <= |text|
    ensures rest != "" ==> !Space(rest[0])
  {
    if text != "" && Space(text[0]) then Skip(text[1..]) else text
  }

  predicate StartsWith(text: string, c: char) { text != "" && text[0] == c }

  function Literal(text: string, word: string, v: Value): (r: Parse<Value>)
    requires word != ""
    ensures r.Done? ==> |r.rest| < |text|
  {
    if word <= text then Done(v, text[|word|..]) else Fail
  }

  predicate IsDigit(c: char) { '0' <= c <= '9' }

  /** How many digits the text starts with. */
  function DigitRun(text: string): (k: nat)
    ensures k <= |text|
  {
    if text != "" && IsDigit(text[0]) then 1 + DigitRun(text[1..]) else 0
  }

  function NatOf(digits: string): int {
    if digits == "" then 0 else NatOf(digits[..|digits| - 1]) * 10 + (digits[|digits| - 1] as int - '0' as int)
  }

  function ParseDigits(text: string): (r: Parse<int>)
    ensures r.Done? ==> |r.rest| < |text|
  {
    var k := DigitRun(text);
    if k == 0 || (k > 1 && text[0] == '0') then Fail else Done(NatOf(text[..k]), text[k..])
  }

  function ParseNumber(text: string): (r: Parse<Value>)
    ensures r.Done? ==> |r.rest| < |text|
  {
    if StartsWith(text, '-') then
      var r := ParseDigits(text[1..]);
      if r.Done? then Done(Number(-r.value), r.rest) else Fail
    else
      var r := ParseDigits(text);
      if r.Done? then Done(Number(r.value), r.rest) else Fail
  }

  predicate IsHex(c: char) { IsDigit(c) || 'a' <= c <= 'f' || 'A' <= c <= 'F' }

  function HexValue(c: char): nat {
    if IsDigit(c) then c as int - '0' as int
    else if 'a' <= c <= 'f' then c as int - 'a' as int + 10
    else if 'A' <= c <= 'F' then c as int - 'A' as int + 10
    else 0
  }

  function ParseEscape(text: string): (r: Parse<char>)
    ensures r.Done? ==> |r.rest| < |text|
  {
    if text == "" then Fail
    else if text[0] == '\"' || text[0] == '\\' || text[0] == '/' then Done(text[0], text[1..])
    else if text[0] == 'b' then Done(8 as char, text[1..])
    else if text[0] == 'f' then Done(12 as char, text[1..])
    else if text[0] == 'n' then Done('\n', text[1..])
    else if text[0] == 'r' then Done('\r', text[1..])
    else if text[0] == 't' then Done('\t', text[1..])
    else if text[0] == 'u' && |text| >= 5 && IsHex(text[1]) && IsHex(text[2]) && IsHex(text[3]) && IsHex(text[4]) then
      var code := ((HexValue(text[1]) * 16 + HexValue(text[2])) * 16 + HexValue(text[3])) * 16 + HexValue(text[4]);
      if 0xD800 <= code < 0xE000 then Fail else Done(code as char, text[5..])
    else Fail
  }

  /** The characters of a string up to and including its closing quotation mark. */
  function ParseBody(text: string): (r: Parse<string>)
    ensures r.Done? ==> |r.rest| < |text|
  {
    if text == "" || Control(text[0]) then Fail
    else if text[0] == '\"' then Done("", text[1..])
    else
      var first: Parse<char> := if text[0] == '\\' then ParseEscape(text[1..]) else Done(text[0], text[1..]);
      if first.Fail? then Fail
      else
        var more := ParseBody(first.rest);
        if more.Fail? then Fail else Done([first.value] + more.value, more.rest)
  }

  function ParseValue(text: string): (r: Parse<Value>)
    ensures r.Done? ==> |r.rest| < |text|
    decreases |text|, 0
  {
    var t := Skip(text);
    if t == "" then Fail
    else if t[0] == '-' || IsDigit(t[0]) then ParseNumber(t)
    else if t[0] == 'n' then Literal(t, "null", Null)
    else if t[0] == 't' then Literal(t, "true", Bool(true))
    else if t[0] == 'f' then Literal(t, "false", Bool(false))
    else if t[0] == '\"' then
      var body := ParseBody(t[1..]);
      if body.Done? then Done(Text(body.value), body.rest) else Fail
    else if t[0] == '[' then
      if StartsWith(Skip(t[1..]), ']') then Done(List([]), Skip(t[1..])[1..])
      else
        var items := ParseItems(t[1..]);
        if items.Done? then Done(List(items.value), items.rest) else Fail
    else if t[0] == '{' then
      if StartsWith(Skip(t[1..]), '}') then Done(Object([]), Skip(t[1..])[1..])
      else
        var fields := ParseFields(t[1..]);
        if fields.Done? then Done(Object(fields.value), fields.rest) else Fail
    else Fail
  }

  /** One or more items and the closing bracket. */
  function ParseItems(text: string): (r: Parse<seq<Value>>)
    ensures r.Done? ==> |r.rest| < |text|
    decreases |text|, 1
  {
    var item := ParseValue(text);
    if item.Fail? then Fail
    else
      var after := Skip(item.rest);
      if StartsWith(after, ']') then Done([item.value], after[1..])
      else if StartsWith(after, ',') then
        var more := ParseItems(after[1..]);
        if more.Done? then Done([item.value] + more.value, more.rest) else Fail
      else Fail
  }

  function ParseField(text: string): (r: Parse<Field>)
    ensures r.Done? ==> |r.rest| < |text|
    decreases |text|, 1
  {
    var t := Skip(text);
    if !StartsWith(t, '\"') then Fail
    else
      var name := ParseBody(t[1..]);
      if name.Fail? || !StartsWith(Skip(name.rest), ':') then Fail
      else
        var v := ParseValue(Skip(name.rest)[1..]);
        if v.Done? then Done(Field(name.value, v.value), v.rest) else Fail
  }

  /** One or more members and the closing brace. */
  function ParseFields(text: string): (r: Parse<seq<Field>>)
    ensures r.Done? ==> |r.rest| < |text|
    decreases |text|, 2
  {
    var field := ParseField(text);
    if field.Fail? then Fail
    else
      var after := Skip(field.rest);
      if StartsWith(after, '}') then Done([field.value], after[1..])
      else if StartsWith(after, ',') then
        var more := ParseFields(after[1..]);
        if more.Done? then Done([field.value] + more.value, more.rest) else Fail
      else Fail
  }

  /** A whole text holds one value and nothing else but white space. */
  predicate Parses(text: string, v: Value) {
    ParseValue(text).Done? && ParseValue(text).value == v && Skip(ParseValue(text).rest) == ""
  }

  predicate Parsable(text: string) {
    ParseValue(text).Done? && Skip(ParseValue(text).rest) == ""
  }

  // ---------------------------------------------------------------- the parser inverts the printer

  predicate ShortForm(c: char) { Escape(c) != [c] && |Escape(c)| == 2 }

  predicate LongForm(c: char) { |Escape(c)| == 6 }

  lemma ShortInverse(c: char, rest: string)
    requires ShortForm(c)
    ensures Escape(c)[0] == '\\' && ParseEscape([Escape(c)[1]] + rest) == Done(c, rest)
  {
    assert ([Escape(c)[1]] + rest)[1..] == rest;
  }

  lemma LongInverse(c: char, rest: string)
    requires LongForm(c)
    ensures Escape(c)[0] == '\\' && ParseEscape(Escape(c)[1..] + rest) == Done(c, rest)
  {
    var text := Escape(c)[1..] + rest;
    assert Escape(c)[1..] == "u00" + [Hex((c as int) / 16), Hex((c as int) % 16)];
    assert text[5..] == rest;
  }

  lemma EscapeInverse(c: char, rest: string)
    ensures Escape(c) == [c] ==> c != '\\' && c != '\"' && !Control(c)
    ensures Escape(c) != [c] ==> Escape(c)[0] == '\\' && ParseEscape(Escape(c)[1..] + rest) == Done(c, rest)
  {
    if ShortForm(c) {
      ShortInverse(c, rest);
      assert Escape(c)[1..] == [Escape(c)[1]];
    } else if LongForm(c) {
      LongInverse(c, rest);
    }
  }

  lemma CharInverse(c: char, tail: string)
    requires ParseBody(tail).Done?
    ensures ParseBody(Escape(c) + tail) == Done([c] + ParseBody(tail).value, ParseBody(tail).rest)
  {
    EscapeInverse(c, tail);
    var text := Escape(c) + tail;
    assert text[0] == Escape(c)[0];
    assert text[1..] == Escape(c)[1..] + tail;
    if Escape(c) == [c] { assert text[1..] == tail; }
  }

  lemma FirstChar(s: string, rest: string)
    requires s != ""
    ensures QuoteBody(s) + "\"" + rest == Escape(s[0]) + (QuoteBody(s[1..]) + "\"" + rest)
  {
  }

  lemma {:induction false} QuoteInverse(s: string, rest: string)
    ensures ParseBody(QuoteBody(s) + "\"" + rest) == Done(s, rest)
  {
    if s == "" {
      assert (QuoteBody(s) + "\"" + rest) == "\"" + rest;
    } else {
      var tail := QuoteBody(s[1..]) + "\"" + rest;
      QuoteInverse(s[1..], rest);
      CharInverse(s[0], tail);
      FirstChar(s, rest);
      assert s == [s[0]] + s[1..];
    }
  }

  lemma {:induction false} DecimalInverse(n: nat)
    ensures NatOf(Decimal(n)) == n
    ensures forall i :: 0 <= i < |Decimal(n)| ==> IsDigit(Decimal(n)[i])
    ensures |Decimal(n)| > 1 ==> Decimal(n)[0] != '0'
    ensures n > 0 ==> Decimal(n)[0] != '0'
  {
    if n >= 10 {
      DecimalInverse(n / 10);
      var text := Decimal(n / 10) + [Digit(n % 10)];
      assert text[..|text| - 1] == Decimal(n / 10);
    } else {
      assert NatOf([Digit(n)]) == NatOf([Digit(n)][..0]) * 10 + n;
    }
  }

  predicate EndsNumber(rest: string) { rest == "" || !IsDigit(rest[0]) }

  lemma {:induction false} RunExact(digits: string, rest: string)
    requires EndsNumber(rest) && forall i :: 0 <= i < |digits| ==> IsDigit(digits[i])
    ensures DigitRun(digits + rest) == |digits|
  {
    if digits == "" {
      assert digits + rest == rest;
    } else {
      RunExact(digits[1..], rest);
      assert (digits + rest)[1..] == digits[1..] + rest;
    }
  }

  lemma DigitsInverse(m: nat, rest: string)
    requires EndsNumber(rest)
    ensures ParseDigits(Decimal(m) + rest) == Done(m, rest)
    ensures IsDigit(Decimal(m)[0])
  {
    DecimalInverse(m);
    var digits := Decimal(m);
    RunExact(digits, rest);
    assert (digits + rest)[..|digits|] == digits && (digits + rest)[|digits|..] == rest;
  }

  lemma SignInverse(digits: string, m: int, rest: string)
    requires digits != "" && IsDigit(digits[0]) && ParseDigits(digits + rest) == Done(m, rest)
    ensures ParseNumber(digits + rest) == Done(Number(m), rest)
    ensures ParseNumber("-" + digits + rest) == Done(Number(-m), rest)
  {
    assert (digits + rest)[0] == digits[0];
    assert ("-" + digits + rest)[1..] == digits + rest;
  }

  lemma NumberInverse(n: int, rest: string)
    requires EndsNumber(rest)
    ensures ParseNumber(PrintNumber(n) + rest) == Done(Number(n), rest)
    ensures IsDigit(PrintNumber(n)[0]) || PrintNumber(n)[0] == '-'
  {
    var m: nat := if n < 0 then -n else n;
    DigitsInverse(m, rest);
    SignInverse(Decimal(m), m, rest);
  }

  /** Every printed value starts with a character that is no space and no closing bracket. */
  lemma PrintStart(v: Value)
    ensures Print(v) != "" && !Space(Print(v)[0]) && Print(v)[0] != ']' && Print(v)[0] != '}'
    ensures v.Number? ==> IsDigit(Print(v)[0]) || Print(v)[0] == '-'
  {
    if v.Number? { NumberInverse(v.n, ""); }
  }

  lemma WordInverse(v: Value, rest: string)
    requires v.Null? || v.Bool?
    ensures ParseValue(Print(v) + rest) == Done(v, rest)
  {
    var text := Print(v) + rest;
    assert Skip(text) == text;
    assert Print(v) <= text && text[|Print(v)|..] == rest;
  }

  lemma TextInverse(s: string, rest: string)
    ensures ParseValue(Print(Text(s)) + rest) == Done(Text(s), rest)
  {
    var inside := QuoteBody(s) + "\"" + rest;
    assert Print(Text(s)) + rest == "\"" + inside && ("\"" + inside)[1..] == inside;
    assert Skip("\"" + inside) == "\"" + inside;
    QuoteInverse(s, rest);
  }

  lemma DigitsAreNumbers(text: string)
    requires text != "" && (IsDigit(text[0]) || text[0] == '-')
    ensures ParseValue(text) == ParseNumber(text)
  {
    assert Skip(text) == text;
  }

  /** Opening brackets: nothing to skip, and the rest is read as items or members. */
  lemma OpenList(inside: string, items: seq<Value>, rest: string)
    requires inside != "" && !Space(inside[0]) && inside[0] != ']'
    requires ParseItems(inside) == Done(items, rest)
    ensures ParseValue("[" + inside) == Done(List(items), rest)
  {
    assert Skip("[" + inside) == "[" + inside && ("[" + inside)[1..] == inside && Skip(inside) == inside;
  }

  lemma OpenObject(inside: string, fields: seq<Field>, rest: string)
    requires StartsWith(inside, '\"')
    requires ParseFields(inside) == Done(fields, rest)
    ensures ParseValue("{" + inside) == Done(Object(fields), rest)
  {
    assert Skip("{" + inside) == "{" + inside && ("{" + inside)[1..] == inside && Skip(inside) == inside;
  }

  lemma EmptyInverse(rest: string)
    ensures ParseValue("[" + ("]" + rest)) == Done(List([]), rest)
    ensures ParseValue("{" + ("}" + rest)) == Done(Object([]), rest)
  {
    assert ("[" + ("]" + rest))[1..] == "]" + rest && Skip("]" + rest) == "]" + rest && ("]" + rest)[1..] == rest;
    assert ("{" + ("}" + rest))[1..] == "}" + rest && Skip("}" + rest) == "}" + rest && ("}" + rest)[1..] == rest;
  }

  /** Reading back what was printed, in any context that does not continue a number. */
  lemma {:induction false} PrintInverse(v: Value, rest: string)
    requires v.Number? ==> EndsNumber(rest)
    ensures ParseValue(Print(v) + rest) == Done(v, rest)
    decreases v, 0
  {
    match v
    case List(items) =>
      var inside := PrintItems(items) + "]" + rest;
      assert Print(v) + rest == "[" + inside;
      if items == [] {
        EmptyInverse(rest);
      } else {
        ItemsInverse(items, rest);
        ItemsStart(items);
        assert inside[0] == PrintItems(items)[0];
        OpenList(inside, items, rest);
      }
    case Object(fields) =>
      var inside := PrintFields(fields) + "}" + rest;
      assert Print(v) + rest == "{" + inside;
      if fields == [] {
        EmptyInverse(rest);
      } else {
        FieldsInverse(fields, rest);
        assert inside[0] == PrintFields(fields)[0] == '\"';
        OpenObject(inside, fields, rest);
      }
    case Text(s) => TextInverse(s, rest);
    case Number(n) =>
      NumberInverse(n, rest);
      DigitsAreNumbers(PrintNumber(n) + rest);
    case _ => WordInverse(v, rest);
  }

  lemma ItemsStart(items: seq<Value>)
    requires items != []
    ensures PrintItems(items) != "" && !Space(PrintItems(items)[0]) && PrintItems(items)[0] != ']'
  {
    PrintStart(items[0]);
  }

  lemma LastItem(item: Value, text: string, rest: string)
    requires ParseValue(text) == Done(item, "]" + rest)
    ensures ParseItems(text) == Done([item], rest)
  {
    assert Skip("]" + rest) == "]" + rest && ("]" + rest)[1..] == rest;
  }

  lemma NextItem(item: Value, text: string, more: string, items: seq<Value>, rest: string)
    requires ParseValue(text) == Done(item, "," + more) && ParseItems(more) == Done(items, rest)
    ensures ParseItems(text) == Done([item] + items, rest)
  {
    assert Skip("," + more) == "," + more && ("," + more)[1..] == more;
  }

  lemma {:induction false} ItemsInverse(items: seq<Value>, rest: string)
    requires items != []
    ensures ParseItems(PrintItems(items) + "]" + rest) == Done(items, rest)
    decreases items, 0
  {
    var text := PrintItems(items) + "]" + rest;
    if |items| == 1 {
      assert text == Print(items[0]) + ("]" + rest);
      PrintInverse(items[0], "]" + rest);
      LastItem(items[0], text, rest);
      assert items == [items[0]];
    } else {
      var more := PrintItems(items[1..]) + "]" + rest;
      assert text == Print(items[0]) + ("," + more);
      PrintInverse(items[0], "," + more);
      ItemsInverse(items[1..], rest);
      NextItem(items[0], text, more, items[1..], rest);
      assert items == [items[0]] + items[1..];
    }
  }

  /** The text of a member, seen as its quoted name and what follows the colon. */
  lemma NameInverse(name: string, after: string)
    requires ParseValue(after).Done?
    ensures ParseField(Quote(name) + (":" + after)) == Done(Field(name, ParseValue(after).value), ParseValue(after).rest)
  {
    var text := Quote(name) + (":" + after);
    assert text[0] == '\"' && text[1..] == QuoteBody(name) + "\"" + (":" + after);
    assert Skip(text) == text;
    QuoteInverse(name, ":" + after);
    assert Skip(":" + after) == ":" + after && (":" + after)[1..] == after;
  }

  lemma {:induction false} FieldInverse(field: Field, rest: string)
    requires EndsNumber(rest)
    ensures ParseField(PrintField(field) + rest) == Done(field, rest)
    decreases field, 1
  {
    var after := Print(field.value) + rest;
    assert PrintField(field) + rest == Quote(field.name) + (":" + after);
    PrintInverse(field.value, rest);
    NameInverse(field.name, after);
  }

  lemma LastField(fields: seq<Field>, text: string, rest: string)
    requires |fields| == 1 && ParseField(text) == Done(fields[0], "}" + rest)
    ensures ParseFields(text) == Done(fields, rest)
  {
    assert Skip("}" + rest) == "}" + rest && ("}" + rest)[1..] == rest;
    assert fields == [fields[0]];
  }

  lemma NextField(fields: seq<Field>, text: string, more: string, rest: string)
    requires |fields| > 1 && ParseField(text) == Done(fields[0], "," + more) && ParseFields(more) == Done(fields[1..], rest)
    ensures ParseFields(text) == Done(fields, rest)
  {
    assert Skip("," + more) == "," + more && ("," + more)[1..] == more;
    assert fields == [fields[0]] + fields[1..];
  }

  /** What follows the first member: the brace, or a comma and the other members. */
  function AfterFirst(fields: seq<Field>, rest: string): string
    requires fields != []
  {
    if |fields| == 1 then "}" + rest else "," + (PrintFields(fields[1..]) + "}" + rest)
  }

  lemma FirstField(fields: seq<Field>, rest: string)
    requires fields != []
    ensures PrintFields(fields) + "}" + rest == PrintField(fields[0]) + AfterFirst(fields, rest)
  {
  }

  lemma {:induction false} FieldsInverse(fields: seq<Field>, rest: string)
    requires fields != []
    ensures ParseFields(PrintFields(fields) + "}" + rest) == Done(fields, rest)
    decreases fields, 0
  {
    if |fields| == 1 {
      FirstField(fields, rest);
      FieldInverse(fields[0], "}" + rest);
      LastField(fields, PrintFields(fields) + "}" + rest, rest);
    } else {
      FirstField(fields, rest);
      FieldInverse(fields[0], "," + (PrintFields(fields[1..]) + "}" + rest));
      FieldsInverse(fields[1..], rest);
      NextField(fields, PrintFields(fields) + "}" + rest, PrintFields(fields[1..]) + "}" + rest, rest);
    }
  }

  /** The printed text of a value parses to that value, so printing is injective. */
  lemma RoundTrip(v: Value)
    ensures Parses(Print(v), v)
  {
    PrintInverse(v, "");
    assert Print(v) + "" == Print(v);
  }

  lemma PrintInjective(v: Value, w: Value)
    requires Print(v) == Print(w)
    ensures v == w
  {
    RoundTrip(v);
    RoundTrip(w);
  }

  // ---------------------------------------------------------------- reading never looks past what it needs

  lemma {:induction false} SkipExtends(t: string, more: string)
    requires Skip(t) != ""
    ensures Skip(t + more) == Skip(t) + more
  {
    if Space(t[0]) {
      SkipExtends(t[1..], more);
      assert (t + more)[1..] == t[1..] + more;
    }
  }

  lemma EscapeExtends(t: string, more: string)
    requires ParseEscape(t).Done?
    ensures ParseEscape(t + more) == Done(ParseEscape(t).value, ParseEscape(t).rest + more)
  {
    assert (t + more)[1..] == t[1..] + more;
    if |t| >= 5 { assert (t + more)[5..] == t[5..] + more; }
  }

  lemma {:induction false} BodyExtends(t: string, more: string)
    requires ParseBody(t).Done?
    ensures ParseBody(t + more) == Done(ParseBody(t).value, ParseBody(t).rest + more)
  {
    assert (t + more)[1..] == t[1..] + more;
    if t[0] != '\"' {
      if t[0] == '\\' {
        EscapeExtends(t[1..], more);
        BodyExtends(ParseEscape(t[1..]).rest, more);
      } else {
        BodyExtends(t[1..], more);
      }
    }
  }

  lemma {:induction false} RunExtends(t: string, more: string)
    requires DigitRun(t) < |t|
    ensures DigitRun(t + more) == DigitRun(t)
  {
    if IsDigit(t[0]) {
      RunExtends(t[1..], more);
      assert (t + more)[1..] == t[1..] + more;
    }
  }

  lemma DigitsExtend(t: string, more: string)
    requires ParseDigits(t).Done? && ParseDigits(t).rest != ""
    ensures ParseDigits(t + more) == Done(ParseDigits(t).value, ParseDigits(t).rest + more)
  {
    RunExtends(t, more);
    var k := DigitRun(t);
    assert (t + more)[..k] == t[..k] && (t + more)[k..] == t[k..] + more;
  }

  lemma NumberExtends(t: string, more: string)
    requires ParseNumber(t).Done? && ParseNumber(t).rest != ""
    ensures ParseNumber(t + more) == Done(ParseNumber(t).value, ParseNumber(t).rest + more)
  {
    if t[0] == '-' {
      DigitsExtend(t[1..], more);
      assert (t + more)[1..] == t[1..] + more;
    } else {
      DigitsExtend(t, more);
    }
  }

  lemma LiteralExtends(t: string, word: string, v: Value, more: string)
    requires word != "" && Literal(t, word, v).Done?
    ensures Literal(t + more, word, v) == Done(v, Literal(t, word, v).rest + more)
  {
    assert (t + more)[|word|..] == t[|word|..] + more;
  }

  /** Once a value is complete, text after it changes nothing; only a number could still grow. */
  lemma {:induction false} ValueExtends(t: string, more: string)
    requires ParseValue(t).Done? && (ParseValue(t).rest != "" || !ParseValue(t).value.Number?)
    ensures ParseValue(t + more) == Done(ParseValue(t).value, ParseValue(t).rest + more)
    decreases |t|, 1
  {
    SkipExtends(t, more);
    CompactExtends(Skip(t), more);
    SkipTwice(t);
    SkipTwice(t + more);
  }

  lemma {:induction false} SkipTwice(t: string)
    ensures Skip(Skip(t)) == Skip(t)
    ensures ParseValue(Skip(t)) == ParseValue(t)
  {
    if t != "" && Space(t[0]) { SkipTwice(t[1..]); }
  }

  predicate Bracketed(t: string) { StartsWith(t, '[') || StartsWith(t, '{') }

  lemma ScalarExtends(t: string, more: string)
    requires Skip(t) == t && ParseValue(t).Done? && !Bracketed(t)
    requires ParseValue(t).rest != "" || !ParseValue(t).value.Number?
    ensures ParseValue(t + more) == Done(ParseValue(t).value, ParseValue(t).rest + more)
  {
    SkipExtends(t, more);
    if t[0] == '-' || IsDigit(t[0]) { NumberExtends(t, more); }
    else if t[0] == 'n' { LiteralExtends(t, "null", Null, more); }
    else if t[0] == 't' { LiteralExtends(t, "true", Bool(true), more); }
    else if t[0] == 'f' { LiteralExtends(t, "false", Bool(false), more); }
    else {
      BodyExtends(t[1..], more);
      assert (t + more)[1..] == t[1..] + more;
    }
  }

  lemma {:induction false} CompactExtends(t: string, more: string)
    requires Skip(t) == t && ParseValue(t).Done? && (ParseValue(t).rest != "" || !ParseValue(t).value.Number?)
    ensures ParseValue(t + more) == Done(ParseValue(t).value, ParseValue(t).rest + more)
    decreases |t|, 0
  {
    if !Bracketed(t) {
      ScalarExtends(t, more);
    } else {
      SkipExtends(t, more);
      var inside := t[1..];
      assert (t + more)[1..] == inside + more;
      assert Skip(inside) != "" by { InsideStarts(t); }
      SkipExtends(inside, more);
      assert (Skip(inside) + more)[1..] == Skip(inside)[1..] + more;
      if t[0] == '[' {
        if Skip(inside)[0] != ']' { ItemsExtend(inside, more); }
      } else {
        if Skip(inside)[0] != '}' { FieldsExtend(inside, more); }
      }
    }
  }

  lemma InsideStarts(t: string)
    requires Skip(t) == t && ParseValue(t).Done? && Bracketed(t)
    ensures Skip(t[1..]) != ""
  {
    if Skip(t[1..]) == "" {
      assert ParseValue(t[1..]).Fail? && ParseField(t[1..]).Fail?;
      assert ParseItems(t[1..]).Fail? && ParseFields(t[1..]).Fail?;
    }
  }

  lemma {:induction false} ItemsExtend(t: string, more: string)
    requires ParseItems(t).Done?
    ensures ParseItems(t + more) == Done(ParseItems(t).value, ParseItems(t).rest + more)
    decreases |t|, 2
  {
    ValueExtends(t, more);
    var rest := ParseValue(t).rest;
    SkipExtends(rest, more);
    assert (Skip(rest) + more)[1..] == Skip(rest)[1..] + more;
    if Skip(rest)[0] == ',' { ItemsExtend(Skip(rest)[1..], more); }
  }

  lemma {:induction false} FieldExtends(t: string, more: string)
    requires ParseField(t).Done? && ParseField(t).rest != ""
    ensures ParseField(t + more) == Done(ParseField(t).value, ParseField(t).rest + more)
    decreases |t|, 2
  {
    SkipExtends(t, more);
    var quoted := Skip(t)[1..];
    assert (Skip(t) + more)[1..] == quoted + more;
    BodyExtends(quoted, more);
    var rest := ParseBody(quoted).rest;
    SkipExtends(rest, more);
    assert (Skip(rest) + more)[1..] == Skip(rest)[1..] + more;
    ValueExtends(Skip(rest)[1..], more);
  }

  lemma {:induction false} FieldsExtend(t: string, more: string)
    requires ParseFields(t).Done?
    ensures ParseFields(t + more) == Done(ParseFields(t).value, ParseFields(t).rest + more)
    decreases |t|, 3
  {
    FieldExtends(t, more);
    var rest := ParseField(t).rest;
    SkipExtends(rest, more);
    assert (Skip(rest) + more)[1..] == Skip(rest)[1..] + more;
    if Skip(rest)[0] == ',' { FieldsExtend(Skip(rest)[1..], more); }
  }

  /** No proper prefix of a printed object is a JSON text. */
  lemma TornObjectUnparsable(fields: seq<Field>, torn: string)
    requires torn < Print(Object(fields))
    ensures !Parsable(torn)
  {
    var whole := Print(Object(fields));
    var missing := whole[|torn|..];
    PrintInverse(Object(fields), "");
    assert whole + "" == whole == torn + missing && |missing| > 0;
    if Parsable(torn) {
      assert torn[0] == '{' && Skip(torn) == torn && !ParseValue(torn).value.Number?;
      ValueExtends(torn, missing);
    }
  }
}
