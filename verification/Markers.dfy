/**
 Controller markers and the recovery of interrupted marker writes (mcp/src/private.ts).
 A marker is one JSON object written in a single call; a stopped writer leaves a prefix of it.
 */
module Markers {
  import opened Json
  import opened Prelude
  import Utf8

  function MarkerFields(id: string, token: string): seq<Field> {
    [Field("schemaVersion", Number(1)), Field("id", Text(id)), Field("token", Text(token))]
  }

  /** What `controller` writes. */
  function Marker(id: string, token: string): string { Print(Object(MarkerFields(id, token))) }

  function Name(name: string): string { "\"" + name + "\":" }

  /** The prefix `recoverController` compares with, written out without the printer. */
  function Head(id: string): string {
    ("{" + (Name("schemaVersion") + "1") + "," + Name("id")) + Quote(id) + ("," + Name("token") + "\"")
  }

  /** The pattern of a version 4 UUID (RFC 9562, section 5.4) and of what closes the marker after it. */
  const UUID: string := "xxxxxxxx-xxxx-4xxx-yxxx-xxxxxxxxxxxx"
  const TAIL: string := UUID + "\"}"

  predicate LowerHex(c: char) { '0' <= c <= '9' || 'a' <= c <= 'f' }

  predicate CanFill(pattern: char, c: char) {
    if pattern == 'x' then LowerHex(c)
    else if pattern == 'y' then c == '8' || c == '9' || c == 'a' || c == 'b'
    else c == pattern
  }

  predicate Matches(pattern: string, text: string) {
    |text| <= |pattern| && forall i :: 0 <= i < |text| ==> CanFill(pattern[i], text[i])
  }

  predicate IsToken(token: string) { |token| == |UUID| && Matches(UUID, token) }

  // ---------------------------------------------------------------- recoverController

  predicate TokenPrefix(text: string, id: string) {
    var prefix := Head(id);
    prefix <= text && |text| - |prefix| < |TAIL| && Matches(TAIL, text[|prefix|..])
  }

  /** The last member of a name wins, as in JSON.parse. */
  function Member(fields: seq<Field>, name: string): Option<Value> {
    if fields == [] then None
    else if fields[|fields| - 1].name == name then Some(fields[|fields| - 1].value)
    else Member(fields[..|fields| - 1], name)
  }

  predicate OwnedBy(owner: Value, id: string) {
    && owner.Object?
    && Member(owner.fields, "schemaVersion") == Some(Number(1))
    && Member(owner.fields, "id") == Some(Text(id))
    && Member(owner.fields, "token").Some? && Member(owner.fields, "token").value.Text?
  }

  /** Whether `recoverController` removes a marker file with this text. */
  predicate Recovers(text: string, id: string) {
    if Parsable(text) then OwnedBy(ParseValue(text).value, id)
    else text <= Head(id) || TokenPrefix(text, id)
  }

  // ---------------------------------------------------------------- the shape of a marker

  lemma {:induction false} PlainToken(text: string)
    requires forall i :: 0 <= i < |text| ==> LowerHex(text[i]) || text[i] == '-'
    ensures QuoteBody(text) == text
  {
    if text != "" {
      PlainToken(text[1..]);
      assert LowerHex(text[0]) || text[0] == '-';
      assert text == [text[0]] + text[1..];
    }
  }

  lemma TokenCharacters(token: string)
    requires IsToken(token)
    ensures forall i :: 0 <= i < |token| ==> LowerHex(token[i]) || token[i] == '-'
  {
    forall i | 0 <= i < |token| ensures LowerHex(token[i]) || token[i] == '-' {
      assert CanFill(UUID[i], token[i]);
    }
  }

  lemma ThreeFields(a: Field, b: Field, c: Field)
    ensures Print(Object([a, b, c])) == "{" + (PrintField(a) + "," + (PrintField(b) + "," + PrintField(c))) + "}"
  {
    assert [a, b, c][1..] == [b, c] && [b, c][1..] == [c];
    assert PrintFields([b, c]) == PrintField(b) + "," + PrintField(c);
  }

  lemma {:induction false} Unescaped(text: string)
    requires forall i :: 0 <= i < |text| ==> 'A' <= text[i] <= 'Z' || 'a' <= text[i] <= 'z'
    ensures QuoteBody(text) == text
  {
    if text != "" {
      Unescaped(text[1..]);
      assert text == [text[0]] + text[1..];
    }
  }

  lemma NamedField(name: string, value: Value)
    requires forall i :: 0 <= i < |name| ==> 'A' <= name[i] <= 'Z' || 'a' <= name[i] <= 'z'
    ensures PrintField(Field(name, value)) == Name(name) + Print(value)
  {
    Unescaped(name);
    assert "\"" + name + "\"" + ":" == "\"" + name + "\":";
  }

  lemma PrintOne(n: int)
    requires n == 1
    ensures Print(Number(n)) == "1"
  {
  }

  lemma Regroup(v: string, i: string, q: string, t: string, k: string)
    ensures "{" + (v + "," + ((i + q) + "," + (t + ("\"" + k + "\"")))) + "}"
      == ("{" + v + "," + i) + q + ("," + t + "\"") + k + "\"}"
  {
    assert "\"" + "}" == "\"}";
  }

  /** A marker in terms of its three names, whatever they are. */
  lemma NamedMarker(v: string, i: string, t: string, id: string, token: string)
    requires forall name :: name in [v, i, t] ==>
      forall k :: 0 <= k < |name| ==> 'A' <= name[k] <= 'Z' || 'a' <= name[k] <= 'z'
    requires QuoteBody(token) == token
    ensures Print(Object([Field(v, Number(1)), Field(i, Text(id)), Field(t, Text(token))]))
      == ("{" + (Name(v) + "1") + "," + Name(i)) + Quote(id) + ("," + Name(t) + "\"") + token + "\"}"
  {
    assert v in [v, i, t] && i in [v, i, t] && t in [v, i, t];
    NamedField(v, Number(1));
    NamedField(i, Text(id));
    NamedField(t, Text(token));
    PrintOne(1);
    ThreeFields(Field(v, Number(1)), Field(i, Text(id)), Field(t, Text(token)));
    Regroup(Name(v) + "1", Name(i), Quote(id), Name(t), token);
  }

  lemma MarkerText(id: string, token: string)
    requires IsToken(token)
    ensures Marker(id, token) == Head(id) + token + "\"}"
  {
    TokenCharacters(token);
    PlainToken(token);
    NamedMarker("schemaVersion", "id", "token", id, token);
  }

  // ---------------------------------------------------------------- what a torn marker can be

  /** A token whose first characters are given, the rest filled in. */
  function Complete(start: string): (token: string)
    requires Matches(UUID, start)
    ensures IsToken(token) && start <= token
  {
    var rest := seq(|UUID| - |start|, i requires 0 <= i < |UUID| - |start| =>
      var c := UUID[|start| + i]; if c == 'x' then '0' else if c == 'y' then '8' else c);
    start + rest
  }

  lemma TailPrefix(suffix: string) returns (token: string)
    requires |suffix| < |TAIL| && Matches(TAIL, suffix)
    ensures IsToken(token) && suffix < token + "\"}"
  {
    var k := if |suffix| < |UUID| then |suffix| else |UUID|;
    assert Matches(UUID, suffix[..k]) by {
      forall i | 0 <= i < k ensures CanFill(UUID[i], suffix[..k][i]) { assert TAIL[i] == UUID[i]; }
    }
    token := Complete(suffix[..k]);
    if |suffix| == |UUID| + 1 {
      assert CanFill(TAIL[|UUID|], suffix[|UUID|]);
      assert suffix == token + "\"";
    }
  }

  lemma TailMatches(token: string, suffix: string)
    requires IsToken(token) && suffix <= token + "\"}"
    ensures Matches(TAIL, suffix)
  {
    forall i | 0 <= i < |suffix| ensures CanFill(TAIL[i], suffix[i]) {
      if i < |UUID| { assert TAIL[i] == UUID[i] && suffix[i] == token[i]; }
    }
  }

  ghost predicate TornMarker(text: string, id: string) {
    exists token :: IsToken(token) && text < Marker(id, token)
  }

  /** The recognition is exact: it accepts the proper prefixes of the markers of this id and nothing else. */
  lemma TornExactly(text: string, id: string)
    ensures text <= Head(id) || TokenPrefix(text, id) <==> TornMarker(text, id)
  {
    if text <= Head(id) || TokenPrefix(text, id) { TornBackward(text, id); }
    if TornMarker(text, id) {
      var token :| IsToken(token) && text < Marker(id, token);
      TornForward(text, id, token);
    }
  }

  lemma TornBackward(text: string, id: string)
    requires text <= Head(id) || TokenPrefix(text, id)
    ensures TornMarker(text, id)
  {
    var suffix := if text <= Head(id) then "" else text[|Head(id)|..];
    var token := TailPrefix(suffix);
    MarkerText(id, token);
    assert Marker(id, token) == Head(id) + (token + "\"}");
    if text <= Head(id) {
      assert text < Marker(id, token);
    } else {
      assert text == Head(id) + suffix;
      assert text < Marker(id, token);
    }
  }

  lemma TornForward(text: string, id: string, token: string)
    requires IsToken(token) && text < Marker(id, token)
    ensures text <= Head(id) || TokenPrefix(text, id)
  {
    MarkerText(id, token);
    var whole := Head(id) + (token + "\"}");
    assert Marker(id, token) == whole;
    if |text| <= |Head(id)| {
      assert text == whole[..|text|] == Head(id)[..|text|];
    } else {
      var suffix := text[|Head(id)|..];
      assert text[..|Head(id)|] == whole[..|Head(id)|] == Head(id);
      assert suffix <= token + "\"}" by {
        assert suffix == whole[|Head(id)|..|text|] == (token + "\"}")[..|suffix|];
      }
      TailMatches(token, suffix);
    }
  }

  lemma TornUnparsable(text: string, id: string)
    requires TornMarker(text, id)
    ensures !Parsable(text)
  {
    var token :| IsToken(token) && text < Marker(id, token);
    TornObjectUnparsable(MarkerFields(id, token), text);
  }

  lemma WholeMarkerOwned(id: string, token: string, other: string)
    ensures Parsable(Marker(id, token))
    ensures OwnedBy(ParseValue(Marker(id, token)).value, other) <==> other == id
  {
    RoundTrip(Object(MarkerFields(id, token)));
    var fields := MarkerFields(id, token);
    assert fields[..2] == [fields[0], fields[1]] && fields[..2][..1] == [fields[0]];
    assert Member(fields, "token") == Some(Text(token));
    assert Member(fields, "id") == Member(fields[..2], "id") == Some(Text(id));
    assert Member(fields, "schemaVersion") == Member(fields[..2], "schemaVersion") == Member(fields[..2][..1], "schemaVersion");
  }

  /** Among the unparsable texts exactly the torn markers of this id are removed. */
  lemma UnparsableRecoveredExactly(text: string, id: string)
    ensures !Parsable(text) && Recovers(text, id) <==> TornMarker(text, id)
  {
    TornExactly(text, id);
    if TornMarker(text, id) { TornUnparsable(text, id); }
  }

  /** However far the writer got, the marker is recoverable. */
  lemma InterruptedWriteRecoverable(id: string, token: string, written: nat)
    requires IsToken(token) && written <= |Marker(id, token)|
    ensures Recovers(Marker(id, token)[..written], id)
  {
    var text := Marker(id, token)[..written];
    if written == |Marker(id, token)| {
      assert text == Marker(id, token);
      WholeMarkerOwned(id, token, id);
    } else {
      assert text < Marker(id, token);
      assert TornMarker(text, id);
      UnparsableRecoveredExactly(text, id);
    }
  }

  /** A complete marker is removed only for the id that wrote it. */
  lemma OtherControllersKept(id: string, token: string, other: string)
    requires other != id
    ensures !Recovers(Marker(id, token), other)
  {
    WholeMarkerOwned(id, token, other);
  }

  // ---------------------------------------------------------------- interruption between bytes

  predicate Ascii(text: string) { forall i :: 0 <= i < |text| ==> (text[i] as int) < 0x80 }

  lemma {:induction false} AsciiPrefix(text: string, k: nat)
    requires Ascii(text) && k <= |text|
    ensures |Utf8.Encode(text)| == |text| && Utf8.Encode(text[..k]) == Utf8.Encode(text)[..k]
  {
    if text != "" {
      if k > 0 {
        AsciiPrefix(text[1..], k - 1);
        assert text[..k][1..] == text[1..][..k - 1];
      } else {
        AsciiPrefix(text[1..], 0);
      }
    }
  }

  lemma {:induction false} AsciiQuote(text: string)
    requires Ascii(text)
    ensures Ascii(QuoteBody(text))
  {
    if text != "" {
      AsciiQuote(text[1..]);
      assert Ascii(Escape(text[0]));
    }
  }

  lemma AsciiHead(id: string)
    requires Ascii(id)
    ensures Ascii(Head(id))
  {
    AsciiQuote(id);
    assert Ascii("{" + (Name("schemaVersion") + "1") + "," + Name("id"));
    assert Ascii("," + Name("token") + "\"");
  }

  lemma AsciiMarker(id: string, token: string)
    requires Ascii(id) && IsToken(token)
    ensures Ascii(Marker(id, token))
  {
    TokenCharacters(token);
    MarkerText(id, token);
    assert Ascii(token);
    AsciiHead(id);
  }

  /** Handles are ASCII, so the file is recoverable after any number of written bytes. */
  lemma InterruptedBytesRecoverable(id: string, token: string, written: nat) returns (text: string)
    requires Ascii(id) && IsToken(token) && written <= |Utf8.Encode(Marker(id, token))|
    ensures Utf8.Encode(text) == Utf8.Encode(Marker(id, token))[..written] && Recovers(text, id)
  {
    AsciiMarker(id, token);
    AsciiPrefix(Marker(id, token), 0);
    AsciiPrefix(Marker(id, token), written);
    text := Marker(id, token)[..written];
    InterruptedWriteRecoverable(id, token, written);
  }
}
