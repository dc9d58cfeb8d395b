/**
 The byte budget of private manifests (sdk/php/src/Manifest.php, sdk/php/src/LocalFiles.php):
 how many bytes an accepted manifest prints to, and why the size gate never refuses one.
 */
module Budget {
  import opened Json
  import opened Lists
  import opened Manifests
  import opened Prelude
  import Utf8

  const PHP_INT_MAX: int := 9223372036854775807
  const MANIFEST_HEADROOM: int := 1048576
  const JOURNAL_HEADROOM: int := 4194304
  const PER_ENTRY: int := 192

  // ---------------------------------------------------------------- the printed manifest

  function EntryValue(entry: Entry): Value {
    match entry
    case Directory(path) => Object([Field("path", Text(path)), Field("kind", Text("directory"))])
    case File(path, byteLength, sha256) =>
      Object([Field("path", Text(path)), Field("kind", Text("file")), Field("byteLength", Number(byteLength)), Field("sha256", Text(sha256))])
  }

  function ManifestValue(entries: seq<Entry>): Value {
    Object([Field("schemaVersion", Number(1)), Field("entries", List(Map(EntryValue, entries)))])
  }

  /** The exact field order, no white space, no trailing newline. */
  function ManifestText(entries: seq<Entry>): string { Print(ManifestValue(entries)) }

  function Bytes(text: string): nat { |Utf8.Encode(text)| }

  // ---------------------------------------------------------------- counting bytes

  lemma BytesConcat(a: string, b: string)
    ensures Bytes(a + b) == Bytes(a) + Bytes(b)
  {
    Utf8.EncodeConcat(a, b);
  }

  lemma {:induction false} AsciiBytes(text: string)
    requires forall i :: 0 <= i < |text| ==> (text[i] as int) < 0x80
    ensures Bytes(text) == |text|
  {
    if text != "" { AsciiBytes(text[1..]); }
  }

  predicate Plain(text: string) {
    forall i :: 0 <= i < |text| ==> text[i] != '\"' && text[i] != '\\' && !Control(text[i])
  }

  /** Nothing in the text needs an escape. */
  lemma {:induction false} PlainQuote(text: string)
    requires Plain(text)
    ensures QuoteBody(text) == text
  {
    if text != "" {
      PlainQuote(text[1..]);
      assert Escape(text[0]) == [text[0]];
      assert text == [text[0]] + text[1..];
    }
  }

  lemma PlainBytes(text: string)
    requires Plain(text)
    ensures Bytes(Quote(text)) == Bytes(text) + 2
  {
    PlainQuote(text);
    BytesConcat("\"" + text, "\"");
    BytesConcat("\"", text);
    AsciiBytes("\"");
  }

  function Power(k: nat): nat { if k == 0 then 1 else 10 * Power(k - 1) }

  lemma {:induction false} DecimalShort(n: nat, k: nat)
    requires k >= 1 && n < Power(k)
    ensures |Decimal(n)| <= k
  {
    if n >= 10 { DecimalShort(n / 10, k - 1); }
  }

  lemma SafeNumberBytes(n: nat)
    requires n <= MAX_SAFE_INTEGER
    ensures Bytes(Print(Number(n))) <= 16
  {
    assert Power(4) == 10000;
    assert Power(8) == 100000000;
    assert Power(12) == 1000000000000;
    assert Power(16) == 10000000000000000;
    DecimalShort(n, 16);
    DecimalInverse(n);
    AsciiBytes(Decimal(n));
  }

  lemma MemberBytes(name: string, value: Value)
    requires Plain(name) && forall i :: 0 <= i < |name| ==> (name[i] as int) < 0x80
    ensures Bytes(PrintField(Field(name, value))) == |name| + 3 + Bytes(Print(value))
  {
    PlainBytes(name);
    AsciiBytes(name);
    AsciiBytes(":");
    BytesConcat(Quote(name) + ":", Print(value));
    BytesConcat(Quote(name), ":");
  }

  lemma MembersBytes(field: Field, more: seq<Field>)
    ensures Bytes(PrintFields([field])) == Bytes(PrintField(field))
    ensures more != [] ==> Bytes(PrintFields([field] + more)) == Bytes(PrintField(field)) + 1 + Bytes(PrintFields(more))
  {
    if more != [] {
      assert ([field] + more)[1..] == more;
      assert PrintFields([field] + more) == PrintField(field) + "," + PrintFields(more);
      AsciiBytes(",");
      BytesConcat(PrintField(field) + ",", PrintFields(more));
      BytesConcat(PrintField(field), ",");
    }
  }

  lemma BracketBytes(open: string, inside: string, close: string)
    requires |open| == 1 && |close| == 1 && (open[0] as int) < 0x80 && (close[0] as int) < 0x80
    ensures Bytes(open + inside + close) == Bytes(inside) + 2
  {
    AsciiBytes(open);
    AsciiBytes(close);
    BytesConcat(open + inside, close);
    BytesConcat(open, inside);
  }

  // ---------------------------------------------------------------- one entry

  lemma AcceptedPathPlain(path: string, limits: Limits, names: Names)
    requires ValidPath(path, limits, names)
    ensures Plain(path) && Bytes(Quote(path)) <= limits.maxPathBytes + 2
  {
    PlainBytes(path);
  }

  lemma TextMemberBytes(name: string, text: string)
    requires Plain(name) && forall i :: 0 <= i < |name| ==> (name[i] as int) < 0x80
    requires Plain(text)
    ensures Bytes(PrintField(Field(name, Text(text)))) == |name| + 5 + Bytes(text)
  {
    MemberBytes(name, Text(text));
    PlainBytes(text);
  }

  lemma PairBytes(a: Field, b: Field)
    ensures Bytes(Print(Object([a, b]))) == Bytes(PrintField(a)) + Bytes(PrintField(b)) + 3
  {
    MembersBytes(b, []);
    MembersBytes(a, [b]);
    assert [a, b] == [a] + [b];
    BracketBytes("{", PrintFields([a, b]), "}");
  }

  lemma QuadrupleBytes(a: Field, b: Field, c: Field, d: Field)
    ensures Bytes(Print(Object([a, b, c, d])))
      == Bytes(PrintField(a)) + Bytes(PrintField(b)) + Bytes(PrintField(c)) + Bytes(PrintField(d)) + 5
  {
    MembersBytes(d, []);
    MembersBytes(c, [d]);
    assert [c, d] == [c] + [d];
    MembersBytes(b, [c, d]);
    assert [b, c, d] == [b] + [c, d];
    MembersBytes(a, [b, c, d]);
    assert [a, b, c, d] == [a] + [b, c, d];
    BracketBytes("{", PrintFields([a, b, c, d]), "}");
  }

  lemma KindBytes(kind: string)
    requires kind == "file" || kind == "directory"
    ensures Bytes(PrintField(Field("kind", Text(kind)))) == 9 + |kind|
  {
    AsciiBytes(kind);
    TextMemberBytes("kind", kind);
  }

  lemma DirectoryBytes(path: string)
    requires Plain(path)
    ensures Bytes(Print(EntryValue(Directory(path)))) == Bytes(path) + 30
  {
    TextMemberBytes("path", path);
    KindBytes("directory");
    PairBytes(Field("path", Text(path)), Field("kind", Text("directory")));
  }

  lemma DigestPlain(sha256: string)
    requires Digest(sha256)
    ensures Plain(sha256) && Bytes(sha256) == 64
  {
    forall i | 0 <= i < |sha256| ensures (sha256[i] as int) < 0x80 && sha256[i] != '\"' && sha256[i] != '\\' && !Control(sha256[i]) {
      assert LowerHex(sha256[i]);
    }
    AsciiBytes(sha256);
  }

  lemma LengthBytes(n: nat)
    requires n <= MAX_SAFE_INTEGER
    ensures Bytes(PrintField(Field("byteLength", Number(n)))) <= 29
  {
    SafeNumberBytes(n);
    MemberBytes("byteLength", Number(n));
  }

  lemma DigestBytes(sha256: string)
    requires Digest(sha256)
    ensures Bytes(PrintField(Field("sha256", Text(sha256)))) == 75
  {
    DigestPlain(sha256);
    TextMemberBytes("sha256", sha256);
  }

  lemma FileBytes(path: string, byteLength: nat, sha256: string)
    requires Plain(path) && byteLength <= MAX_SAFE_INTEGER && Digest(sha256)
    ensures Bytes(Print(EntryValue(File(path, byteLength, sha256)))) <= Bytes(path) + 131
  {
    TextMemberBytes("path", path);
    KindBytes("file");
    LengthBytes(byteLength);
    DigestBytes(sha256);
    QuadrupleBytes(Field("path", Text(path)), Field("kind", Text("file")), Field("byteLength", Number(byteLength)),
      Field("sha256", Text(sha256)));
  }

  /** An accepted entry prints to its path and at most 131 bytes more. */
  lemma EntryBytes(raw: RawEntry, limits: Limits, names: Names)
    requires WellFormed(raw, limits, names)
    ensures Bytes(Print(EntryValue(ToEntry(raw)))) <= limits.maxPathBytes + 131
  {
    var path := raw.path.value;
    AcceptedPathPlain(path, limits, names);
    if IsFileEntry(raw) { FileBytes(path, raw.byteLength.value, raw.sha256.value); }
    else { DirectoryBytes(path); }
  }

  // ---------------------------------------------------------------- the whole manifest

  lemma ItemsStep(items: seq<Value>)
    requires |items| >= 2
    ensures Bytes(PrintItems(items)) == Bytes(Print(items[0])) + 1 + Bytes(PrintItems(items[1..]))
  {
    AsciiBytes(",");
    BytesConcat(Print(items[0]) + ",", PrintItems(items[1..]));
    BytesConcat(Print(items[0]), ",");
  }

  lemma {:induction false} ItemsBytes(items: seq<Value>, each: nat)
    requires forall i :: 0 <= i < |items| ==> Bytes(Print(items[i])) < each
    ensures Bytes(PrintItems(items)) <= |items| * each
  {
    if |items| >= 2 {
      ItemsBytes(items[1..], each);
      ItemsStep(items);
      assert |items| * each == |items[1..]| * each + each;
    }
  }

  lemma FrameBytes(items: seq<Value>)
    ensures Bytes(Print(Object([Field("schemaVersion", Number(1)), Field("entries", List(items))])))
      == Bytes(PrintItems(items)) + 32
  {
    VersionBytes();
    EntriesBytes(items);
    PairBytes(Field("schemaVersion", Number(1)), Field("entries", List(items)));
  }

  lemma EntriesBytes(items: seq<Value>)
    ensures Bytes(PrintField(Field("entries", List(items)))) == Bytes(PrintItems(items)) + 12
  {
    MemberBytes("entries", List(items));
    BracketBytes("[", PrintItems(items), "]");
  }

  lemma VersionBytes()
    ensures Bytes(PrintField(Field("schemaVersion", Number(1)))) == 17
  {
    assert Decimal(1) == "1";
    AsciiBytes("1");
    MemberBytes("schemaVersion", Number(1));
  }

  lemma CanonicalEntriesWellFormed(input: Input, limits: Limits, names: Names, i: nat) returns (k: nat)
    requires Acceptable(input, limits, names) && i < |Canonical(input, limits, names)|
    ensures k < |input.entries| && Canonical(input, limits, names)[i] == ToEntry(input.entries[k])
  {
    var canonical := Canonical(input, limits, names);
    SortPermutes(PathOf, ToEntries(input.entries));
    assert canonical[i] in multiset(canonical) && canonical[i] in multiset(ToEntries(input.entries));
    k :| 0 <= k < |input.entries| && ToEntries(input.entries)[k] == canonical[i];
  }

  /** Every accepted manifest prints to 32 bytes and at most path plus 132 bytes an entry. */
  lemma ManifestBytes(input: Input, limits: Limits, names: Names)
    requires Acceptable(input, limits, names)
    ensures Bytes(ManifestText(Canonical(input, limits, names))) <= 32 + |input.entries| * (limits.maxPathBytes + 132)
  {
    var canonical := Canonical(input, limits, names);
    var items := Map(EntryValue, canonical);
    SortPermutes(PathOf, ToEntries(input.entries));
    forall i | 0 <= i < |items| ensures Bytes(Print(items[i])) < limits.maxPathBytes + 132 {
      var k := CanonicalEntriesWellFormed(input, limits, names, i);
      EntryBytes(input.entries[k], limits, names);
    }
    ItemsBytes(items, limits.maxPathBytes + 132);
    FrameBytes(items);
  }

  // ---------------------------------------------------------------- the budget and its guard

  /** Integer division for the nonnegative operands the guard meets. */
  function MetadataBudget(limits: Limits, journal: bool): Option<int>
    requires ValidLimits(limits)
  {
    var factor := if journal then 6 else 1;
    var headroom := if journal then JOURNAL_HEADROOM else MANIFEST_HEADROOM;
    if limits.maxPathBytes > PHP_INT_MAX - PER_ENTRY
      || limits.maxEntries > (PHP_INT_MAX - headroom) / (factor * (limits.maxPathBytes + PER_ENTRY))
    then None
    else Some(headroom + factor * limits.maxEntries * (limits.maxPathBytes + PER_ENTRY))
  }

  function ExactBudget(limits: Limits, journal: bool): int {
    if journal then JOURNAL_HEADROOM + 6 * (limits.maxEntries * (limits.maxPathBytes + PER_ENTRY))
    else MANIFEST_HEADROOM + limits.maxEntries * (limits.maxPathBytes + PER_ENTRY)
  }

  lemma QuotientBound(n: int, room: int, each: int)
    requires each > 0
    ensures n > room / each <==> n * each > room
  {
    var q := room / each;
    assert room == q * each + room % each;
    if n > q {
      assert n * each >= (q + 1) * each;
      assert (q + 1) * each == q * each + each;
    } else {
      assert n * each <= q * each;
    }
  }

  /** The guard refuses exactly the limits whose budget is no PHP integer; no operand overflows on the way. */
  lemma BudgetGuard(limits: Limits, journal: bool)
    requires ValidLimits(limits)
    ensures MetadataBudget(limits, journal).Some? <==> ExactBudget(limits, journal) <= PHP_INT_MAX
    ensures MetadataBudget(limits, journal).Some? ==> MetadataBudget(limits, journal).value == ExactBudget(limits, journal)
    ensures 6 * (limits.maxPathBytes + PER_ENTRY) <= PHP_INT_MAX
  {
    var factor := if journal then 6 else 1;
    var headroom := if journal then JOURNAL_HEADROOM else MANIFEST_HEADROOM;
    var each := limits.maxPathBytes + PER_ENTRY;
    QuotientBound(limits.maxEntries, PHP_INT_MAX - headroom, factor * each);
    assert factor * limits.maxEntries * each == factor * (limits.maxEntries * each) == limits.maxEntries * (factor * each);
  }

  /** `atomicJson` replaces the file unless the text exceeds its bound. */
  class PrivateFile {
    var content: string

    constructor (content: string)
      ensures this.content == content
    {
      this.content := content;
    }

    method AtomicJson(text: string, maximumBytes: int) returns (r: Result<(), Refusal>)
      modifies this
      ensures r.Ok? <==> 1 <= maximumBytes && Bytes(text) <= maximumBytes
      ensures content == if r.Ok? then text else old(content)
    {
      if maximumBytes < 1 { return Err(InvalidRequest); }
      if Bytes(text) > maximumBytes { return Err(QuotaExceeded); }
      content := text;
      r := Ok(());
    }

    /** Saving a canonical manifest under the configured budget. */
    method SaveManifest(input: Input, limits: Limits, names: Names, budget: int) returns (r: Result<(), Refusal>)
      requires Acceptable(input, limits, names)
      requires MetadataBudget(limits, false) == Some(budget)
      modifies this
      ensures r.Ok? && content == ManifestText(Canonical(input, limits, names))
    {
      BudgetSuffices(input, limits, names);
      r := AtomicJson(ManifestText(Canonical(input, limits, names)), budget);
    }
  }

  /** The size gate never refuses an accepted manifest. */
  lemma BudgetSuffices(input: Input, limits: Limits, names: Names)
    requires Acceptable(input, limits, names) && MetadataBudget(limits, false).Some?
    ensures Bytes(ManifestText(Canonical(input, limits, names))) <= MetadataBudget(limits, false).value <= PHP_INT_MAX
  {
    ManifestBytes(input, limits, names);
    BudgetGuard(limits, false);
    var n, p := |input.entries|, limits.maxPathBytes;
    assert n * (p + 132) <= limits.maxEntries * (p + 132) <= limits.maxEntries * (p + PER_ENTRY) by {
      MultiplyMonotone(n, limits.maxEntries, p + 132);
      MultiplyMonotone(p + 132, p + PER_ENTRY, limits.maxEntries);
    }
  }

  lemma MultiplyMonotone(a: int, b: int, k: int)
    requires a <= b && k >= 0
    ensures a * k <= b * k && k * a <= k * b
  {
  }

  // ---------------------------------------------------------------- the text identifies the snapshot

  lemma EntryValueInjective(a: Entry, b: Entry)
    requires EntryValue(a) == EntryValue(b)
    ensures a == b
  {
    assert EntryValue(a).fields[0] == EntryValue(b).fields[0] && EntryValue(a).fields[1] == EntryValue(b).fields[1];
    if a.File? {
      assert EntryValue(a).fields[2] == EntryValue(b).fields[2] && EntryValue(a).fields[3] == EntryValue(b).fields[3];
    }
  }

  lemma ManifestTextInjective(a: seq<Entry>, b: seq<Entry>)
    requires ManifestText(a) == ManifestText(b)
    ensures a == b
  {
    PrintInjective(ManifestValue(a), ManifestValue(b));
    assert ManifestValue(a).fields[1] == ManifestValue(b).fields[1];
    assert Map(EntryValue, a) == Map(EntryValue, b);
    forall i | 0 <= i < |a| ensures a[i] == b[i] {
      assert Map(EntryValue, a)[i] == Map(EntryValue, b)[i];
      EntryValueInjective(a[i], b[i]);
    }
  }

  /** Nothing is lost on the way to the canonical form. */
  lemma CanonicalKeepsEntries(input: Input, limits: Limits, names: Names)
    requires Acceptable(input, limits, names)
    ensures multiset(ToRaws(Canonical(input, limits, names))) == multiset(input.entries)
  {
    var entries := ToEntries(input.entries);
    SortPermutes(PathOf, entries);
    MapMonotone(ToRaw, entries, SortByPath(entries));
    MapMonotone(ToRaw, SortByPath(entries), entries);
    assert ToRaws(entries) == input.entries;
  }

  /** Two accepted snapshots print the same bytes exactly when they list the same entries, in any order. */
  lemma TextIdentifiesSnapshot(a: Input, b: Input, limits: Limits, names: Names)
    requires Acceptable(a, limits, names) && Acceptable(b, limits, names)
    ensures Utf8.Encode(ManifestText(Canonical(a, limits, names))) == Utf8.Encode(ManifestText(Canonical(b, limits, names)))
      <==> multiset(a.entries) == multiset(b.entries)
  {
    var x, y := Canonical(a, limits, names), Canonical(b, limits, names);
    if multiset(a.entries) == multiset(b.entries) { OrderIrrelevant(a, b, limits, names); }
    if Utf8.Encode(ManifestText(x)) == Utf8.Encode(ManifestText(y)) {
      Utf8.EncodeInjective(ManifestText(x), ManifestText(y));
      ManifestTextInjective(x, y);
      CanonicalKeepsEntries(a, limits, names);
      CanonicalKeepsEntries(b, limits, names);
    }
  }
}
