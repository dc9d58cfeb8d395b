/**
 Complete snapshots: what a portable manifest is, entry by entry and pairwise, and the one
 canonical form of an acceptable one.
 */
module Manifests {
  import opened Lists
  import opened Prelude
  import Utf8

  const MAX_SAFE_INTEGER: int := 9007199254740991

  /** One decoded entry; a field is None when it is absent or not of the expected JSON type. */
  datatype RawEntry =
    | NotObject
    | Raw(path: Option<string>, kind: Option<string>, byteLength: Option<int>, sha256: Option<string>, otherFields: bool)

  datatype Input = NotManifest | Snapshot(schemaVersion: int, entries: seq<RawEntry>, otherFields: bool)

  datatype Entry = Directory(path: string) | File(path: string, byteLength: nat, sha256: string)

  datatype Limits = Limits(maxEntries: int, maxPathBytes: int, maxComponentBytes: int, maxFileBytes: int, maxTotalBytes: int)

  /** The Unicode-dependent parts, left arbitrary: NFC, NFKC case folding and the Windows device names. */
  datatype Names = Names(isNfc: string -> bool, portableKey: string -> string, isDevice: string -> bool)

  datatype Refusal = InvalidRequest | InvalidManifest | QuotaExceeded

  predicate ValidLimit(n: int) { 0 < n <= MAX_SAFE_INTEGER }

  predicate ValidLimits(limits: Limits) {
    && ValidLimit(limits.maxEntries) && ValidLimit(limits.maxPathBytes) && ValidLimit(limits.maxComponentBytes)
    && ValidLimit(limits.maxFileBytes) && ValidLimit(limits.maxTotalBytes)
  }

  // ---------------------------------------------------------------- paths

  function Components(path: string): (parts: seq<string>)
    ensures |parts| >= 1
  {
    if path == "" then [""]
    else
      var rest := Components(path[1..]);
      if path[0] == '/' then [""] + rest else [[path[0]] + rest[0]] + rest[1..]
  }

  function Join(parts: seq<string>): string {
    if parts == [] then "" else if |parts| == 1 then parts[0] else parts[0] + "/" + Join(parts[1..])
  }

  /** The path made of the first k components. */
  function Prefix(path: string, k: nat): string
    requires k <= |Components(path)|
  {
    Join(Components(path)[..k])
  }

  function PrefixSet(path: string): set<string> {
    set k | 1 <= k <= |Components(path)| :: Prefix(path, k)
  }

  lemma {:induction false} JoinComponents(path: string)
    ensures Join(Components(path)) == path
  {
    if path != "" {
      JoinComponents(path[1..]);
      var rest := Components(path[1..]);
      if path[0] == '/' {
        assert ([""] + rest)[1..] == rest;
      } else {
        var all := [[path[0]] + rest[0]] + rest[1..];
        assert all[1..] == rest[1..];
        if |rest| > 1 {
          assert Join(all) == ([path[0]] + rest[0]) + "/" + Join(rest[1..]);
          assert Join(rest) == rest[0] + "/" + Join(rest[1..]);
        }
      }
    }
  }

  predicate Nonportable(c: char) {
    c in "\\<>:\"|?*" || (c as int) < 0x20 || (c as int) == 0x7F
  }

  predicate ValidComponent(part: string, limits: Limits, names: Names) {
    && part != "" && part != "." && part != ".."
    && part[|part| - 1] != '.' && part[|part| - 1] != ' '
    && |Utf8.Encode(part)| <= limits.maxComponentBytes
    && names.portableKey(part) !in {".git", ".contextvault"}
    && !names.isDevice(part)
  }

  predicate ValidPath(path: string, limits: Limits, names: Names) {
    && path != "" && names.isNfc(path)
    && |Utf8.Encode(path)| <= limits.maxPathBytes
    && (forall i :: 0 <= i < |path| ==> !Nonportable(path[i]))
    && (forall i :: 0 <= i < |Components(path)| ==> ValidComponent(Components(path)[i], limits, names))
  }

  predicate LowerHex(c: char) { '0' <= c <= '9' || 'a' <= c <= 'f' }

  predicate Digest(text: string) {
    |text| == 64 && forall i :: 0 <= i < |text| ==> LowerHex(text[i])
  }

  // ---------------------------------------------------------------- entries

  predicate IsDirectoryEntry(raw: RawEntry) {
    raw.Raw? && raw.kind == Some("directory") && raw.byteLength.None? && raw.sha256.None? && !raw.otherFields
  }

  predicate IsFileEntry(raw: RawEntry) {
    && raw.Raw? && raw.kind == Some("file") && raw.byteLength.Some? && raw.sha256.Some? && !raw.otherFields
    && 0 <= raw.byteLength.value <= MAX_SAFE_INTEGER && Digest(raw.sha256.value)
  }

  predicate WellFormed(raw: RawEntry, limits: Limits, names: Names) {
    && raw.Raw? && raw.path.Some? && ValidPath(raw.path.value, limits, names)
    && (IsDirectoryEntry(raw) || (IsFileEntry(raw) && raw.byteLength.value <= limits.maxFileBytes))
  }

  /** The entry a well-formed raw entry stands for. */
  function ToEntry(raw: RawEntry): Entry {
    if raw.NotObject? then Directory("")
    else if IsFileEntry(raw) then File(raw.path.GetOr(""), raw.byteLength.value, raw.sha256.value)
    else Directory(raw.path.GetOr(""))
  }

  function ToRaw(entry: Entry): RawEntry {
    match entry
    case Directory(path) => Raw(Some(path), Some("directory"), None, None, false)
    case File(path, byteLength, sha256) => Raw(Some(path), Some("file"), Some(byteLength), Some(sha256), false)
  }

  predicate AllWellFormed(raws: seq<RawEntry>, limits: Limits, names: Names) {
    forall i :: 0 <= i < |raws| ==> WellFormed(raws[i], limits, names)
  }

  function ToEntries(raws: seq<RawEntry>): seq<Entry> { Map(ToEntry, raws) }

  function ToRaws(entries: seq<Entry>): seq<RawEntry> { Map(ToRaw, entries) }

  // ---------------------------------------------------------------- the pairwise specification

  predicate DistinctPaths(entries: seq<Entry>) { DistinctKeys(PathOf, entries) }

  function AllPrefixes(entries: seq<Entry>): set<string> {
    set i, p | 0 <= i < |entries| && p in PrefixSet(entries[i].path) :: p
  }

  predicate InjectiveOn(names: Names, texts: set<string>) {
    forall p, q :: p in texts && q in texts && names.portableKey(p) == names.portableKey(q) ==> p == q
  }

  /** Distinct names stay distinct on every portable filesystem, at every level of the tree. */
  predicate PortablyDistinct(entries: seq<Entry>, names: Names) {
    InjectiveOn(names, AllPrefixes(entries))
  }

  predicate Contains(above: Entry, below: Entry) {
    exists k :: 1 <= k < |Components(below.path)| && Prefix(below.path, k) == above.path
  }

  predicate NoFileAboveAnother(entries: seq<Entry>) {
    forall i, j :: 0 <= i < |entries| && 0 <= j < |entries| && Contains(entries[i], entries[j]) ==> entries[i].Directory?
  }

  /** The entries that are files, in order. */
  function Files(entries: seq<Entry>): seq<Entry> {
    if entries == [] then []
    else (if entries[0].File? then [entries[0]] else []) + Files(entries[1..])
  }

  function Size(entry: Entry): nat { if entry.File? then entry.byteLength else 0 }

  function TotalBytes(entries: seq<Entry>): nat {
    if entries == [] then 0 else TotalBytes(entries[..|entries| - 1]) + Size(entries[|entries| - 1])
  }

  predicate AcceptableEntries(raws: seq<RawEntry>, limits: Limits, names: Names) {
    && |raws| <= limits.maxEntries
    && AllWellFormed(raws, limits, names)
    && DistinctPaths(ToEntries(raws))
    && PortablyDistinct(ToEntries(raws), names)
    && NoFileAboveAnother(ToEntries(raws))
    && TotalBytes(ToEntries(raws)) <= limits.maxTotalBytes
  }

  predicate Acceptable(input: Input, limits: Limits, names: Names) {
    && ValidLimits(limits)
    && input.Snapshot? && input.schemaVersion == 1 && !input.otherFields
    && AcceptableEntries(input.entries, limits, names)
  }

  // ---------------------------------------------------------------- the canonical order

  function PathOf(entry: Entry): string { entry.path }

  /** The library sort by unsigned UTF-8 path bytes. */
  function SortByPath(entries: seq<Entry>): seq<Entry> { SortBy(PathOf, entries) }

  function Canonical(input: Input, limits: Limits, names: Names): seq<Entry>
    requires Acceptable(input, limits, names)
  {
    SortByPath(ToEntries(input.entries))
  }

  // ---------------------------------------------------------------- any part of an acceptable list is acceptable

  lemma {:induction false} TotalWithout(entries: seq<Entry>, k: nat)
    requires k < |entries|
    ensures TotalBytes(entries) == TotalBytes(Without(entries, k)) + Size(entries[k])
  {
    var n := |entries| - 1;
    if k == n {
      assert Without(entries, k) == entries[..n];
    } else {
      TotalWithout(entries[..n], k);
      assert Without(entries, k) == Without(entries[..n], k) + [entries[n]];
      assert (Without(entries[..n], k) + [entries[n]])[..n - 1] == Without(entries[..n], k);
    }
  }

  lemma {:induction false} TotalMonotone(part: seq<Entry>, whole: seq<Entry>)
    requires multiset(part) <= multiset(whole)
    ensures TotalBytes(part) <= TotalBytes(whole)
    decreases |part|
  {
    if part != [] {
      var n := |part| - 1;
      assert part[n] in multiset(part) && part[n] in multiset(whole);
      var k :| 0 <= k < |whole| && whole[k] == part[n];
      assert part == part[..n] + [part[n]];
      TotalMonotone(part[..n], Without(whole, k));
      TotalWithout(whole, k);
    }
  }

  lemma PartDistinct(part: seq<Entry>, whole: seq<Entry>)
    requires multiset(part) <= multiset(whole) && DistinctPaths(whole)
    ensures DistinctPaths(part)
  {
    forall i, j | 0 <= i < j < |part| ensures part[i].path != part[j].path {
      assert part[i] in multiset(whole) && part[j] in multiset(whole);
      if part[i] == part[j] {
        TwicePlaced(part, part[i]);
        TwicePlaced(whole, part[i]);
      } else {
        var a :| 0 <= a < |whole| && whole[a] == part[i];
        var b :| 0 <= b < |whole| && whole[b] == part[j];
      }
    }
  }

  lemma PartPortable(part: seq<Entry>, whole: seq<Entry>, names: Names)
    requires multiset(part) <= multiset(whole)
    requires PortablyDistinct(whole, names) && NoFileAboveAnother(whole)
    ensures PortablyDistinct(part, names) && NoFileAboveAnother(part)
  {
    forall e | e in part ensures e in whole { assert e in multiset(part) && e in multiset(whole); }
    forall p | p in AllPrefixes(part) ensures p in AllPrefixes(whole) {
      var i :| 0 <= i < |part| && p in PrefixSet(part[i].path);
      assert part[i] in part && part[i] in whole;
      var j :| 0 <= j < |whole| && whole[j] == part[i];
    }
    forall i, j | 0 <= i < |part| && 0 <= j < |part| && Contains(part[i], part[j]) ensures part[i].Directory? {
      assert part[i] in whole && part[j] in whole;
    }
  }

  /** Any part of an acceptable list, in any order, is acceptable. */
  lemma PartAcceptable(part: seq<RawEntry>, whole: seq<RawEntry>, limits: Limits, names: Names)
    requires multiset(part) <= multiset(whole) && AcceptableEntries(whole, limits, names)
    ensures AcceptableEntries(part, limits, names)
  {
    assert |part| <= |whole| by {
      assert |multiset(part)| == |part| && |multiset(whole)| == |whole|;
      assert multiset(whole) == multiset(part) + (multiset(whole) - multiset(part));
    }
    assert AllWellFormed(part, limits, names) by {
      forall i | 0 <= i < |part| ensures WellFormed(part[i], limits, names) {
        assert part[i] in multiset(part) && part[i] in multiset(whole);
      }
    }
    MapMonotone(ToEntry, part, whole);
    PartDistinct(ToEntries(part), ToEntries(whole));
    TotalMonotone(ToEntries(part), ToEntries(whole));
    PartPortable(ToEntries(part), ToEntries(whole), names);
  }

  /** Acceptance and the canonical form ignore the order of the entries. */
  lemma OrderIrrelevant(a: Input, b: Input, limits: Limits, names: Names)
    requires a.Snapshot? && b.Snapshot? && multiset(a.entries) == multiset(b.entries)
    requires a.schemaVersion == b.schemaVersion && a.otherFields == b.otherFields
    ensures Acceptable(a, limits, names) <==> Acceptable(b, limits, names)
    ensures Acceptable(a, limits, names) ==> Canonical(a, limits, names) == Canonical(b, limits, names)
  {
    if Acceptable(a, limits, names) { PartAcceptable(b.entries, a.entries, limits, names); }
    if Acceptable(b, limits, names) { PartAcceptable(a.entries, b.entries, limits, names); }
    if Acceptable(a, limits, names) {
      MapMonotone(ToEntry, a.entries, b.entries);
      MapMonotone(ToEntry, b.entries, a.entries);
      var x, y := ToEntries(a.entries), ToEntries(b.entries);
      SortIgnoresOrder(PathOf, x, y);
    }
  }

  /** The canonical form is itself acceptable and its own canonical form. */
  lemma CanonicalIdempotent(input: Input, limits: Limits, names: Names)
    requires Acceptable(input, limits, names)
    ensures var again := Snapshot(1, ToRaws(Canonical(input, limits, names)), false);
      Acceptable(again, limits, names) && Canonical(again, limits, names) == Canonical(input, limits, names)
  {
    var entries := ToEntries(input.entries);
    var canonical := SortByPath(entries);
    SortPermutes(PathOf, entries);
    MapMonotone(ToRaw, canonical, entries);
    MapMonotone(ToRaw, entries, canonical);
    assert ToRaws(entries) == input.entries;
    OrderIrrelevant(Snapshot(1, ToRaws(canonical), false), input, limits, names);
  }

  predicate StaysInside(entry: Entry, limits: Limits, names: Names) {
    && entry.path != "" && '\\' !in entry.path && |Utf8.Encode(entry.path)| <= limits.maxPathBytes
    && (forall c :: c in Components(entry.path) ==> c != "" && c != "." && c != ".." && names.portableKey(c) !in {".git", ".contextvault"})
    && (entry.File? ==> entry.byteLength <= limits.maxFileBytes && Digest(entry.sha256))
  }

  lemma WellFormedStaysInside(raw: RawEntry, limits: Limits, names: Names)
    requires WellFormed(raw, limits, names)
    ensures StaysInside(ToEntry(raw), limits, names)
  {
    assert Nonportable('\\');
  }

  lemma SameMembers(input: Input, limits: Limits, names: Names, entry: Entry)
    requires Acceptable(input, limits, names)
    ensures entry in Canonical(input, limits, names) <==> entry in ToEntries(input.entries)
  {
    var entries := ToEntries(input.entries);
    SortPermutes(PathOf, entries);
    assert entry in Canonical(input, limits, names) <==> entry in multiset(Canonical(input, limits, names));
    assert entry in entries <==> entry in multiset(entries);
  }

  /**
   What an accepted snapshot contains stays inside the directory it is written to, touches no reserved metadata,
   and is listed once: no component leads out of it, and whatever is listed above an entry is a directory.
   */
  lemma AcceptedStaysInside(input: Input, limits: Limits, names: Names, entry: Entry, other: Entry)
    requires Acceptable(input, limits, names)
    requires entry in Canonical(input, limits, names) && other in Canonical(input, limits, names)
    ensures StaysInside(entry, limits, names)
    ensures other.path == entry.path ==> other == entry
    ensures Contains(other, entry) ==> other.Directory?
  {
    SameMembers(input, limits, names, entry);
    SameMembers(input, limits, names, other);
    var entries := ToEntries(input.entries);
    var i :| 0 <= i < |entries| && entries[i] == entry;
    var j :| 0 <= j < |entries| && entries[j] == other;
    WellFormedStaysInside(input.entries[i], limits, names);
    assert i != j ==> PathOf(entries[i]) != PathOf(entries[j]);
  }
}
