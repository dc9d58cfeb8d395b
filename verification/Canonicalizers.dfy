/**
 The map-filling canonicalizers of the server (src/domain/manifest.ts), the Python client
 (sdk/python/contextvault/files.py) and the PHP client (sdk/php/src/Manifest.php), each
 proved against the pairwise specification; and the bisection that relies on it.
 */
module Canonicalizers {
  import opened Prelude
  import opened Lists
  import opened Manifests

  // ---------------------------------------------------------------- the two shared tables

  /** The table of portable names holds exactly the claimed prefixes, each under its own key. */
  ghost predicate Claims(table: map<string, string>, claimed: set<string>, names: Names) {
    && (forall p :: p in claimed ==> names.portableKey(p) in table && table[names.portableKey(p)] == p)
    && (forall x :: x in table ==> table[x] in claimed && names.portableKey(table[x]) == x)
  }

  /** The table of paths holds exactly the entries read so far. */
  ghost predicate Indexes(paths: map<string, Entry>, entries: seq<Entry>) {
    && (forall i :: 0 <= i < |entries| ==> entries[i].path in paths && paths[entries[i].path] == entries[i])
    && (forall p :: p in paths ==> paths[p].path == p && paths[p] in entries)
  }

  lemma ClaimsInjective(table: map<string, string>, claimed: set<string>, names: Names)
    requires Claims(table, claimed, names)
    ensures InjectiveOn(names, claimed)
  {
  }

  /** The inner loop over the prefixes of one path; None is a portable-name collision. */
  method ClaimPrefixes(table: map<string, string>, path: string, names: Names, ghost claimed: set<string>)
    returns (r: Option<map<string, string>>)
    requires Claims(table, claimed, names)
    ensures r.Some? ==> Claims(r.value, claimed + PrefixSet(path), names)
    ensures r.None? ==> !InjectiveOn(names, claimed + PrefixSet(path))
  {
    var next := table;
    var components := Components(path);
    ghost var done: set<string> := {};
    for i := 1 to |components| + 1
      invariant done <= PrefixSet(path)
      invariant forall k :: 1 <= k < i ==> Prefix(path, k) in done
      invariant Claims(next, claimed + done, names)
    {
      var prefix := Join(components[..i]);
      assert prefix == Prefix(path, i) && prefix in PrefixSet(path);
      var key := names.portableKey(prefix);
      if key in next && next[key] != prefix {
        assert next[key] in claimed + PrefixSet(path);
        return None;
      }
      next := next[key := prefix];
      done := done + {prefix};
    }
    assert done == PrefixSet(path);
    r := Some(next);
  }

  /** The loop over the proper ancestors of one path. */
  method HasFileAbove(paths: map<string, Entry>, path: string) returns (found: bool)
    ensures found <==> exists k :: 1 <= k < |Components(path)| && Prefix(path, k) in paths && paths[Prefix(path, k)].File?
  {
    var components := Components(path);
    for i := 1 to |components|
      invariant forall k :: 1 <= k < i ==> !(Prefix(path, k) in paths && paths[Prefix(path, k)].File?)
    {
      var above := Join(components[..i]);
      assert above == Prefix(path, i);
      if above in paths && paths[above].File? { return true; }
    }
    found := false;
  }

  /** The second pass over all entries. */
  method CheckAncestors(paths: map<string, Entry>, entries: seq<Entry>) returns (ok: bool)
    requires Indexes(paths, entries)
    ensures ok <==> NoFileAboveAnother(entries)
  {
    for i := 0 to |entries|
      invariant forall a, j :: 0 <= a < |entries| && 0 <= j < i && Contains(entries[a], entries[j]) ==> entries[a].Directory?
    {
      var found := HasFileAbove(paths, entries[i].path);
      if found {
        ghost var k :| 1 <= k < |Components(entries[i].path)| && Prefix(entries[i].path, k) in paths
                       && paths[Prefix(entries[i].path, k)].File?;
        ghost var above := paths[Prefix(entries[i].path, k)];
        assert above in entries && Contains(above, entries[i]);
        return false;
      }
    }
    ok := true;
  }

  // ---------------------------------------------------------------- facts about reading one more entry

  /** What the first pass has established about the entries read so far. */
  ghost predicate Read(raws: seq<RawEntry>, limits: Limits, names: Names) {
    && AllWellFormed(raws, limits, names)
    && DistinctPaths(ToEntries(raws))
    && PortablyDistinct(ToEntries(raws), names)
    && TotalBytes(ToEntries(raws)) <= limits.maxTotalBytes
  }

  lemma PrefixesOfOneMore(entries: seq<Entry>, entry: Entry)
    ensures AllPrefixes(entries + [entry]) == AllPrefixes(entries) + PrefixSet(entry.path)
  {
    var after := entries + [entry];
    forall p | p in AllPrefixes(after) ensures p in AllPrefixes(entries) + PrefixSet(entry.path) {
      var k :| 0 <= k < |after| && p in PrefixSet(after[k].path);
      if k < |entries| { assert entries[k] == after[k]; }
    }
    forall p | p in AllPrefixes(entries) + PrefixSet(entry.path) ensures p in AllPrefixes(after) {
      if p in PrefixSet(entry.path) {
        assert after[|entries|] == entry;
      } else {
        var k :| 0 <= k < |entries| && p in PrefixSet(entries[k].path);
        assert after[k] == entries[k];
      }
    }
  }

  predicate NewPath(entries: seq<Entry>, path: string) {
    forall i :: 0 <= i < |entries| ==> entries[i].path != path
  }

  lemma EntriesOfOneMore(before: seq<RawEntry>, raw: RawEntry)
    ensures ToEntries(before + [raw]) == ToEntries(before) + [ToEntry(raw)]
    ensures TotalBytes(ToEntries(before + [raw])) == TotalBytes(ToEntries(before)) + Size(ToEntry(raw))
    ensures AllPrefixes(ToEntries(before + [raw])) == AllPrefixes(ToEntries(before)) + PrefixSet(ToEntry(raw).path)
  {
    var entries, entry := ToEntries(before), ToEntry(raw);
    assert ToEntries(before + [raw]) == entries + [entry];
    assert (entries + [entry])[..|entries|] == entries;
    PrefixesOfOneMore(entries, entry);
  }

  /** One more entry is readable exactly when it passes each of the four checks of the first pass. */
  lemma ReadOneMore(before: seq<RawEntry>, raw: RawEntry, limits: Limits, names: Names)
    requires Read(before, limits, names)
    ensures Read(before + [raw], limits, names) <==>
      && WellFormed(raw, limits, names)
      && NewPath(ToEntries(before), ToEntry(raw).path)
      && InjectiveOn(names, AllPrefixes(ToEntries(before)) + PrefixSet(ToEntry(raw).path))
      && TotalBytes(ToEntries(before)) + Size(ToEntry(raw)) <= limits.maxTotalBytes
  {
    EntriesOfOneMore(before, raw);
    var entries, entry := ToEntries(before), ToEntry(raw);
    assert AllWellFormed(before + [raw], limits, names) <==> WellFormed(raw, limits, names) by {
      assert (before + [raw])[|before|] == raw;
      assert forall i :: 0 <= i < |before| ==> (before + [raw])[i] == before[i];
    }
    assert DistinctPaths(entries + [entry]) <==> NewPath(entries, entry.path) by {
      assert (entries + [entry])[|entries|] == entry;
      if DistinctPaths(entries + [entry]) {
        forall i | 0 <= i < |entries| ensures entries[i].path != entry.path {
          assert (entries + [entry])[i] == entries[i];
        }
      }
    }
  }

  lemma IndexOneMore(paths: map<string, Entry>, entries: seq<Entry>, entry: Entry)
    requires Indexes(paths, entries) && entry.path !in paths
    ensures Indexes(paths[entry.path := entry], entries + [entry])
  {
  }

  lemma IndexedPath(paths: map<string, Entry>, entries: seq<Entry>, path: string)
    requires Indexes(paths, entries)
    ensures path !in paths <==> NewPath(entries, path)
  {
  }

  /** A violation among the first entries condemns the whole list. */
  lemma PartCondemnsWhole(raws: seq<RawEntry>, before: seq<RawEntry>, limits: Limits, names: Names)
    requires before <= raws && !Read(before, limits, names)
    ensures !AcceptableEntries(raws, limits, names)
  {
    assert raws == before + raws[|before|..];
    if AcceptableEntries(raws, limits, names) {
      PartAcceptable(before, raws, limits, names);
    }
  }

  // ---------------------------------------------------------------- the state of the first pass

  /** The variables of the first pass: the entries read, both tables and the running total. */
  datatype Pass = Pass(entries: seq<Entry>, paths: map<string, Entry>, table: map<string, string>, total: nat)

  const FRESH := Pass([], map[], map[], 0)

  /** The variables describe `before`, which passed every check so far. */
  ghost predicate Holds(pass: Pass, before: seq<RawEntry>, limits: Limits, names: Names) {
    && Read(before, limits, names)
    && pass.entries == ToEntries(before)
    && Indexes(pass.paths, pass.entries)
    && Claims(pass.table, AllPrefixes(pass.entries), names)
    && pass.total == TotalBytes(pass.entries)
  }

  lemma NothingRead(limits: Limits, names: Names)
    requires ValidLimits(limits)
    ensures Holds(FRESH, [], limits, names)
  {
  }

  /** Every language's loop ends an iteration with the same update. */
  function Recorded(pass: Pass, entry: Entry, table: map<string, string>): Pass {
    Pass(pass.entries + [entry], pass.paths[entry.path := entry], table, pass.total + Size(entry))
  }

  lemma RecordedHolds(pass: Pass, before: seq<RawEntry>, raw: RawEntry, table: map<string, string>, limits: Limits, names: Names)
    requires Holds(pass, before, limits, names) && Read(before + [raw], limits, names)
    requires ToEntry(raw).path !in pass.paths
    requires Claims(table, AllPrefixes(pass.entries) + PrefixSet(ToEntry(raw).path), names)
    ensures Holds(Recorded(pass, ToEntry(raw), table), before + [raw], limits, names)
  {
    EntriesOfOneMore(before, raw);
    IndexOneMore(pass.paths, pass.entries, ToEntry(raw));
  }

  /** The checks on names are the same everywhere: a valid path, not seen before, with no portable collision. */
  method ClaimPath(pass: Pass, raw: RawEntry, limits: Limits, names: Names, ghost before: seq<RawEntry>)
    returns (table: Option<map<string, string>>)
    requires Holds(pass, before, limits, names)
    ensures table.None? ==> !Read(before + [raw], limits, names)
    ensures table.Some? ==> raw.Raw? && raw.path.Some? && ValidPath(raw.path.value, limits, names)
    ensures table.Some? ==> raw.path.value !in pass.paths
    ensures table.Some? ==> Claims(table.value, AllPrefixes(pass.entries) + PrefixSet(raw.path.value), names)
    ensures table.Some? ==> (Read(before + [raw], limits, names) <==>
      WellFormed(raw, limits, names) && pass.total + Size(ToEntry(raw)) <= limits.maxTotalBytes)
  {
    ReadOneMore(before, raw, limits, names);
    if raw.NotObject? || raw.path.None? || !ValidPath(raw.path.value, limits, names) { return None; }
    var path := raw.path.value;
    assert ToEntry(raw).path == path;
    IndexedPath(pass.paths, pass.entries, path);
    if path in pass.paths { return None; }
    table := ClaimPrefixes(pass.table, path, names, AllPrefixes(pass.entries));
    if table.Some? { ClaimsInjective(table.value, AllPrefixes(pass.entries) + PrefixSet(path), names); }
  }

  // ---------------------------------------------------------------- src/domain/manifest.ts

  /** The per-entry callback of `canonicalizeManifest`. */
  method ReadServerEntry(pass: Pass, raw: RawEntry, limits: Limits, names: Names, ghost before: seq<RawEntry>)
    returns (r: Result<Pass, Refusal>)
    requires ValidLimits(limits) && Holds(pass, before, limits, names)
    ensures r.Ok? ==> Holds(r.value, before + [raw], limits, names)
    ensures r.Err? ==> !Read(before + [raw], limits, names)
  {
    var table := ClaimPath(pass, raw, limits, names, before);
    if table.None? { return Err(InvalidManifest); }
    var path := raw.path.value;
    var entry;
    if raw.kind == Some("directory") {
      if !IsDirectoryEntry(raw) { return Err(InvalidManifest); }
      entry := Directory(path);
    } else if raw.kind == Some("file") {
      if !IsFileEntry(raw) { return Err(InvalidManifest); }
      if raw.byteLength.value > limits.maxFileBytes { return Err(QuotaExceeded); }
      var total := pass.total + raw.byteLength.value;
      if total > MAX_SAFE_INTEGER || total > limits.maxTotalBytes { return Err(QuotaExceeded); }
      entry := File(path, raw.byteLength.value, raw.sha256.value);
    } else {
      return Err(InvalidManifest);
    }
    RecordedHolds(pass, before, raw, table.value, limits, names);
    r := Ok(Recorded(pass, entry, table.value));
  }

  /** The first pass of `canonicalizeManifest`. */
  method ReadServerEntries(raws: seq<RawEntry>, limits: Limits, names: Names) returns (r: Result<Pass, Refusal>)
    requires ValidLimits(limits)
    ensures r.Ok? ==> Holds(r.value, raws, limits, names)
    ensures r.Err? ==> !AcceptableEntries(raws, limits, names)
  {
    var pass := FRESH;
    ghost var before: seq<RawEntry> := [];
    NothingRead(limits, names);
    for i := 0 to |raws|
      invariant before <= raws && |before| == i
      invariant Holds(pass, before, limits, names)
    {
      r := ReadServerEntry(pass, raws[i], limits, names, before);
      PrefixGrows(before, raws);
      before := before + [raws[i]];
      if r.Err? {
        PartCondemnsWhole(raws, before, limits, names);
        return;
      }
      pass := r.value;
    }
    PrefixComplete(before, raws);
    r := Ok(pass);
  }

  /** The server's canonicalizer. */
  method CanonicalizeManifest(input: Input, limits: Limits, names: Names) returns (r: Result<seq<Entry>, Refusal>)
    ensures r.Ok? <==> Acceptable(input, limits, names)
    ensures r.Ok? ==> r.value == Canonical(input, limits, names)
  {
    if !ValidLimits(limits) { return Err(InvalidRequest); }
    if input.NotManifest? || input.schemaVersion != 1 || input.otherFields { return Err(InvalidManifest); }
    if |input.entries| > limits.maxEntries { return Err(QuotaExceeded); }
    var read := ReadServerEntries(input.entries, limits, names);
    if read.Err? { return Err(read.error); }
    var ok := CheckAncestors(read.value.paths, read.value.entries);
    if !ok { return Err(InvalidManifest); }
    r := Ok(SortByPath(read.value.entries));
  }

  // ---------------------------------------------------------------- sdk/python/contextvault/files.py

  method ReadPythonEntry(pass: Pass, raw: RawEntry, limits: Limits, names: Names, ghost before: seq<RawEntry>)
    returns (r: Result<Pass, Refusal>)
    requires ValidLimits(limits) && Holds(pass, before, limits, names)
    ensures r.Ok? ==> Holds(r.value, before + [raw], limits, names)
    ensures r.Err? ==> !Read(before + [raw], limits, names)
  {
    var table := ClaimPath(pass, raw, limits, names, before);
    if table.None? { return Err(InvalidManifest); }
    var entry;
    if raw.kind == Some("directory") && raw.byteLength.None? && raw.sha256.None? && !raw.otherFields {
      entry := Directory(raw.path.value);
    } else if raw.kind == Some("file") && raw.byteLength.Some? && raw.sha256.Some? && !raw.otherFields {
      var size := raw.byteLength.value;
      if size < 0 || size > MAX_SAFE_INTEGER || !Digest(raw.sha256.value) { return Err(InvalidManifest); }
      var total := pass.total + size;
      if size > limits.maxFileBytes || total > limits.maxTotalBytes { return Err(QuotaExceeded); }
      entry := File(raw.path.value, size, raw.sha256.value);
    } else {
      return Err(InvalidManifest);
    }
    RecordedHolds(pass, before, raw, table.value, limits, names);
    r := Ok(Recorded(pass, entry, table.value));
  }

  method ReadPythonEntries(raws: seq<RawEntry>, limits: Limits, names: Names) returns (r: Result<Pass, Refusal>)
    requires ValidLimits(limits)
    ensures r.Ok? ==> Holds(r.value, raws, limits, names)
    ensures r.Err? ==> !AcceptableEntries(raws, limits, names)
  {
    var pass := FRESH;
    ghost var before: seq<RawEntry> := [];
    NothingRead(limits, names);
    for i := 0 to |raws|
      invariant before <= raws && |before| == i
      invariant Holds(pass, before, limits, names)
    {
      r := ReadPythonEntry(pass, raws[i], limits, names, before);
      PrefixGrows(before, raws);
      before := before + [raws[i]];
      if r.Err? {
        PartCondemnsWhole(raws, before, limits, names);
        return;
      }
      pass := r.value;
    }
    PrefixComplete(before, raws);
    r := Ok(pass);
  }

  /** The second pass in Python runs over the names in the dictionary, in no order that matters. */
  method CheckNames(paths: map<string, Entry>, entries: seq<Entry>) returns (ok: bool)
    requires Indexes(paths, entries)
    ensures ok <==> NoFileAboveAnother(entries)
  {
    var left := paths.Keys;
    while left != {}
      invariant left <= paths.Keys
      invariant forall a, b :: a in entries && b in entries && b.path !in left && Contains(a, b) ==> a.Directory?
      decreases |left|
    {
      var name :| name in left;
      var found := HasFileAbove(paths, name);
      if found {
        ghost var k :| 1 <= k < |Components(name)| && Prefix(name, k) in paths && paths[Prefix(name, k)].File?;
        assert paths[Prefix(name, k)] in entries && paths[name] in entries && Contains(paths[Prefix(name, k)], paths[name]);
        return false;
      }
      left := left - {name};
    }
    ok := true;
    assert NoFileAboveAnother(entries) by {
      forall i, j | 0 <= i < |entries| && 0 <= j < |entries| && Contains(entries[i], entries[j]) ensures entries[i].Directory? {
        assert entries[i] in entries && entries[j] in entries;
      }
    }
  }

  /** The Python client's canonicalizer: the same specification as the server's, so they agree. */
  method CanonicalManifest(input: Input, limits: Limits, names: Names) returns (r: Result<seq<Entry>, Refusal>)
    ensures r.Ok? <==> Acceptable(input, limits, names)
    ensures r.Ok? ==> r.value == Canonical(input, limits, names)
  {
    if !ValidLimits(limits) { return Err(InvalidRequest); }
    if input.NotManifest? || input.otherFields || input.schemaVersion != 1 { return Err(InvalidManifest); }
    if |input.entries| > limits.maxEntries { return Err(QuotaExceeded); }
    var read := ReadPythonEntries(input.entries, limits, names);
    if read.Err? { return Err(read.error); }
    var ok := CheckNames(read.value.paths, read.value.entries);
    if !ok { return Err(InvalidManifest); }
    r := Ok(SortByPath(read.value.entries));
  }

  // ---------------------------------------------------------------- sdk/php/src/Manifest.php

  method ReadPhpEntry(pass: Pass, raw: RawEntry, limits: Limits, names: Names, ghost before: seq<RawEntry>)
    returns (r: Result<Pass, Refusal>)
    requires ValidLimits(limits) && Holds(pass, before, limits, names)
    ensures r.Ok? ==> Holds(r.value, before + [raw], limits, names)
    ensures r.Err? ==> !Read(before + [raw], limits, names)
  {
    var table := ClaimPath(pass, raw, limits, names, before);
    if table.None? { return Err(InvalidManifest); }
    var entry;
    if raw.kind == Some("directory") {
      if !IsDirectoryEntry(raw) { return Err(InvalidManifest); }
      entry := Directory(raw.path.value);
    } else if raw.kind == Some("file") {
      if !IsFileEntry(raw) { return Err(InvalidManifest); }
      var total := pass.total + raw.byteLength.value;
      if raw.byteLength.value > limits.maxFileBytes || total > limits.maxTotalBytes { return Err(QuotaExceeded); }
      entry := File(raw.path.value, raw.byteLength.value, raw.sha256.value);
    } else {
      return Err(InvalidManifest);
    }
    RecordedHolds(pass, before, raw, table.value, limits, names);
    r := Ok(Recorded(pass, entry, table.value));
  }

  method ReadPhpEntries(raws: seq<RawEntry>, limits: Limits, names: Names) returns (r: Result<Pass, Refusal>)
    requires ValidLimits(limits)
    ensures r.Ok? ==> Holds(r.value, raws, limits, names)
    ensures r.Err? ==> !AcceptableEntries(raws, limits, names)
  {
    var pass := FRESH;
    ghost var before: seq<RawEntry> := [];
    NothingRead(limits, names);
    for i := 0 to |raws|
      invariant before <= raws && |before| == i
      invariant Holds(pass, before, limits, names)
    {
      r := ReadPhpEntry(pass, raws[i], limits, names, before);
      PrefixGrows(before, raws);
      before := before + [raws[i]];
      if r.Err? {
        PartCondemnsWhole(raws, before, limits, names);
        return;
      }
      pass := r.value;
    }
    PrefixComplete(before, raws);
    r := Ok(pass);
  }

  /** The PHP table of paths keeps only the kinds. */
  function Kinds(paths: map<string, Entry>): map<string, string> {
    map p | p in paths :: if paths[p].File? then "file" else "directory"
  }

  method CheckKinds(kinds: map<string, string>, entries: seq<Entry>, ghost paths: map<string, Entry>) returns (ok: bool)
    requires Indexes(paths, entries) && kinds == Kinds(paths)
    ensures ok <==> NoFileAboveAnother(entries)
  {
    for i := 0 to |entries|
      invariant forall a, j :: 0 <= a < |entries| && 0 <= j < i && Contains(entries[a], entries[j]) ==> entries[a].Directory?
    {
      var parts := Components(entries[i].path);
      for k := 1 to |parts|
        invariant forall n :: 1 <= n < k ==>
          !(Prefix(entries[i].path, n) in paths && paths[Prefix(entries[i].path, n)].File?)
      {
        var above := Join(parts[..k]);
        assert above == Prefix(entries[i].path, k);
        if above in kinds && kinds[above] == "file" {
          assert paths[above] in entries && Contains(paths[above], entries[i]);
          return false;
        }
      }
    }
    ok := true;
  }

  /** The PHP client's canonicalizer: again the same specification. */
  method PhpCanonical(input: Input, limits: Limits, names: Names) returns (r: Result<seq<Entry>, Refusal>)
    ensures r.Ok? <==> Acceptable(input, limits, names)
    ensures r.Ok? ==> r.value == Canonical(input, limits, names)
  {
    if !ValidLimits(limits) { return Err(InvalidRequest); }
    if input.NotManifest? || input.otherFields || input.schemaVersion != 1 { return Err(InvalidManifest); }
    if |input.entries| > limits.maxEntries { return Err(QuotaExceeded); }
    var read := ReadPhpEntries(input.entries, limits, names);
    if read.Err? { return Err(read.error); }
    var ok := CheckKinds(Kinds(read.value.paths), read.value.entries, read.value.paths);
    if !ok { return Err(InvalidManifest); }
    r := Ok(SortByPath(read.value.entries));
  }

  // ---------------------------------------------------------------- src/adapters/control/legacy-inventory.ts

  /** The first k entries, as the manifest the inventory asks about. */
  function Leading(raws: seq<RawEntry>, k: nat): Input
    requires k <= |raws|
  {
    Snapshot(1, raws[..k], false)
  }

  /** The least number of leading entries the canonicalizer refuses: acceptance fails there for good. */
  ghost predicate Threshold(raws: seq<RawEntry>, least: nat, limits: Limits, names: Names) {
    && 1 <= least <= |raws|
    && forall k :: 0 <= k <= |raws| ==> (Acceptable(Leading(raws, k), limits, names) <==> k < least)
  }

  lemma {:induction false} ThresholdExists(raws: seq<RawEntry>, high: nat, limits: Limits, names: Names) returns (least: nat)
    requires ValidLimits(limits) && high <= |raws| && !Acceptable(Leading(raws, high), limits, names)
    ensures Threshold(raws, least, limits, names)
    decreases high
  {
    if high == 0 {
      assert raws[..0] == [];
      EmptyAcceptable(limits, names);
      assert false;
    } else if Acceptable(Leading(raws, high - 1), limits, names) {
      least := high;
      forall k | 0 <= k <= |raws| ensures Acceptable(Leading(raws, k), limits, names) <==> k < least {
        if k < least { PrefixAcceptable(raws, k, least - 1, limits, names); }
        else if Acceptable(Leading(raws, k), limits, names) { PrefixAcceptable(raws, least, k, limits, names); }
      }
    } else {
      least := ThresholdExists(raws, high - 1, limits, names);
    }
  }

  /** The bisection of `inspect`. */
  method FirstOffending(raws: seq<RawEntry>, limits: Limits, names: Names) returns (least: nat)
    requires ValidLimits(limits) && !Acceptable(Leading(raws, |raws|), limits, names)
    ensures Threshold(raws, least, limits, names)
  {
    ghost var first := ThresholdExists(raws, |raws|, limits, names);
    var low, high := 1, |raws|;
    while low < high
      invariant 1 <= low <= first <= high <= |raws|
    {
      var middle := (low + high) / 2;
      var r := CanonicalizeManifest(Leading(raws, middle), limits, names);
      if r.Ok? { low := middle + 1; } else { high := middle; }
    }
    least := low;
  }

  lemma EmptyAcceptable(limits: Limits, names: Names)
    requires ValidLimits(limits)
    ensures Acceptable(Snapshot(1, [], false), limits, names)
  {
  }

  /** Validity is monotone over prefixes. */
  lemma PrefixAcceptable(raws: seq<RawEntry>, short: nat, long: nat, limits: Limits, names: Names)
    requires short <= long <= |raws| && Acceptable(Leading(raws, long), limits, names)
    ensures Acceptable(Leading(raws, short), limits, names)
  {
    assert raws[..long] == raws[..short] + raws[short..long];
    PartAcceptable(raws[..short], raws[..long], limits, names);
  }
}
