/**
 Upload receipts: the server's check that the selected receipts and the files of a manifest
 correspond one to one (src/application/submissions/selection.ts), and the compact form in
 which the TypeScript client keeps receipts (sdk/typescript/src/session.ts).
 */
module Receipts {
  import opened Canonicalizers
  import opened Lists
  import opened Manifests
  import opened Prelude

  datatype UploadReceipt = UploadReceipt(id: Option<string>, runId: string, submissionId: string, path: string,
                                         byteLength: int, sha256: string, completedAt: Option<string>)

  // ---------------------------------------------------------------- one receipt per file

  /** A selection as received; Malformed has missing, extra or ill-typed fields. */
  datatype Selection = Malformed | Selection(path: string, receiptId: string)

  /** What the control store returns for a receipt id in the scope of the submission. */
  type Lookup = string -> Option<UploadReceipt>

  /** The receipt records the file's content; scope and submission are part of the lookup. */
  predicate ReceiptMatches(receipt: UploadReceipt, file: Entry) {
    && file.File? && receipt.path == file.path && receipt.sha256 == file.sha256 && receipt.byteLength == file.byteLength
  }

  predicate Selects(selection: Selection, file: Entry, lookup: Lookup) {
    && selection.Selection? && selection.path == file.path
    && lookup(selection.receiptId).Some? && ReceiptMatches(lookup(selection.receiptId).value, file)
  }

  ghost predicate Chosen(files: seq<Entry>, selection: Selection, lookup: Lookup) {
    exists f :: 0 <= f < |files| && Selects(selection, files[f], lookup)
  }

  ghost predicate Covered(file: Entry, selections: seq<Selection>, lookup: Lookup) {
    exists s :: 0 <= s < |selections| && Selects(selections[s], file, lookup)
  }

  /** What the loop checks: every selection is for a file, and no two are for the same one. */
  ghost predicate Checked(files: seq<Entry>, selections: seq<Selection>, lookup: Lookup) {
    && (forall s :: 0 <= s < |selections| ==> Chosen(files, selections[s], lookup))
    && (forall s, t :: 0 <= s < t < |selections| ==> PathOfSelection(selections[s]) != PathOfSelection(selections[t]))
  }

  /** Exactly one selection for every file and nothing else. */
  ghost predicate Bijection(files: seq<Entry>, selections: seq<Selection>, lookup: Lookup) {
    && Checked(files, selections, lookup)
    && forall f :: 0 <= f < |files| ==> Covered(files[f], selections, lookup)
  }

  function PathOfSelection(selection: Selection): string { if selection.Selection? then selection.path else "" }

  lemma {:induction false} FilesOf(entries: seq<Entry>)
    ensures forall e :: e in Files(entries) <==> e in entries && e.File?
    ensures DistinctPaths(entries) ==> DistinctPaths(Files(entries))
  {
    if entries != [] {
      var rest := Files(entries[1..]);
      FilesOf(entries[1..]);
      if DistinctPaths(entries) && entries[0].File? {
        forall j | 0 <= j < |rest| ensures PathOf(entries[0]) != PathOf(rest[j]) {
          assert rest[j] in entries[1..];
          var k :| 0 <= k < |entries[1..]| && entries[1..][k] == rest[j];
          assert PathOf(entries[0]) != PathOf(entries[k + 1]);
        }
      }
    }
  }

  lemma {:induction false} SizeOfDistinct<T>(s: seq<T>, elements: set<T>)
    requires NoRepeats(s) && elements == set e | e in s
    ensures |elements| == |s|
  {
    if s != [] {
      var rest := set e | e in s[1..];
      assert s == [s[0]] + s[1..];
      SizeOfDistinct(s[1..], rest);
      assert elements == rest + {s[0]};
      assert s[0] !in rest;
    }
  }

  /** Two lists without repeats that hold the same elements are equally long. */
  lemma SameElementsSameLength<T>(a: seq<T>, b: seq<T>)
    requires NoRepeats(a) && NoRepeats(b) && forall e :: e in a <==> e in b
    ensures |a| == |b|
  {
    var elements := set e | e in a;
    assert elements == set e | e in b;
    SizeOfDistinct(a, elements);
    SizeOfDistinct(b, elements);
  }

  lemma ChosenPath(files: seq<Entry>, selection: Selection, lookup: Lookup)
    requires Chosen(files, selection, lookup)
    ensures PathOfSelection(selection) in Map(PathOf, files)
  {
    var f :| 0 <= f < |files| && Selects(selection, files[f], lookup);
    assert Map(PathOf, files)[f] == selection.path;
  }

  lemma ChosenFile(files: seq<Entry>, selection: Selection, lookup: Lookup, f: nat)
    requires DistinctPaths(files) && f < |files| && Chosen(files, selection, lookup)
    requires PathOfSelection(selection) == PathOf(files[f])
    ensures Selects(selection, files[f], lookup)
  {
    var g :| 0 <= g < |files| && Selects(selection, files[g], lookup);
    assert PathOf(files[g]) == PathOf(files[f]);
  }

  lemma ChosenPaths(files: seq<Entry>, selections: seq<Selection>, lookup: Lookup)
    requires Checked(files, selections, lookup)
    ensures NoRepeats(Map(PathOfSelection, selections))
    ensures forall e :: e in Map(PathOfSelection, selections) ==> e in Map(PathOf, files)
  {
    var chosen := Map(PathOfSelection, selections);
    forall e | e in chosen ensures e in Map(PathOf, files) {
      var s :| 0 <= s < |chosen| && chosen[s] == e;
      ChosenPath(files, selections[s], lookup);
    }
  }

  /** As many selections as files, each for a file of its own: then every file is selected. */
  lemma CheckedIsBijection(files: seq<Entry>, selections: seq<Selection>, lookup: Lookup)
    requires DistinctPaths(files) && |selections| == |files| && Checked(files, selections, lookup)
    ensures Bijection(files, selections, lookup)
  {
    var chosen, wanted := Map(PathOfSelection, selections), Map(PathOf, files);
    ChosenPaths(files, selections, lookup);
    SameLengthIncluded(chosen, wanted);
    forall f | 0 <= f < |files| ensures Covered(files[f], selections, lookup) {
      assert wanted[f] in multiset(wanted) && wanted[f] in multiset(chosen);
      var s :| 0 <= s < |chosen| && chosen[s] == wanted[f];
      ChosenFile(files, selections[s], lookup, f);
    }
  }

  /** And a bijection has as many selections as files. */
  lemma BijectionSameLength(files: seq<Entry>, selections: seq<Selection>, lookup: Lookup)
    requires DistinctPaths(files) && Bijection(files, selections, lookup)
    ensures |selections| == |files|
  {
    var chosen, wanted := Map(PathOfSelection, selections), Map(PathOf, files);
    ChosenPaths(files, selections, lookup);
    assert NoRepeats(wanted) by {
      forall i, j | 0 <= i < j < |wanted| ensures wanted[i] != wanted[j] { assert PathOf(files[i]) != PathOf(files[j]); }
    }
    forall e | e in wanted ensures e in chosen {
      var f :| 0 <= f < |wanted| && wanted[f] == e;
      assert Covered(files[f], selections, lookup);
      var s :| 0 <= s < |selections| && Selects(selections[s], files[f], lookup);
      assert chosen[s] == e;
    }
    SameElementsSameLength(chosen, wanted);
  }

  method FindFile(files: seq<Entry>, path: string) returns (file: Option<Entry>)
    requires DistinctPaths(files)
    ensures file.Some? ==> file.value in files && file.value.path == path
    ensures file.None? ==> forall f :: 0 <= f < |files| ==> files[f].path != path
  {
    for i := 0 to |files|
      invariant forall f :: 0 <= f < i ==> files[f].path != path
    {
      if files[i].path == path { return Some(files[i]); }
    }
    file := None;
  }

  /** One selection of the loop; the paths chosen before it are in `paths`. */
  method CheckSelection(files: seq<Entry>, selection: Selection, paths: set<string>, lookup: Lookup) returns (ok: bool)
    requires DistinctPaths(files)
    ensures ok <==> PathOfSelection(selection) !in paths && Chosen(files, selection, lookup)
  {
    if selection.Malformed? || selection.path in paths { return false; }
    var file := FindFile(files, selection.path);
    if file.None? { return false; }
    ghost var f :| 0 <= f < |files| && files[f] == file.value;
    var receipt := lookup(selection.receiptId);
    ok := receipt.Some? && ReceiptMatches(receipt.value, file.value);
    if Chosen(files, selection, lookup) { ChosenFile(files, selection, lookup, f); }
  }

  method CheckSelections(files: seq<Entry>, selections: seq<Selection>, lookup: Lookup) returns (ok: bool)
    requires DistinctPaths(files)
    ensures ok <==> Checked(files, selections, lookup)
  {
    var paths: set<string> := {};
    for i := 0 to |selections|
      invariant Checked(files, selections[..i], lookup)
      invariant forall p :: p in paths <==> exists s :: 0 <= s < i && PathOfSelection(selections[s]) == p
    {
      ok := CheckSelection(files, selections[i], paths, lookup);
      CheckedOneMore(files, selections, i, paths, lookup);
      if !ok { return; }
      paths := paths + {PathOfSelection(selections[i])};
    }
    assert selections[..|selections|] == selections;
    ok := true;
  }

  lemma CheckedOneMore(files: seq<Entry>, selections: seq<Selection>, i: nat, paths: set<string>, lookup: Lookup)
    requires i < |selections| && Checked(files, selections[..i], lookup)
    requires forall p :: p in paths <==> exists s :: 0 <= s < i && PathOfSelection(selections[s]) == p
    ensures (PathOfSelection(selections[i]) !in paths && Chosen(files, selections[i], lookup))
      <==> Checked(files, selections[..i + 1], lookup)
    ensures !Checked(files, selections[..i + 1], lookup) ==> !Checked(files, selections, lookup)
  {
    var next := selections[..i + 1];
    assert next[i] == selections[i];
    assert forall s :: 0 <= s < i ==> next[s] == selections[..i][s] == selections[s];
    if PathOfSelection(selections[i]) in paths {
      var s :| 0 <= s < i && PathOfSelection(selections[s]) == PathOfSelection(selections[i]);
      assert PathOfSelection(next[s]) == PathOfSelection(next[i]);
    }
  }

  /** Acceptance means a one-to-one correspondence between the manifest's files and matching receipts. */
  method ValidateReceiptSelection(input: Input, selections: seq<Selection>, limits: Limits, names: Names, lookup: Lookup)
    returns (r: Result<seq<Entry>, Refusal>)
    ensures r.Ok? <==> Acceptable(input, limits, names) && Bijection(Files(Canonical(input, limits, names)), selections, lookup)
    ensures r.Ok? ==> r.value == Canonical(input, limits, names)
    ensures r.Ok? ==> forall file :: file in r.value && file.File? ==> Received(file, selections, lookup)
  {
    r := CanonicalizeManifest(input, limits, names);
    if r.Err? { return; }
    var files := Files(r.value);
    FilesOf(r.value);
    CanonicalDistinct(input, limits, names);
    var ok := |selections| == |files|;
    if ok { ok := CheckSelections(files, selections, lookup); }
    if ok { CheckedIsBijection(files, selections, lookup); }
    if !ok {
      if Bijection(files, selections, lookup) { BijectionSameLength(files, selections, lookup); }
      return Err(InvalidManifest);
    }
    EveryFileReceived(r.value, selections, lookup);
  }

  /** A receipt was selected that records the file's own path, length and digest. */
  ghost predicate Received(file: Entry, selections: seq<Selection>, lookup: Lookup)
    requires file.File?
  {
    exists s :: 0 <= s < |selections| && selections[s].Selection? && lookup(selections[s].receiptId).Some?
      && var receipt := lookup(selections[s].receiptId).value;
         receipt.path == file.path && receipt.byteLength == file.byteLength && receipt.sha256 == file.sha256
  }

  lemma EveryFileReceived(entries: seq<Entry>, selections: seq<Selection>, lookup: Lookup)
    requires Bijection(Files(entries), selections, lookup)
    ensures forall file :: file in entries && file.File? ==> Received(file, selections, lookup)
  {
    FilesOf(entries);
    forall file | file in entries && file.File? ensures Received(file, selections, lookup) {
      var f :| 0 <= f < |Files(entries)| && Files(entries)[f] == file;
      assert Covered(file, selections, lookup);
    }
  }

  /** The selections fix the files: two manifests accepted with the same ones list the same paths, lengths and digests. */
  lemma SelectionsFixContent(files: seq<Entry>, others: seq<Entry>, selections: seq<Selection>, lookup: Lookup)
    requires Bijection(files, selections, lookup) && Bijection(others, selections, lookup)
    ensures forall file :: file in files <==> file in others
  {
    forall file | file in files ensures file in others { SelectedElsewhere(files, others, selections, lookup, file); }
    forall file | file in others ensures file in files { SelectedElsewhere(others, files, selections, lookup, file); }
  }

  lemma SelectedElsewhere(files: seq<Entry>, others: seq<Entry>, selections: seq<Selection>, lookup: Lookup, file: Entry)
    requires Bijection(files, selections, lookup) && Bijection(others, selections, lookup) && file in files
    ensures file in others
  {
    var f :| 0 <= f < |files| && files[f] == file;
    assert Covered(files[f], selections, lookup);
    var s :| 0 <= s < |selections| && Selects(selections[s], file, lookup);
    assert Chosen(others, selections[s], lookup);
    var g :| 0 <= g < |others| && Selects(selections[s], others[g], lookup);
    assert others[g] == file;
  }

  lemma CanonicalDistinct(input: Input, limits: Limits, names: Names)
    requires Acceptable(input, limits, names)
    ensures DistinctPaths(Canonical(input, limits, names))
  {
    SortPermutes(PathOf, ToEntries(input.entries));
    PartDistinct(Canonical(input, limits, names), ToEntries(input.entries));
  }

  // ---------------------------------------------------------------- compact receipts

  datatype CompactReceipt = CompactReceipt(entry: int, id: Option<string>, completedAt: Option<string>)

  /** The fields of the session the two conversions read. */
  datatype SessionData = SessionData(capture: Option<seq<Entry>>, run: Option<string>, submission: Option<string>)

  predicate Ready(data: SessionData) { data.capture.Some? && data.run.Some? && data.submission.Some? }

  predicate Describes(data: SessionData, receipt: UploadReceipt, k: int)
    requires Ready(data)
  {
    && 0 <= k < |data.capture.value| && data.capture.value[k].File?
    && receipt.path == data.capture.value[k].path
    && receipt.runId == data.run.value && receipt.submissionId == data.submission.value
    && receipt.sha256 == data.capture.value[k].sha256 && receipt.byteLength == data.capture.value[k].byteLength
    && receipt.id.Some? && receipt.id.value != "" && receipt.completedAt.Some?
  }

  ghost predicate Described(data: SessionData, receipt: UploadReceipt)
    requires Ready(data)
  {
    exists k :: Describes(data, receipt, k)
  }

  /** The receipt lists a session can hold: receipts of its capture, at most one a file. */
  ghost predicate Holdable(data: SessionData, receipts: seq<UploadReceipt>) {
    receipts != [] ==>
      && Ready(data)
      && (forall i :: 0 <= i < |receipts| ==> Described(data, receipts[i]))
      && (forall i, j :: 0 <= i < j < |receipts| ==> receipts[i].path != receipts[j].path)
  }

  /** The receipt a compact receipt stands for. */
  function Expand(data: SessionData, compact: CompactReceipt): UploadReceipt
    requires Ready(data) && 0 <= compact.entry < |data.capture.value| && data.capture.value[compact.entry].File?
  {
    var file := data.capture.value[compact.entry];
    UploadReceipt(compact.id, data.run.value, data.submission.value, file.path, file.byteLength, file.sha256, compact.completedAt)
  }

  predicate InCapture(data: SessionData, compact: CompactReceipt) {
    Ready(data) && 0 <= compact.entry < |data.capture.value| && data.capture.value[compact.entry].File?
  }

  /** Element by element, the receipts are the expansions of the compact receipts. */
  ghost predicate Expands(data: SessionData, compact: seq<CompactReceipt>, receipts: seq<UploadReceipt>) {
    && |compact| == |receipts|
    && forall i :: 0 <= i < |compact| ==> InCapture(data, compact[i]) && receipts[i] == Expand(data, compact[i])
  }

  ghost predicate Tabulates(paths: map<string, int>, entries: seq<Entry>) {
    && (forall k :: 0 <= k < |entries| ==> entries[k].path in paths && paths[entries[k].path] == k)
    && (forall p :: p in paths ==> 0 <= paths[p] < |entries| && entries[paths[p]].path == p)
  }

  /** The path table is built front to back, so a repeated path would keep its last place. */
  method IndexPaths(entries: seq<Entry>) returns (paths: map<string, int>)
    requires DistinctPaths(entries)
    ensures Tabulates(paths, entries)
  {
    paths := map[];
    for i := 0 to |entries|
      invariant forall k :: 0 <= k < i ==> entries[k].path in paths && paths[entries[k].path] == k
      invariant forall p :: p in paths ==> 0 <= paths[p] < i && entries[paths[p]].path == p
    {
      assert forall k :: 0 <= k < i ==> PathOf(entries[k]) != PathOf(entries[i]);
      paths := paths[entries[i].path := i];
    }
  }

  method SelectReceipts(data: SessionData, receipts: seq<UploadReceipt>) returns (r: Result<seq<CompactReceipt>, Refusal>)
    requires data.capture.Some? ==> DistinctPaths(data.capture.value)
    ensures r.Ok? <==> Holdable(data, receipts)
    ensures r.Ok? ==> Expands(data, r.value, receipts)
  {
    if receipts == [] { return Ok([]); }
    if data.capture.None? || data.run.None? || data.submission.None? { return Err(InvalidRequest); }
    var entries := data.capture.value;
    var paths := IndexPaths(entries);
    var seen: set<int> := {};
    var compact: seq<CompactReceipt> := [];
    for i := 0 to |receipts|
      invariant |compact| == i
      invariant forall j :: 0 <= j < i ==> Describes(data, receipts[j], compact[j].entry)
      invariant forall j :: 0 <= j < i ==> compact[j].id == receipts[j].id && compact[j].completedAt == receipts[j].completedAt
      invariant forall k :: k in seen <==> exists j :: 0 <= j < i && compact[j].entry == k
      invariant forall j, l :: 0 <= j < l < i ==> compact[j].entry != compact[l].entry
    {
      var receipt := receipts[i];
      if receipt.path !in paths || paths[receipt.path] in seen || !Describes(data, receipt, paths[receipt.path]) {
        NotHoldable(data, receipts, i, seen, paths);
        return Err(InvalidRequest);
      }
      var index := paths[receipt.path];
      seen := seen + {index};
      compact := compact + [CompactReceipt(index, receipt.id, receipt.completedAt)];
    }
    AllDescribed(data, receipts, compact);
    r := Ok(compact);
  }

  lemma AllDescribed(data: SessionData, receipts: seq<UploadReceipt>, compact: seq<CompactReceipt>)
    requires Ready(data) && DistinctPaths(data.capture.value) && |compact| == |receipts|
    requires forall j :: 0 <= j < |receipts| ==> Describes(data, receipts[j], compact[j].entry)
    requires forall j :: 0 <= j < |receipts| ==> compact[j].id == receipts[j].id && compact[j].completedAt == receipts[j].completedAt
    requires forall j, l :: 0 <= j < l < |receipts| ==> compact[j].entry != compact[l].entry
    ensures Holdable(data, receipts) && Expands(data, compact, receipts)
  {
    var entries := data.capture.value;
    forall i | 0 <= i < |receipts| ensures Described(data, receipts[i]) {
      assert Describes(data, receipts[i], compact[i].entry);
    }
    forall i, j | 0 <= i < j < |receipts| ensures receipts[i].path != receipts[j].path {
      var a, b := compact[i].entry, compact[j].entry;
      assert PathOf(entries[a]) == receipts[i].path && PathOf(entries[b]) == receipts[j].path;
      if a < b { assert PathOf(entries[a]) != PathOf(entries[b]); }
      else { assert PathOf(entries[b]) != PathOf(entries[a]); }
    }
  }

  /** The first receipt that fails the loop's test spoils the list. */
  lemma NotHoldable(data: SessionData, receipts: seq<UploadReceipt>, i: nat, seen: set<int>, paths: map<string, int>)
    requires i < |receipts| && Ready(data) && Tabulates(paths, data.capture.value)
    requires forall k :: k in seen ==> exists j :: 0 <= j < i && Describes(data, receipts[j], k)
    requires receipts[i].path !in paths || paths[receipts[i].path] in seen || !Describes(data, receipts[i], paths[receipts[i].path])
    ensures !Holdable(data, receipts)
  {
    var path := receipts[i].path;
    if path in paths && paths[path] in seen {
      var j :| 0 <= j < i && Describes(data, receipts[j], paths[path]);
      assert receipts[j].path == receipts[i].path;
    } else {
      forall k ensures !Describes(data, receipts[i], k) {
        if 0 <= k < |data.capture.value| && data.capture.value[k].path == path { assert paths[path] == k; }
      }
      assert !Described(data, receipts[i]);
    }
  }

  /** What a compact list must be for `restoreReceipts` to accept it. */
  ghost predicate Restorable(data: SessionData, compact: seq<CompactReceipt>) {
    compact != [] ==>
      && (forall i :: 0 <= i < |compact| ==> InCapture(data, compact[i]))
      && (forall i :: 0 <= i < |compact| ==> compact[i].id.Some? && compact[i].id.value != "" && compact[i].completedAt.Some?)
      && (forall i, j :: 0 <= i < j < |compact| ==> compact[i].entry != compact[j].entry)
  }

  method RestoreReceipts(data: SessionData, compact: seq<CompactReceipt>) returns (r: Result<seq<UploadReceipt>, Refusal>)
    requires data.capture.Some? ==> DistinctPaths(data.capture.value)
    ensures r.Ok? <==> Restorable(data, compact)
    ensures r.Ok? ==> Expands(data, compact, r.value) && Holdable(data, r.value)
  {
    if compact == [] { return Ok([]); }
    if data.capture.None? || data.run.None? || data.submission.None? {
      assert !InCapture(data, compact[0]);
      return Err(InvalidRequest);
    }
    var receipts: seq<UploadReceipt> := [];
    for i := 0 to |compact|
      invariant |receipts| == i
      invariant forall j :: 0 <= j < i ==> InCapture(data, compact[j]) && receipts[j] == Expand(data, compact[j])
    {
      if !InCapture(data, compact[i]) { return Err(InvalidRequest); }
      receipts := receipts + [Expand(data, compact[i])];
    }
    RestorableIsHoldable(data, compact, receipts);
    var check := SelectReceipts(data, receipts);
    r := if check.Ok? then Ok(receipts) else Err(check.error);
  }

  lemma RestorableIsHoldable(data: SessionData, compact: seq<CompactReceipt>, receipts: seq<UploadReceipt>)
    requires compact != [] && Ready(data) && DistinctPaths(data.capture.value) && Expands(data, compact, receipts)
    ensures Restorable(data, compact) <==> Holdable(data, receipts)
  {
    if Restorable(data, compact) {
      forall i | 0 <= i < |receipts| ensures Describes(data, receipts[i], compact[i].entry) {
        assert InCapture(data, compact[i]);
      }
      AllDescribed(data, receipts, compact);
    }
    if Holdable(data, receipts) { HoldableRestorable(data, compact, receipts); }
  }

  lemma HoldableRestorable(data: SessionData, compact: seq<CompactReceipt>, receipts: seq<UploadReceipt>)
    requires Expands(data, compact, receipts) && Holdable(data, receipts)
    ensures Restorable(data, compact)
  {
    forall i | 0 <= i < |compact| ensures compact[i].id.Some? && compact[i].id.value != "" && compact[i].completedAt.Some? {
      assert Described(data, receipts[i]);
      assert receipts[i] == Expand(data, compact[i]);
    }
    forall i, j | 0 <= i < j < |compact| ensures compact[i].entry != compact[j].entry {
      assert receipts[i].path != receipts[j].path;
      assert receipts[i] == Expand(data, compact[i]) && receipts[j] == Expand(data, compact[j]);
    }
  }

  /** Each form determines the other, so selecting and restoring are mutually inverse. */
  lemma ExpandsDetermines(data: SessionData, a: seq<CompactReceipt>, b: seq<CompactReceipt>, x: seq<UploadReceipt>, y: seq<UploadReceipt>)
    requires data.capture.Some? ==> DistinctPaths(data.capture.value)
    requires Expands(data, a, x) && Expands(data, b, y)
    ensures a == b <==> x == y
  {
    if x == y {
      forall i | 0 <= i < |a| ensures a[i] == b[i] {
        assert x[i] == y[i];
        var entries := data.capture.value;
        assert PathOf(entries[a[i].entry]) == PathOf(entries[b[i].entry]);
      }
    }
  }

  /** Storing receipts and reading them back loses nothing, whatever the session holds. */
  method KeepReceipts(data: SessionData, receipts: seq<UploadReceipt>) returns (r: Result<seq<UploadReceipt>, Refusal>)
    requires data.capture.Some? ==> DistinctPaths(data.capture.value)
    ensures r.Ok? <==> Holdable(data, receipts)
    ensures r.Ok? ==> r.value == receipts
  {
    var compact := SelectReceipts(data, receipts);
    if compact.Err? { return Err(compact.error); }
    HoldableRestorable(data, compact.value, receipts);
    r := RestoreReceipts(data, compact.value);
    ExpandsDetermines(data, compact.value, compact.value, receipts, r.value);
  }

  /** And the other way round: a compact list that loads is written back unchanged. */
  method RewriteReceipts(data: SessionData, compact: seq<CompactReceipt>) returns (r: Result<seq<CompactReceipt>, Refusal>)
    requires data.capture.Some? ==> DistinctPaths(data.capture.value)
    ensures r.Ok? <==> Restorable(data, compact)
    ensures r.Ok? ==> r.value == compact
  {
    var receipts := RestoreReceipts(data, compact);
    if receipts.Err? { return Err(receipts.error); }
    r := SelectReceipts(data, receipts.value);
    ExpandsDetermines(data, r.value, compact, receipts.value, receipts.value);
  }
}
