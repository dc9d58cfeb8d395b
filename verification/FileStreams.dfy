/**
 Verified file streams (`verifyFileStream` in src/domain/manifest.ts): what a consumer has been given
 at any moment, and what a stream that ends without an error has proved.
 */
module FileStreams {
  import opened Canonicalizers
  import opened Lists
  import opened Manifests
  import opened Prelude

  type Bytes = seq<nat>

  datatype Failure = Refused(refusal: Refusal) | ReceiptMismatch

  function Concat(chunks: seq<Bytes>): Bytes {
    if chunks == [] then [] else Concat(chunks[..|chunks| - 1]) + chunks[|chunks| - 1]
  }

  /** A chunk that is no byte array carries nothing. */
  function Content(source: seq<Option<Bytes>>): Bytes {
    Concat(Map((chunk: Option<Bytes>) => chunk.GetOr([]), source))
  }

  predicate AllBytes(source: seq<Option<Bytes>>) { forall i :: 0 <= i < |source| ==> source[i].Some? }

  /** No piece is empty or longer than a chunk may be. */
  predicate Pieces(yielded: seq<Bytes>, maxChunkBytes: int) {
    forall i :: 0 <= i < |yielded| ==> 0 < |yielded[i]| <= maxChunkBytes
  }

  lemma ContentOneMore(source: seq<Option<Bytes>>, i: nat)
    requires i < |source|
    ensures Content(source[..i + 1]) == Content(source[..i]) + source[i].GetOr([])
  {
    var bytesOf := (chunk: Option<Bytes>) => chunk.GetOr([]);
    assert Map(bytesOf, source[..i + 1])[..i] == Map(bytesOf, source[..i]);
  }

  lemma {:induction false} ContentPrefix(source: seq<Option<Bytes>>, i: nat)
    requires i <= |source|
    ensures Content(source[..i]) <= Content(source)
    decreases |source| - i
  {
    if i == |source| {
      assert source[..i] == source;
    } else {
      ContentOneMore(source, i);
      ContentPrefix(source, i + 1);
    }
  }

  /** One chunk handed on in pieces. */
  method Hand(yielded: seq<Bytes>, chunk: Bytes, maxChunkBytes: int) returns (after: seq<Bytes>)
    requires maxChunkBytes > 0 && Pieces(yielded, maxChunkBytes)
    ensures Concat(after) == Concat(yielded) + chunk && Pieces(after, maxChunkBytes)
  {
    after := yielded;
    var offset := 0;
    while offset < |chunk|
      invariant 0 <= offset && Pieces(after, maxChunkBytes)
      invariant Concat(after) == Concat(yielded) + chunk[..if offset < |chunk| then offset else |chunk|]
    {
      var end := if offset + maxChunkBytes < |chunk| then offset + maxChunkBytes else |chunk|;
      assert chunk[..offset] + chunk[offset..end] == chunk[..end];
      var more := after + [chunk[offset..end]];
      assert more[..|after|] == after;
      after := more;
      offset := offset + maxChunkBytes;
    }
    assert chunk[..|chunk|] == chunk;
  }

  /** The loop over the source, which stops at the first chunk that is no bytes or too many. */
  method HandAll(source: seq<Option<Bytes>>, byteLength: int, maxChunkBytes: int) returns (yielded: seq<Bytes>, ok: bool)
    requires maxChunkBytes > 0 && byteLength >= 0
    ensures Concat(yielded) <= Content(source) && Pieces(yielded, maxChunkBytes) && |Concat(yielded)| <= byteLength
    ensures ok <==> AllBytes(source) && |Content(source)| <= byteLength
    ensures ok ==> Concat(yielded) == Content(source)
  {
    yielded := [];
    var length := 0;
    for i := 0 to |source|
      invariant Concat(yielded) == Content(source[..i]) && Pieces(yielded, maxChunkBytes)
      invariant length == |Content(source[..i])| <= byteLength
      invariant forall k :: 0 <= k < i ==> source[k].Some?
    {
      ContentPrefix(source, i);
      ContentOneMore(source, i);
      if source[i].None? { return yielded, false; }
      length := length + |source[i].value|;
      if length > byteLength {
        ContentPrefix(source, i + 1);
        return yielded, false;
      }
      yielded := Hand(yielded, source[i].value, maxChunkBytes);
    }
    assert source[..|source|] == source;
    ok := true;
  }

  /**
   Nothing beyond the declared length is ever handed out, and whatever is handed out comes in order
   from the source. The stream ends without an error exactly when the source is the declared file.
   */
  method VerifyFileStream(entry: RawEntry, source: seq<Option<Bytes>>, limits: Limits, maxChunkBytes: int, names: Names,
                          digest: Bytes -> string)
    returns (yielded: seq<Bytes>, r: Result<(), Failure>)
    requires entry.Raw? && entry.kind == Some("file") && entry.byteLength.Some? && entry.sha256.Some?
    ensures Concat(yielded) <= Content(source) && Pieces(yielded, maxChunkBytes)
    ensures yielded != [] ==> |Concat(yielded)| <= entry.byteLength.value
    ensures r.Ok? <==>
      && ValidLimit(maxChunkBytes) && Acceptable(Snapshot(1, [entry], false), limits, names) && AllBytes(source)
      && |Content(source)| == entry.byteLength.value && digest(Content(source)) == entry.sha256.value
    ensures r.Ok? ==> Concat(yielded) == Content(source)
  {
    yielded := [];
    if !ValidLimit(maxChunkBytes) { return yielded, Err(Refused(InvalidRequest)); }
    var accepted := CanonicalizeManifest(Snapshot(1, [entry], false), limits, names);
    if accepted.Err? { return yielded, Err(Refused(accepted.error)); }
    Accepted(entry, limits, names);
    var ok: bool;
    yielded, ok := HandAll(source, entry.byteLength.value, maxChunkBytes);
    var content := Concat(yielded);
    r := if ok && |content| == entry.byteLength.value && digest(content) == entry.sha256.value then Ok(()) else Err(ReceiptMismatch);
  }

  lemma Accepted(entry: RawEntry, limits: Limits, names: Names)
    requires Acceptable(Snapshot(1, [entry], false), limits, names)
    requires entry.Raw? && entry.kind == Some("file") && entry.byteLength.Some?
    ensures entry.byteLength.value >= 0
  {
    assert [entry][0] == entry;
    assert WellFormed([entry][0], limits, names);
  }
}
