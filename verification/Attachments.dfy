/** Attachment layout and complete verification from a store:
    `crates/ucr-protocol/src/attachment.rs` and `crates/ucr-api-grpc/src/attachment_service.rs`.
    The digest is a parameter; hashing piece by piece is hashing the pieces put together. */
module Attachments {
  import opened Base

  type Hash = Bytes
  type Digest = Bytes -> Hash

  const MAX_CHUNK_BYTES := 1_048_576
  const MAX_CHUNKS := 65_536
  const MAX_BYTES := 68_719_476_736
  const MAX_MEDIA_TYPE_BYTES := 255
  const MAX_FILE_NAME_BYTES := 1_024

  datatype Descriptor = Descriptor(
    id: string, scope: Scope, content: Hash, size: u64, chunkSize: u32, chunkCount: u32,
    mediaType: Option<Bytes>, fileName: Option<Bytes>)

  datatype Chunk = Chunk(id: string, index: u32, offset: u64, bytes: Bytes, hash: Hash)

  datatype AttachmentError =
    | AttachmentTooLarge | InvalidChunkSize | InvalidChunkCount | InvalidMediaType | InvalidFileName
    | WrongAttachment | InvalidChunkIndex | InvalidChunkOffset | InvalidChunkLength
    | ChunkIntegrityMismatch | MissingOrDuplicateChunk | ContentIntegrityMismatch

  datatype StoreError =
    | InvalidRecord | StoreConflict | Full | Corrupt | Unavailable | Denied | UnsupportedSchema | ForeignStore | Broken

  /** The codes a caller of the service sees. */
  datatype Code =
    | InvalidArgument | NotFound | Conflict | IntegrityFailure | ResourceExhausted | TemporarilyUnavailable
    | PermissionDenied | Internal

  function FromAttachmentError(e: AttachmentError): Code {
    match e
    case ChunkIntegrityMismatch => IntegrityFailure
    case ContentIntegrityMismatch => IntegrityFailure
    case MissingOrDuplicateChunk => Conflict
    case _ => InvalidArgument
  }

  function FromStoreError(e: StoreError): Code {
    match e
    case InvalidRecord => InvalidArgument
    case StoreConflict => Conflict
    case Full => ResourceExhausted
    case Unavailable => TemporarilyUnavailable
    case Denied => PermissionDenied
    case Corrupt => IntegrityFailure
    case _ => Internal
  }

  // ---- layout ---------------------------------------------------------------------------------------

  function DivCeil(a: nat, b: nat): nat
    requires b > 0
  {
    a / b + if a % b == 0 then 0 else 1
  }

  function TextError(text: Option<Bytes>, max: nat, e: AttachmentError): Result<(), AttachmentError> {
    if text.Some? && (text.value == [] || |text.value| > max) then Err(e) else Ok(())
  }

  function ValidateDescriptor(d: Descriptor): Result<(), AttachmentError> {
    if d.size > MAX_BYTES then Err(AttachmentTooLarge)
    else if d.chunkSize == 0 || d.chunkSize > MAX_CHUNK_BYTES then Err(InvalidChunkSize)
    else
      var expected := if d.size == 0 then 0 else DivCeil(d.size, d.chunkSize);
      if expected > MAX_CHUNKS || d.chunkCount != expected then Err(InvalidChunkCount)
      else
        var _ :- TextError(d.mediaType, MAX_MEDIA_TYPE_BYTES, InvalidMediaType);
        TextError(d.fileName, MAX_FILE_NAME_BYTES, InvalidFileName)
  }

  function Min(a: int, b: int): int { if a <= b then a else b }

  function VerifyChunk(h: Digest, d: Descriptor, c: Chunk): Result<(), AttachmentError> {
    var _ :- ValidateDescriptor(d);
    if c.id != d.id then Err(WrongAttachment)
    else if c.index >= d.chunkCount then Err(InvalidChunkIndex)
    else
      var offset := c.index * d.chunkSize;
      if c.offset != offset || d.size < offset then Err(InvalidChunkOffset)
      else if |c.bytes| != Min(d.size - offset, d.chunkSize) then Err(InvalidChunkLength)
      else if h(c.bytes) != c.hash then Err(ChunkIntegrityMismatch)
      else Ok(())
  }

  /** The chunk count is the unique number of chunks whose starts lie inside the content. */
  lemma CountCoversSize(size: nat, chunkSize: nat, count: nat)
    requires size > 0 && chunkSize > 0
    ensures count == DivCeil(size, chunkSize) <==> count > 0 && (count - 1) * chunkSize < size <= count * chunkSize
  {
    var q, m := size / chunkSize, size % chunkSize;
    assert size == q * chunkSize + m;
    if count > 0 && (count - 1) * chunkSize < size <= count * chunkSize {
      if count < DivCeil(size, chunkSize) { Scale(count, DivCeil(size, chunkSize) - 1, chunkSize); }
      if count > DivCeil(size, chunkSize) { Scale(DivCeil(size, chunkSize), count - 1, chunkSize); }
    }
    assert (q + 1) * chunkSize == q * chunkSize + chunkSize;
    assert q > 0 ==> (q - 1) * chunkSize == q * chunkSize - chunkSize;
  }

  lemma Scale(a: nat, b: nat, c: nat)
    requires a <= b
    ensures a * c <= b * c
  {
  }

  /** Where chunk `i` begins and ends. */
  lemma ChunkInside(d: Descriptor, i: nat)
    requires ValidateDescriptor(d).Ok? && i < d.chunkCount
    ensures i * d.chunkSize < d.size
    ensures i * d.chunkSize + Min(d.size - i * d.chunkSize, d.chunkSize) == Min(d.size, (i + 1) * d.chunkSize)
    ensures i + 1 == d.chunkCount <==> d.size <= (i + 1) * d.chunkSize
  {
    CountCoversSize(d.size, d.chunkSize, d.chunkCount);
    Scale(i, d.chunkCount - 1, d.chunkSize);
    assert (i + 1) * d.chunkSize == i * d.chunkSize + d.chunkSize;
    if i + 1 < d.chunkCount { Scale(i + 1, d.chunkCount - 1, d.chunkSize); }
  }

  /** How many chunks a size needs: none for nothing, else so many that only the last one may be short. */
  ghost predicate CountFits(size: nat, chunkSize: nat, count: nat) {
    if size == 0 then count == 0 else count > 0 && (count - 1) * chunkSize < size <= count * chunkSize
  }

  ghost predicate TextFits(text: Option<Bytes>, max: nat) { text.Some? ==> 1 <= |text.value| <= max }

  /** What makes a descriptor acceptable. */
  ghost predicate WellShaped(d: Descriptor) {
    && d.size <= 68_719_476_736 && 1 <= d.chunkSize <= 1_048_576
    && d.chunkCount <= 65_536 && CountFits(d.size, d.chunkSize, d.chunkCount)
    && TextFits(d.mediaType, 255) && TextFits(d.fileName, 1_024)
  }

  /** A chunk of this attachment, at the place of its index, with all the bytes that belong there. */
  ghost predicate InPlace(d: Descriptor, c: Chunk) {
    && c.id == d.id && c.index < d.chunkCount && c.offset == c.index * d.chunkSize <= d.size
    && |c.bytes| <= d.chunkSize && c.offset + |c.bytes| <= d.size
    && (|c.bytes| == d.chunkSize || c.offset + |c.bytes| == d.size)
  }

  /** A descriptor is accepted exactly when it is well shaped; otherwise the first condition it fails is named. */
  lemma DescriptorVerdict(d: Descriptor)
    ensures ValidateDescriptor(d).Ok? <==> WellShaped(d)
    ensures ValidateDescriptor(d).Err? ==>
      ValidateDescriptor(d).error ==
      if d.size > 68_719_476_736 then AttachmentTooLarge
      else if !(1 <= d.chunkSize <= 1_048_576) then InvalidChunkSize
      else if !(d.chunkCount <= 65_536 && CountFits(d.size, d.chunkSize, d.chunkCount)) then InvalidChunkCount
      else if !TextFits(d.mediaType, 255) then InvalidMediaType
      else InvalidFileName
  {
    if d.size > 0 && d.chunkSize > 0 { CountCoversSize(d.size, d.chunkSize, d.chunkCount); }
    hide DivCeil;
  }

  /** A chunk is accepted exactly when the descriptor is well shaped, the chunk is in its place and its bytes have
      its digest. */
  lemma ChunkVerdict(h: Digest, d: Descriptor, c: Chunk)
    ensures VerifyChunk(h, d, c).Ok? <==> WellShaped(d) && InPlace(d, c) && h(c.bytes) == c.hash
    ensures VerifyChunk(h, d, c) == Err(ChunkIntegrityMismatch) <==> WellShaped(d) && InPlace(d, c) && h(c.bytes) != c.hash
    ensures VerifyChunk(h, d, c).Err? && VerifyChunk(h, d, c).error != ChunkIntegrityMismatch ==>
      VerifyChunk(h, d, c).error ==
      if !WellShaped(d) then ValidateDescriptor(d).error
      else if c.id != d.id then WrongAttachment
      else if c.index >= d.chunkCount then InvalidChunkIndex
      else if c.offset != c.index * d.chunkSize then InvalidChunkOffset
      else InvalidChunkLength
  {
    DescriptorVerdict(d);
    if WellShaped(d) && c.index < d.chunkCount { ChunkInside(d, c.index); }
    hide ValidateDescriptor, WellShaped;
  }

  /** Damage is told apart from what is missing and from what was never valid. */
  lemma CodesAre(e: AttachmentError, f: StoreError)
    ensures FromAttachmentError(e) == IntegrityFailure <==> e == ChunkIntegrityMismatch || e == ContentIntegrityMismatch
    ensures FromAttachmentError(e) == Conflict <==> e == MissingOrDuplicateChunk
    ensures FromAttachmentError(e) in {IntegrityFailure, Conflict, InvalidArgument}
    ensures FromStoreError(f) == IntegrityFailure <==> f == Corrupt
    ensures FromStoreError(f) == Conflict <==> f == StoreConflict
    ensures FromStoreError(f) == InvalidArgument <==> f == InvalidRecord
    ensures FromStoreError(f) == ResourceExhausted <==> f == Full
    ensures FromStoreError(f) == TemporarilyUnavailable <==> f == Unavailable
    ensures FromStoreError(f) == PermissionDenied <==> f == Denied
    ensures FromStoreError(f) != NotFound
  {
  }

  // ---- complete verification ------------------------------------------------------------------------

  /** What the store answers for each chunk index: any contents, any failure pattern. */
  type Reader = nat -> Result<Option<Chunk>, StoreError>

  /** The lazy chunk iterator: one store read per pull, nothing after the end or a failure. */
  class ChunkSource {
    const read: Reader
    const count: u32
    var nextIndex: u32
    var storeError: Option<StoreError>
    ghost var fed: seq<Chunk>

    constructor (read: Reader, count: u32)
      ensures this.read == read && this.count == count
      ensures nextIndex == 0 && storeError == None && fed == []
    {
      this.read, this.count, nextIndex, storeError, fed := read, count, 0, None, [];
    }

    method Next() returns (m: Option<Chunk>)
      modifies this
      ensures old(nextIndex >= count || storeError.Some?) ==>
        m == None && nextIndex == old(nextIndex) && storeError == old(storeError) && fed == old(fed)
      ensures old(nextIndex < count && storeError.None?) ==>
        match read(old(nextIndex))
        case Ok(Some(c)) =>
          m == Some(c) && nextIndex == old(nextIndex) + 1 && storeError == None && fed == old(fed) + [c]
        case Ok(None) => m == None && nextIndex == old(nextIndex) && storeError == None && fed == old(fed)
        case Err(e) => m == None && nextIndex == old(nextIndex) && storeError == Some(e) && fed == old(fed)
    {
      if nextIndex >= count || storeError.Some? { return None; }
      var answer := read(nextIndex);
      match answer {
        case Ok(chunk) =>
          if chunk.None? { return None; }
          nextIndex := nextIndex + 1;
          fed := fed + [chunk.value];
          return chunk;
        case Err(e) =>
          storeError := Some(e);
          return None;
      }
    }
  }

  /** Index `i` yields a chunk that belongs exactly there. */
  predicate Good(h: Digest, d: Descriptor, read: Reader, i: nat) {
    && read(i).Ok? && read(i).value.Some?
    && read(i).value.value.index == i && VerifyChunk(h, d, read(i).value.value).Ok?
  }

  function ChunkAt(h: Digest, d: Descriptor, read: Reader, i: nat): Chunk
    requires Good(h, d, read, i)
  {
    read(i).value.value
  }

  ghost predicate GoodUpTo(h: Digest, d: Descriptor, read: Reader, k: nat) {
    forall i :: 0 <= i < k ==> Good(h, d, read, i)
  }

  /** The chunks at the first `k` indexes, in order. */
  ghost function Chunks(h: Digest, d: Descriptor, read: Reader, k: nat): (r: seq<Chunk>)
    requires GoodUpTo(h, d, read, k)
    ensures |r| == k && forall i :: 0 <= i < k ==> r[i] == ChunkAt(h, d, read, i)
  {
    if k == 0 then [] else Chunks(h, d, read, k - 1) + [ChunkAt(h, d, read, k - 1)]
  }

  /** The bytes of those chunks, put together. */
  ghost function Content(h: Digest, d: Descriptor, read: Reader, k: nat): Bytes
    requires GoodUpTo(h, d, read, k)
  {
    if k == 0 then [] else Content(h, d, read, k - 1) + ChunkAt(h, d, read, k - 1).bytes
  }

  /** The store failed at `k`. */
  predicate FailsAt(d: Descriptor, read: Reader, k: nat) { k < d.chunkCount && read(k).Err? }

  /** The verifier's own verdict on a scan that stops at `k`, when the store did not fail there. */
  ghost function Judged(h: Digest, d: Descriptor, read: Reader, k: nat): Result<(), AttachmentError>
    requires GoodUpTo(h, d, read, k) && !FailsAt(d, read, k)
  {
    if k >= d.chunkCount then
      if h(Content(h, d, read, k)) == d.content then Ok(()) else Err(ContentIntegrityMismatch)
    else
      match read(k).value
      case None => Err(MissingOrDuplicateChunk)
      case Some(c) => if c.index != k then Err(MissingOrDuplicateChunk) else VerifyChunk(h, d, c)
  }

  /** What becomes of the scan once every index below `k` was good and `k` is not. */
  ghost function Stop(h: Digest, d: Descriptor, read: Reader, k: nat): Result<(), Code>
    requires GoodUpTo(h, d, read, k)
  {
    if FailsAt(d, read, k) then Err(FromStoreError(read(k).error))
    else match Judged(h, d, read, k) case Ok(_) => Ok(()) case Err(e) => Err(FromAttachmentError(e))
  }

  /** The chunks pulled by a scan that stops at `k`: those before it, and the one at `k` if there is one. */
  ghost function Pulled(h: Digest, d: Descriptor, read: Reader, k: nat): seq<Chunk>
    requires GoodUpTo(h, d, read, k)
  {
    Chunks(h, d, read, k) +
    if k < d.chunkCount && read(k).Ok? && read(k).value.Some? then [read(k).value.value] else []
  }

  /** The verifier, pulling chunk after chunk. `k` is where it stopped. */
  method VerifyCompleteAttachment(h: Digest, d: Descriptor, source: ChunkSource)
    returns (r: Result<(), AttachmentError>, ghost k: nat)
    requires ValidateDescriptor(d).Ok? && source.count == d.chunkCount
    requires source.nextIndex == 0 && source.storeError == None && source.fed == []
    modifies source
    ensures k <= d.chunkCount && GoodUpTo(h, d, source.read, k)
    ensures k < d.chunkCount ==> !Good(h, d, source.read, k)
    ensures source.fed == Pulled(h, d, source.read, k)
    ensures source.storeError == if FailsAt(d, source.read, k) then Some(source.read(k).error) else None
    ensures !FailsAt(d, source.read, k) ==> r == Judged(h, d, source.read, k)
  {
    hide VerifyChunk, ValidateDescriptor;
    var hashed: Bytes := [];
    var expectedIndex: u32 := 0;
    var chunk := source.Next();
    while chunk.Some?
      invariant expectedIndex <= d.chunkCount && source.storeError == Step(source.read, d, expectedIndex).0
      invariant GoodUpTo(h, d, source.read, expectedIndex)
      invariant chunk == Step(source.read, d, expectedIndex).1
      invariant source.nextIndex == expectedIndex + if chunk.Some? then 1 else 0
      invariant source.fed == Pulled(h, d, source.read, expectedIndex)
      invariant hashed == Content(h, d, source.read, expectedIndex)
      decreases d.chunkCount - expectedIndex
    {
      k := expectedIndex;
      if expectedIndex >= d.chunkCount || chunk.value.index != expectedIndex {
        return Err(MissingOrDuplicateChunk), k;
      }
      var verdict := VerifyChunk(h, d, chunk.value);
      if verdict.Err? { return verdict, k; }
      hashed := hashed + chunk.value.bytes;
      expectedIndex := expectedIndex + 1;
      chunk := source.Next();
    }
    k := expectedIndex;
    if expectedIndex != d.chunkCount { return Err(MissingOrDuplicateChunk), k; }
    r := if h(hashed) != d.content then Err(ContentIntegrityMismatch) else Ok(());
  }

  /** What one pull at index `i` gives: a store failure, a chunk, or neither. */
  ghost function Step(read: Reader, d: Descriptor, i: nat): (Option<StoreError>, Option<Chunk>) {
    if i >= d.chunkCount then (None, None)
    else match read(i) case Err(e) => (Some(e), None) case Ok(c) => (None, c)
  }

  /** `verify_complete_from_store`, for every store content and failure pattern. */
  method VerifyCompleteFromStore(h: Digest, lookup: Result<Option<Descriptor>, StoreError>, read: Reader)
    returns (r: Result<(), Code>, ghost k: nat)
    ensures lookup.Err? ==> r == Err(FromStoreError(lookup.error))
    ensures lookup == Ok(None) ==> r == Err(NotFound)
    ensures lookup.Ok? && lookup.value.Some? && ValidateDescriptor(lookup.value.value).Err? ==>
      r == Err(FromAttachmentError(ValidateDescriptor(lookup.value.value).error))
    ensures lookup.Ok? && lookup.value.Some? && ValidateDescriptor(lookup.value.value).Ok? ==>
      var d := lookup.value.value;
      && k <= d.chunkCount && GoodUpTo(h, d, read, k) && (k < d.chunkCount ==> !Good(h, d, read, k))
      && r == Stop(h, d, read, k)
  {
    k := 0;
    if lookup.Err? { return Err(FromStoreError(lookup.error)), k; }
    if lookup.value.None? { return Err(NotFound), k; }
    var d := lookup.value.value;
    var shape := ValidateDescriptor(d);
    if shape.Err? { return Err(FromAttachmentError(shape.error)), k; }
    var source := new ChunkSource(read, d.chunkCount);
    var verification;
    verification, k := VerifyCompleteAttachment(h, d, source);
    if source.storeError.Some? { return Err(FromStoreError(source.storeError.value)), k; }
    match verification {
      case Ok(_) => return Ok(()), k;
      case Err(e) => return Err(FromAttachmentError(e)), k;
    }
  }

  /** Success means exactly: every chunk is present and in its place, and together they have the recorded
      digest. */
  lemma SuccessExactlyWhenComplete(h: Digest, d: Descriptor, read: Reader, k: nat)
    requires k <= d.chunkCount && GoodUpTo(h, d, read, k) && (k < d.chunkCount ==> !Good(h, d, read, k))
    ensures Stop(h, d, read, k).Ok? <==>
      GoodUpTo(h, d, read, d.chunkCount) && h(Content(h, d, read, d.chunkCount)) == d.content
    ensures k < d.chunkCount && read(k).Err? ==> Stop(h, d, read, k) == Err(FromStoreError(read(k).error))
  {
  }

  /** Good chunks tile the content: each one's bytes stand at its own offset, and together they are exactly
      as long as the descriptor says. */
  lemma {:induction false} ChunksTileContent(h: Digest, d: Descriptor, read: Reader, k: nat, i: nat)
    requires ValidateDescriptor(d).Ok? && k <= d.chunkCount && GoodUpTo(h, d, read, k) && i < k
    ensures |Content(h, d, read, k)| == Min(d.size, k * d.chunkSize)
    ensures var c := ChunkAt(h, d, read, i);
      && c.offset + |c.bytes| <= |Content(h, d, read, k)|
      && Content(h, d, read, k)[c.offset..c.offset + |c.bytes|] == c.bytes
    decreases k
  {
    hide ValidateDescriptor, VerifyChunk, Good;
    var last, c := ChunkAt(h, d, read, k - 1), ChunkAt(h, d, read, i);
    ContentLength(h, d, read, k);
    var before := Content(h, d, read, k - 1);
    if i < k - 1 {
      ChunksTileContent(h, d, read, k - 1, i);
      assert (before + last.bytes)[c.offset..c.offset + |c.bytes|] == before[c.offset..c.offset + |c.bytes|];
    } else {
      ContentLength(h, d, read, k - 1);
      ChunkInside(d, k - 1);
      ChunkShape(h, d, read, k - 1);
      assert (before + last.bytes)[|before|..|before| + |last.bytes|] == last.bytes;
    }
  }

  lemma ChunkShape(h: Digest, d: Descriptor, read: Reader, i: nat)
    requires Good(h, d, read, i)
    ensures var c := ChunkAt(h, d, read, i);
      c.offset == i * d.chunkSize && |c.bytes| == Min(d.size - i * d.chunkSize, d.chunkSize)
  {
  }

  lemma {:induction false} ContentLength(h: Digest, d: Descriptor, read: Reader, k: nat)
    requires ValidateDescriptor(d).Ok? && k <= d.chunkCount && GoodUpTo(h, d, read, k)
    ensures |Content(h, d, read, k)| == Min(d.size, k * d.chunkSize)
    decreases k
  {
    if k > 0 {
      hide ValidateDescriptor, VerifyChunk, Good;
      ContentLength(h, d, read, k - 1);
      ChunkInside(d, k - 1);
      ChunkShape(h, d, read, k - 1);
    }
  }
}
