/** The attachment store and the service in front of it: `crates/ucr-storage-memory/src/lib.rs` and
    `crates/ucr-api-grpc/src/attachment_service.rs`. */
module AttachmentStore {
  import opened Base
  import opened Attachments

  datatype Key = Key(scope: Scope, id: string)
  datatype ChunkKey = ChunkKey(scope: Scope, id: string, index: nat)

  datatype Status = Persisted | Duplicate

  datatype Contents = Contents(attachments: map<Key, Descriptor>, chunks: map<ChunkKey, Chunk>)

  const Empty := Contents(map[], map[])

  function KeyOf(d: Descriptor): Key { Key(d.scope, d.id) }

  /** What the descriptor's own conditions, the chunk's place in it and the chunk's digest demand. */
  ghost predicate Acceptable(h: Digest, d: Descriptor, scope: Scope, c: Chunk) {
    d.scope == scope && WellShaped(d) && InPlace(d, c) && h(c.bytes) == c.hash
  }

  // ---- the store as a step function -----------------------------------------------------------------

  function PersistDescriptor(s: Contents, d: Descriptor): (Contents, Result<Status, StoreError>) {
    if ValidateDescriptor(d).Err? then (s, Err(InvalidRecord))
    else if KeyOf(d) in s.attachments then
      (s, if s.attachments[KeyOf(d)] == d then Ok(Duplicate) else Err(StoreConflict))
    else (s.(attachments := s.attachments[KeyOf(d) := d]), Ok(Persisted))
  }

  function PersistChunk(h: Digest, s: Contents, scope: Scope, c: Chunk): (Contents, Result<Status, StoreError>) {
    var key, slot := Key(scope, c.id), ChunkKey(scope, c.id, c.index);
    if key !in s.attachments || s.attachments[key].scope != scope || VerifyChunk(h, s.attachments[key], c).Err?
    then (s, Err(InvalidRecord))
    else if slot in s.chunks then (s, if s.chunks[slot] == c then Ok(Duplicate) else Err(StoreConflict))
    else (s.(chunks := s.chunks[slot := c]), Ok(Persisted))
  }

  function LookUp(s: Contents, key: Key): Option<Descriptor> {
    if key in s.attachments then Some(s.attachments[key]) else None
  }

  /** What complete verification reads of this store. */
  function ReaderOf(s: Contents, key: Key): Reader {
    (i: nat) =>
      Ok(if ChunkKey(key.scope, key.id, i) in s.chunks then Some(s.chunks[ChunkKey(key.scope, key.id, i)]) else None)
  }

  datatype Event = Register(d: Descriptor) | Put(scope: Scope, c: Chunk)

  /** The service: a descriptor is validated before it reaches the store, a chunk is verified against the
      registered descriptor. */
  function Serve(h: Digest, s: Contents, e: Event): (Contents, Result<(), Code>) {
    match e
    case Register(d) =>
      if ValidateDescriptor(d).Err? then (s, Err(FromAttachmentError(ValidateDescriptor(d).error)))
      else
        var (t, status) := PersistDescriptor(s, d);
        (t, if status.Err? then Err(FromStoreError(status.error))
            else if LookUp(t, KeyOf(d)).None? then Err(Internal) else Ok(()))
    case Put(scope, c) =>
      var found := LookUp(s, Key(scope, c.id));
      if found.None? then (s, Err(NotFound))
      else if VerifyChunk(h, found.value, c).Err? then
        (s, Err(FromAttachmentError(VerifyChunk(h, found.value, c).error)))
      else
        var (t, status) := PersistChunk(h, s, scope, c);
        (t, if status.Err? then Err(FromStoreError(status.error)) else Ok(()))
  }

  function Run(h: Digest, s: Contents, events: seq<Event>): Contents
    decreases |events|
  {
    if events == [] then s
    else Serve(h, Run(h, s, events[..|events| - 1]), events[|events| - 1]).0
  }

  // ---- the store itself -----------------------------------------------------------------------------

  class MemoryStore {
    const digest: Digest
    var attachments: map<Key, Descriptor>
    var chunks: map<ChunkKey, Chunk>

    function View(): Contents
      reads this
    {
      Contents(attachments, chunks)
    }

    constructor (digest: Digest)
      ensures this.digest == digest && View() == Empty
    {
      this.digest, attachments, chunks := digest, map[], map[];
    }

    method StoreDescriptor(d: Descriptor) returns (r: Result<Status, StoreError>)
      modifies this
      ensures (View(), r) == PersistDescriptor(old(View()), d)
    {
      if ValidateDescriptor(d).Err? { return Err(InvalidRecord); }
      var key := Key(d.scope, d.id);
      if key in attachments {
        return if attachments[key] == d then Ok(Duplicate) else Err(StoreConflict);
      }
      attachments := attachments[key := d];
      return Ok(Persisted);
    }

    method StoreChunk(scope: Scope, c: Chunk) returns (r: Result<Status, StoreError>)
      modifies this
      ensures (View(), r) == PersistChunk(digest, old(View()), scope, c)
    {
      var key := Key(scope, c.id);
      if key !in attachments { return Err(InvalidRecord); }
      var d := attachments[key];
      if d.scope != scope { return Err(InvalidRecord); }
      if VerifyChunk(digest, d, c).Err? { return Err(InvalidRecord); }
      var slot := ChunkKey(scope, c.id, c.index);
      if slot in chunks {
        return if chunks[slot] == c then Ok(Duplicate) else Err(StoreConflict);
      }
      chunks := chunks[slot := c];
      return Ok(Persisted);
    }

    method RegisterAttachment(d: Descriptor) returns (r: Result<(), Code>)
      modifies this
      ensures (View(), r) == Serve(digest, old(View()), Register(d))
      ensures var key := Key(d.scope, d.id);
        && (r == Err(InvalidArgument) <==> !WellShaped(d))
        && (r == Err(Conflict) <==> WellShaped(d) && key in old(attachments) && old(attachments)[key] != d)
        && (r.Err? ==> r.error in {InvalidArgument, Conflict})
        && attachments == (if r.Ok? then old(attachments)[key := d] else old(attachments))
      ensures chunks == old(chunks)
    {
      DescriptorVerdict(d);
      hide WellShaped, ValidateDescriptor;
      var shape := ValidateDescriptor(d);
      if shape.Err? { return Err(FromAttachmentError(shape.error)); }
      var status := StoreDescriptor(d);
      if status.Err? { return Err(FromStoreError(status.error)); }
      if KeyOf(d) !in attachments { return Err(Internal); }
      return Ok(());
    }

    method PutChunk(scope: Scope, c: Chunk) returns (r: Result<(), Code>)
      modifies this
      ensures (View(), r) == Serve(digest, old(View()), Put(scope, c))
      ensures var key, slot := Key(scope, c.id), ChunkKey(scope, c.id, c.index);
        && (r == Err(NotFound) <==> key !in attachments)
        && (r.Ok? <==> key in attachments && Acceptable(digest, attachments[key], scope, c)
                       && (slot in old(chunks) ==> old(chunks)[slot] == c))
        && (r == Err(IntegrityFailure) <==>
              key in attachments && WellShaped(attachments[key]) && InPlace(attachments[key], c) && digest(c.bytes) != c.hash)
        && (r == Err(Conflict) <==> key in attachments && Acceptable(digest, attachments[key], scope, c)
                                    && slot in old(chunks) && old(chunks)[slot] != c)
        && (r.Err? ==> r.error in {NotFound, IntegrityFailure, Conflict, InvalidArgument})
        && chunks == (if r.Ok? then old(chunks)[slot := c] else old(chunks))
      ensures attachments == old(attachments)
    {
      var key := Key(scope, c.id);
      if key in attachments { ChunkVerdict(digest, attachments[key], c); }
      hide VerifyChunk, WellShaped, InPlace;
      if key !in attachments { return Err(NotFound); }
      var verdict := VerifyChunk(digest, attachments[key], c);
      if verdict.Err? { return Err(FromAttachmentError(verdict.error)); }
      var status := StoreChunk(scope, c);
      if status.Err? { return Err(FromStoreError(status.error)); }
      return Ok(());
    }

    /** Complete verification against what this store holds. */
    method VerifyAttachment(scope: Scope, id: string) returns (r: Result<(), Code>)
      ensures Sound(digest, View()) ==> r == Completed(digest, View(), Key(scope, id))
    {
      var key := Key(scope, id);
      var read := ReaderOf(View(), key);
      var found := LookUp(View(), key);
      ghost var k;
      r, k := VerifyCompleteFromStore(digest, Ok(found), read);
      if Sound(digest, View()) && found.Some? { ScanResult(digest, View(), key, k); }
    }
  }

  // ---- what every reachable store satisfies -----------------------------------------------------------

  ghost predicate Sound(h: Digest, s: Contents) {
    && (forall key :: key in s.attachments ==>
          KeyOf(s.attachments[key]) == key && ValidateDescriptor(s.attachments[key]).Ok?)
    && (forall slot :: slot in s.chunks ==>
          && Key(slot.scope, slot.id) in s.attachments
          && s.chunks[slot].id == slot.id && s.chunks[slot].index == slot.index
          && VerifyChunk(h, s.attachments[Key(slot.scope, slot.id)], s.chunks[slot]).Ok?)
  }

  /** Nothing stored is ever changed or removed. */
  ghost predicate Extends(s: Contents, t: Contents) {
    && (forall key :: key in s.attachments ==> key in t.attachments && t.attachments[key] == s.attachments[key])
    && (forall slot :: slot in s.chunks ==> slot in t.chunks && t.chunks[slot] == s.chunks[slot])
  }

  lemma DescriptorIsSound(h: Digest, s: Contents, d: Descriptor)
    requires Sound(h, s)
    ensures Sound(h, PersistDescriptor(s, d).0) && Extends(s, PersistDescriptor(s, d).0)
  {
    hide VerifyChunk, ValidateDescriptor;
  }

  lemma ChunkIsSound(h: Digest, s: Contents, scope: Scope, c: Chunk)
    requires Sound(h, s)
    ensures Sound(h, PersistChunk(h, s, scope, c).0) && Extends(s, PersistChunk(h, s, scope, c).0)
  {
    hide VerifyChunk, ValidateDescriptor;
  }

  lemma ServeIsSound(h: Digest, s: Contents, e: Event)
    requires Sound(h, s)
    ensures Sound(h, Serve(h, s, e).0) && Extends(s, Serve(h, s, e).0)
  {
    hide VerifyChunk, ValidateDescriptor, Sound, PersistDescriptor, PersistChunk;
    match e
    case Register(d) => DescriptorIsSound(h, s, d);
    case Put(scope, c) => ChunkIsSound(h, s, scope, c);
  }

  /** The store's status says whether it stored: `Persisted` exactly when it grew by the record, `Duplicate` exactly
      when the very same record was already there. */
  lemma StatusTells(h: Digest, s: Contents, d: Descriptor, scope: Scope, c: Chunk)
    requires Sound(h, s)
    ensures var (t, r) := PersistDescriptor(s, d);
      && (r == Ok(Persisted) <==> KeyOf(d) !in s.attachments && KeyOf(d) in t.attachments)
      && (r == Ok(Duplicate) <==> LookUp(s, KeyOf(d)) == Some(d))
    ensures var (t, r) := PersistChunk(h, s, scope, c);
      var slot := ChunkKey(scope, c.id, c.index);
      && (r == Ok(Persisted) <==> slot !in s.chunks && slot in t.chunks)
      && (r == Ok(Duplicate) <==> slot in s.chunks && s.chunks[slot] == c)
  {
    hide VerifyChunk, ValidateDescriptor;
  }

  /** The service's own checks come first: the store never refuses a record as invalid, and reading back a
      registered descriptor never fails. */
  lemma OnlyConflictsComeFromTheStore(h: Digest, s: Contents, e: Event)
    requires Sound(h, s)
    ensures Serve(h, s, e).1 != Err(Internal)
    ensures e.Register? && ValidateDescriptor(e.d).Ok? ==>
      (Serve(h, s, e).1.Err? <==> Serve(h, s, e).1 == Err(Conflict))
      && (Serve(h, s, e).1.Ok? <==> LookUp(Serve(h, s, e).0, KeyOf(e.d)) == Some(e.d))
    ensures e.Put? ==>
      var slot := ChunkKey(e.scope, e.c.id, e.c.index);
      Serve(h, s, e).1.Ok? <==> slot in Serve(h, s, e).0.chunks && Serve(h, s, e).0.chunks[slot] == e.c
  {
    hide VerifyChunk, ValidateDescriptor;
  }

  /** Every stored descriptor is well shaped under its own key; every stored chunk belongs to a stored descriptor, is in
      its place there and has the digest it states. */
  ghost predicate Trustworthy(h: Digest, s: Contents) {
    && (forall key :: key in s.attachments ==>
          WellShaped(s.attachments[key]) && s.attachments[key].scope == key.scope && s.attachments[key].id == key.id)
    && (forall slot :: slot in s.chunks ==>
          && Key(slot.scope, slot.id) in s.attachments && s.chunks[slot].index == slot.index
          && Acceptable(h, s.attachments[Key(slot.scope, slot.id)], slot.scope, s.chunks[slot]))
  }

  lemma SoundIsTrustworthy(h: Digest, s: Contents)
    requires Sound(h, s)
    ensures Trustworthy(h, s)
  {
    hide VerifyChunk, ValidateDescriptor, WellShaped, InPlace;
    forall key | key in s.attachments ensures WellShaped(s.attachments[key]) { DescriptorVerdict(s.attachments[key]); }
    forall slot | slot in s.chunks
      ensures Key(slot.scope, slot.id) in s.attachments
      ensures Acceptable(h, s.attachments[Key(slot.scope, slot.id)], slot.scope, s.chunks[slot])
    {
      ChunkVerdict(h, s.attachments[Key(slot.scope, slot.id)], s.chunks[slot]);
    }
  }

  lemma {:induction false} RunIsSound(h: Digest, s: Contents, events: seq<Event>)
    requires Sound(h, s)
    ensures Sound(h, Run(h, s, events)) && Extends(s, Run(h, s, events))
    ensures Trustworthy(h, Run(h, s, events))
    decreases |events|
  {
    hide Sound, Serve;
    SoundIsTrustworthy(h, s);
    hide Trustworthy;
    if events != [] {
      var prefix := events[..|events| - 1];
      RunIsSound(h, s, prefix);
      ServeIsSound(h, Run(h, s, prefix), events[|events| - 1]);
      SoundIsTrustworthy(h, Run(h, s, events));
    }
  }

  // ---- what verification means for a reachable store --------------------------------------------------

  ghost predicate AllPresent(s: Contents, key: Key, count: nat) {
    forall i :: 0 <= i < count ==> ChunkKey(key.scope, key.id, i) in s.chunks
  }

  /** The stored bytes of one attachment, in chunk order. */
  ghost function Assembled(s: Contents, key: Key, count: nat): Bytes
    requires AllPresent(s, key, count)
  {
    if count == 0 then []
    else Assembled(s, key, count - 1) + s.chunks[ChunkKey(key.scope, key.id, count - 1)].bytes
  }

  /** In a reachable store the answer depends only on which chunks are there and on the assembled digest. */
  ghost function Completed(h: Digest, s: Contents, key: Key): Result<(), Code> {
    if key !in s.attachments then Err(NotFound)
    else
      var d := s.attachments[key];
      if !AllPresent(s, key, d.chunkCount) then Err(Conflict)
      else if h(Assembled(s, key, d.chunkCount)) == d.content then Ok(())
      else Err(IntegrityFailure)
  }

  lemma PresentIsGood(h: Digest, s: Contents, key: Key, i: nat)
    requires Sound(h, s) && key in s.attachments
    ensures Good(h, s.attachments[key], ReaderOf(s, key), i) <==> ChunkKey(key.scope, key.id, i) in s.chunks
  {
    hide VerifyChunk, ValidateDescriptor;
    if ChunkKey(key.scope, key.id, i) in s.chunks {
      assert Key(key.scope, key.id) == key;
    }
  }

  lemma {:induction false} SameContent(h: Digest, s: Contents, key: Key, k: nat)
    requires Sound(h, s) && key in s.attachments && AllPresent(s, key, k)
    ensures GoodUpTo(h, s.attachments[key], ReaderOf(s, key), k)
    ensures Content(h, s.attachments[key], ReaderOf(s, key), k) == Assembled(s, key, k)
    decreases k
  {
    hide VerifyChunk, Sound;
    forall i | 0 <= i < k ensures Good(h, s.attachments[key], ReaderOf(s, key), i) { PresentIsGood(h, s, key, i); }
    if k > 0 { SameContent(h, s, key, k - 1); }
  }

  lemma ScanResult(h: Digest, s: Contents, key: Key, k: nat)
    requires Sound(h, s) && key in s.attachments
    requires var d := s.attachments[key];
      && k <= d.chunkCount && GoodUpTo(h, d, ReaderOf(s, key), k)
      && (k < d.chunkCount ==> !Good(h, d, ReaderOf(s, key), k))
    ensures ValidateDescriptor(s.attachments[key]).Ok?
    ensures Stop(h, s.attachments[key], ReaderOf(s, key), k) == Completed(h, s, key)
  {
    var d := s.attachments[key];
    assert ValidateDescriptor(d).Ok?;
    hide VerifyChunk, ValidateDescriptor, Sound, Content, Assembled;
    if k < d.chunkCount {
      PresentIsGood(h, s, key, k);
      assert ChunkKey(key.scope, key.id, k) !in s.chunks;
    } else {
      forall i | 0 <= i < k ensures ChunkKey(key.scope, key.id, i) in s.chunks { PresentIsGood(h, s, key, i); }
      SameContent(h, s, key, k);
    }
  }

  // ---- uploading ------------------------------------------------------------------------------------

  /** Chunk `i` of `data`, as a sender cuts it. */
  ghost function CanonicalChunk(h: Digest, d: Descriptor, data: Bytes, i: nat): Chunk
    requires ValidateDescriptor(d).Ok? && |data| == d.size && i < d.chunkCount
  {
    ChunkInside(d, i);
    var bytes := data[i * d.chunkSize..Min(d.size, (i + 1) * d.chunkSize)];
    Chunk(d.id, i, i * d.chunkSize, bytes, h(bytes))
  }

  lemma CanonicalChunkVerifies(h: Digest, d: Descriptor, data: Bytes, i: nat)
    requires ValidateDescriptor(d).Ok? && |data| == d.size && i < d.chunkCount
    ensures VerifyChunk(h, d, CanonicalChunk(h, d, data, i)).Ok?
  {
    ChunkInside(d, i);
  }

  ghost predicate Canonical(h: Digest, d: Descriptor, data: Bytes, c: Chunk)
    requires ValidateDescriptor(d).Ok? && |data| == d.size
  {
    c.index < d.chunkCount && c == CanonicalChunk(h, d, data, c.index)
  }

  ghost predicate HoldsOnlyCanonical(h: Digest, s: Contents, d: Descriptor, data: Bytes)
    requires ValidateDescriptor(d).Ok? && |data| == d.size
  {
    forall slot :: slot in s.chunks && Key(slot.scope, slot.id) == KeyOf(d) ==> Canonical(h, d, data, s.chunks[slot])
  }

  lemma {:induction false} AssembledIsData(h: Digest, s: Contents, d: Descriptor, data: Bytes, k: nat)
    requires Sound(h, s) && ValidateDescriptor(d).Ok? && |data| == d.size && k <= d.chunkCount
    requires HoldsOnlyCanonical(h, s, d, data) && AllPresent(s, KeyOf(d), k)
    ensures Assembled(s, KeyOf(d), k) == data[..Min(d.size, k * d.chunkSize)]
    decreases k
  {
    hide VerifyChunk, ValidateDescriptor, Sound, HoldsOnlyCanonical;
    if k > 0 {
      AssembledIsData(h, s, d, data, k - 1);
      ChunkInside(d, k - 1);
      SlotIsCanonical(h, s, d, data, k - 1);
      var a, b := (k - 1) * d.chunkSize, Min(d.size, k * d.chunkSize);
      assert data[..a] + data[a..b] == data[..b];
    }
  }

  lemma SlotIsCanonical(h: Digest, s: Contents, d: Descriptor, data: Bytes, i: nat)
    requires Sound(h, s) && ValidateDescriptor(d).Ok? && |data| == d.size && i < d.chunkCount
    requires HoldsOnlyCanonical(h, s, d, data) && ChunkKey(d.scope, d.id, i) in s.chunks
    ensures s.chunks[ChunkKey(d.scope, d.id, i)] == CanonicalChunk(h, d, data, i)
  {
    hide VerifyChunk, ValidateDescriptor, CanonicalChunk;
    var slot := ChunkKey(d.scope, d.id, i);
    assert Key(slot.scope, slot.id) == KeyOf(d) && Canonical(h, d, data, s.chunks[slot]);
  }

  lemma ServeKeepsCanonical(h: Digest, s: Contents, e: Event, d: Descriptor, data: Bytes)
    requires ValidateDescriptor(d).Ok? && |data| == d.size
    requires HoldsOnlyCanonical(h, s, d, data)
    requires e.Put? && Key(e.scope, e.c.id) == KeyOf(d) ==> Canonical(h, d, data, e.c)
    ensures HoldsOnlyCanonical(h, Serve(h, s, e).0, d, data)
  {
    hide VerifyChunk, ValidateDescriptor, Canonical;
  }

  lemma {:induction false} RunKeepsCanonical(h: Digest, s: Contents, events: seq<Event>, d: Descriptor, data: Bytes)
    requires ValidateDescriptor(d).Ok? && |data| == d.size
    requires HoldsOnlyCanonical(h, s, d, data)
    requires forall e :: e in events && e.Put? && Key(e.scope, e.c.id) == KeyOf(d) ==> Canonical(h, d, data, e.c)
    ensures HoldsOnlyCanonical(h, Run(h, s, events), d, data)
    decreases |events|
  {
    hide Serve, ValidateDescriptor, Canonical, HoldsOnlyCanonical;
    if events != [] {
      var prefix := events[..|events| - 1];
      RunKeepsCanonical(h, s, prefix, d, data);
      ServeKeepsCanonical(h, Run(h, s, prefix), events[|events| - 1], d, data);
    }
  }

  lemma PutStays(h: Digest, s: Contents, e: Event, d: Descriptor, data: Bytes, i: nat)
    requires Sound(h, s) && ValidateDescriptor(d).Ok? && |data| == d.size && i < d.chunkCount
    requires LookUp(s, KeyOf(d)) == Some(d) && e == Put(d.scope, CanonicalChunk(h, d, data, i))
    ensures ChunkKey(d.scope, d.id, i) in Serve(h, s, e).0.chunks
  {
    CanonicalChunkVerifies(h, d, data, i);
    hide VerifyChunk, ValidateDescriptor;
  }

  lemma {:induction false} PutIsPresent(h: Digest, s: Contents, events: seq<Event>, d: Descriptor, data: Bytes, i: nat)
    requires Sound(h, s) && ValidateDescriptor(d).Ok? && |data| == d.size && i < d.chunkCount
    requires LookUp(s, KeyOf(d)) == Some(d)
    requires Put(d.scope, CanonicalChunk(h, d, data, i)) in events
    ensures ChunkKey(d.scope, d.id, i) in Run(h, s, events).chunks
    decreases |events|
  {
    hide Serve, ValidateDescriptor, Sound, CanonicalChunk;
    var prefix, last := events[..|events| - 1], events[|events| - 1];
    RunIsSound(h, s, prefix);
    if last == Put(d.scope, CanonicalChunk(h, d, data, i)) {
      PutStays(h, Run(h, s, prefix), last, d, data, i);
    } else {
      PutIsPresent(h, s, prefix, d, data, i);
      ServeIsSound(h, Run(h, s, prefix), last);
    }
  }

  /** Upload in any order, with any repeats and any traffic for other attachments in between: once every chunk
      was sent and nothing else was sent for this attachment, verification succeeds. */
  lemma UploadInAnyOrderVerifies(h: Digest, s: Contents, events: seq<Event>, d: Descriptor, data: Bytes)
    requires Sound(h, s) && LookUp(s, KeyOf(d)) == Some(d) && ValidateDescriptor(d).Ok?
    requires |data| == d.size && d.content == h(data)
    requires HoldsOnlyCanonical(h, s, d, data)
    requires forall e :: e in events && e.Put? && Key(e.scope, e.c.id) == KeyOf(d) ==> Canonical(h, d, data, e.c)
    requires forall i :: 0 <= i < d.chunkCount ==> Put(d.scope, CanonicalChunk(h, d, data, i)) in events
    ensures Completed(h, Run(h, s, events), KeyOf(d)) == Ok(())
  {
    var t := Run(h, s, events);
    RunIsSound(h, s, events);
    RunKeepsCanonical(h, s, events, d, data);
    forall i | 0 <= i < d.chunkCount ensures ChunkKey(d.scope, d.id, i) in t.chunks {
      PutIsPresent(h, s, events, d, data, i);
    }
    AssembledIsData(h, t, d, data, d.chunkCount);
    WholeData(d, data);
  }

  lemma WholeData(d: Descriptor, data: Bytes)
    requires ValidateDescriptor(d).Ok? && |data| == d.size
    ensures data[..Min(d.size, d.chunkCount * d.chunkSize)] == data
  {
    if d.size > 0 { CountCoversSize(d.size, d.chunkSize, d.chunkCount); }
  }

  /** Unless the stored and the registered content collide, verification succeeds exactly when what is stored is
      complete and byte for byte the registered content. */
  lemma VerifiedIsOriginal(h: Digest, s: Contents, d: Descriptor, data: Bytes)
    requires LookUp(s, KeyOf(d)) == Some(d) && d.content == h(data)
    requires AllPresent(s, KeyOf(d), d.chunkCount) && h(Assembled(s, KeyOf(d), d.chunkCount)) == h(data) ==>
      Assembled(s, KeyOf(d), d.chunkCount) == data
    ensures Completed(h, s, KeyOf(d)).Ok? <==>
      AllPresent(s, KeyOf(d), d.chunkCount) && Assembled(s, KeyOf(d), d.chunkCount) == data
  {
  }
}
