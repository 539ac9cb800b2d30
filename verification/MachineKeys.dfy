/** Machine-token keys: the rotating secret of `crates/ucr-secrets/src/lib.rs`, the verification-key set of
    `crates/ucr-crypto/src/machine_token.rs`, and how `crates/ucr-api-grpc/src/machine_auth_service.rs` publishes
    one from the other. Key derivation and base64url are parameters. */
module MachineKeys {
  import opened Base

  const SEED_BYTES := 32
  const MAX_PUBLIC_KEYS := 8

  datatype Purpose = MachineTokenSigning | OtherPurpose
  datatype Handle = Handle(name: string, purpose: Purpose)

  datatype Version = Version(id: string, material: Bytes)
  datatype ActiveSet = ActiveSet(current: Version, previous: Option<Version>)

  datatype SecretError = NotFound | Conflict

  // ---- the secret provider --------------------------------------------------------------------------

  function Rotated(existing: ActiveSet, v: Version): Result<ActiveSet, SecretError> {
    if existing.current == v then Ok(existing)
    else if existing.current.id == v.id then Err(Conflict)
    else if existing.previous == Some(v) then Ok(existing)
    else if existing.previous.Some? && existing.previous.value.id == v.id then Err(Conflict)
    else Ok(ActiveSet(v, Some(existing.current)))
  }

  /** Rotation changes the set exactly for an id that is not active, and then keeps the current version as the previous
      one. An active id is a retry with the same material and a conflict with any other. */
  lemma RotationIs(existing: ActiveSet, v: Version)
    ensures var r := Rotated(existing, v);
      var isCurrent, isPrevious := v.id == existing.current.id, existing.previous.Some? && v.id == existing.previous.value.id;
      && (!isCurrent && !isPrevious ==> r == Ok(ActiveSet(v, Some(existing.current))))
      && (isCurrent ==> r == if v.material == existing.current.material then Ok(existing) else Err(Conflict))
      && (isPrevious && !isCurrent ==>
            r == if v.material == existing.previous.value.material then Ok(existing) else Err(Conflict))
  {
  }

  class SecretProvider {
    var state: map<Handle, ActiveSet>

    constructor ()
      ensures state == map[]
    {
      state := map[];
    }

    method Provision(handle: Handle, v: Version) returns (r: Result<ActiveSet, SecretError>)
      modifies this
      ensures handle !in old(state) ==> r == Ok(ActiveSet(v, None)) && state == old(state)[handle := ActiveSet(v, None)]
      ensures handle in old(state) ==> state == old(state)
      ensures handle in old(state) ==>
        r == if old(state)[handle] == ActiveSet(v, None) then Ok(old(state)[handle]) else Err(Conflict)
    {
      if handle in state {
        var existing := state[handle];
        if existing.current == v && existing.previous.None? { return Ok(existing); }
        return Err(Conflict);
      }
      state := state[handle := ActiveSet(v, None)];
      return Ok(state[handle]);
    }

    method Rotate(handle: Handle, v: Version) returns (r: Result<ActiveSet, SecretError>)
      modifies this
      ensures handle !in old(state) ==> r == Err(NotFound) && state == old(state)
      ensures handle in old(state) ==> r == Rotated(old(state)[handle], v)
      ensures r.Ok? ==> state == old(state)[handle := r.value]
      ensures r.Err? ==> state == old(state)
    {
      if handle !in state { return Err(NotFound); }
      var existing := state[handle];
      assert state[handle := existing] == state;
      if existing.current == v { return Ok(existing); }
      if existing.current.id == v.id { return Err(Conflict); }
      if existing.previous.Some? {
        if existing.previous.value == v { return Ok(existing); }
        if existing.previous.value.id == v.id { return Err(Conflict); }
      }
      var rotated := ActiveSet(v, Some(existing.current));
      state := state[handle := rotated];
      return Ok(rotated);
    }
  }

  // ---- the verification-key set ---------------------------------------------------------------------

  datatype PublicKey = PublicKey(id: string, key: Bytes)
  datatype SigningKey = SigningKey(id: string, seed: Bytes)
  datatype KeySetError = Empty | TooManyKeys | DuplicateKeyId | InvalidJwks

  ghost predicate IdsApart(keys: seq<PublicKey>) {
    forall i, j :: 0 <= i < j < |keys| ==> keys[i].id != keys[j].id
  }

  ghost predicate KeySet(keys: seq<PublicKey>) { 1 <= |keys| <= MAX_PUBLIC_KEYS && IdsApart(keys) }

  /** The set made of these keys, or what is wrong with them. */
  ghost function SetOf(keys: seq<PublicKey>): Result<seq<PublicKey>, KeySetError> {
    if KeySet(keys) then Ok(keys)
    else if keys == [] then Err(Empty)
    else if |keys| > MAX_PUBLIC_KEYS then Err(TooManyKeys)
    else Err(DuplicateKeyId)
  }

  predicate HasId(keys: seq<PublicKey>, id: string) { exists i :: 0 <= i < |keys| && keys[i].id == id }

  method NewKeySet(keys: seq<PublicKey>) returns (r: Result<seq<PublicKey>, KeySetError>)
    ensures r == SetOf(keys)
    ensures r == Err(Empty) <==> keys == []
    ensures r == Err(TooManyKeys) <==> |keys| > 8
    ensures r == Err(DuplicateKeyId) <==> |keys| <= 8 && exists i, j :: 0 <= i < j < |keys| && keys[i].id == keys[j].id
    ensures r.Ok? ==> r.value == keys
  {
    if keys == [] { return Err(Empty); }
    if |keys| > MAX_PUBLIC_KEYS { return Err(TooManyKeys); }
    for index := 0 to |keys|
      invariant forall i, j :: 0 <= i < j < index ==> keys[i].id != keys[j].id
    {
      if HasId(keys[..index], keys[index].id) { return Err(DuplicateKeyId); }
      assert forall i :: 0 <= i < index ==> keys[..index][i].id != keys[index].id;
    }
    return Ok(keys);
  }

  lemma HasIdIs(keys: seq<PublicKey>, id: string)
    ensures HasId(keys, id) <==> exists k :: k in keys && k.id == id
  {
    if k :| k in keys && k.id == id {
      var i :| 0 <= i < |keys| && keys[i] == k;
    }
  }

  method InsertKey(keys: seq<PublicKey>, key: PublicKey) returns (r: Result<seq<PublicKey>, KeySetError>)
    requires KeySet(keys)
    ensures r == Err(DuplicateKeyId) <==> exists k :: k in keys && k.id == key.id
    ensures r == Err(TooManyKeys) <==> |keys| == 8 && forall k :: k in keys ==> k.id != key.id
    ensures r.Err? ==> r.error in {DuplicateKeyId, TooManyKeys}
    ensures r.Ok? ==> r.value == keys + [key] && KeySet(r.value)
  {
    assert HasId(keys, key.id) <==> exists k :: k in keys && k.id == key.id by { HasIdIs(keys, key.id); }
    if HasId(keys, key.id) { return Err(DuplicateKeyId); }
    if |keys| >= MAX_PUBLIC_KEYS { return Err(TooManyKeys); }
    return Ok(keys + [key]);
  }

  /** The first key with this id. */
  function Resolve(keys: seq<PublicKey>, id: string): Option<Bytes> {
    if keys == [] then None else if keys[0].id == id then Some(keys[0].key) else Resolve(keys[1..], id)
  }

  /** In a key set, looking an id up finds its one key. */
  lemma {:induction false} ResolveIs(keys: seq<PublicKey>, id: string, key: Bytes)
    requires IdsApart(keys)
    ensures Resolve(keys, id) == Some(key) <==> PublicKey(id, key) in keys
  {
    if keys != [] {
      ResolveIs(keys[1..], id, key);
      assert keys == [keys[0]] + keys[1..];
    }
  }

  // ---- from the active secret to keys -----------------------------------------------------------------

  /** The public key of a seed. */
  type Derive = Bytes -> Bytes

  datatype Unavailable = TemporarilyUnavailable

  function PublicOf(derive: Derive, v: Version): PublicKey { PublicKey(v.id, derive(v.material)) }

  predicate UsableVersion(v: Version) { |v.material| == SEED_BYTES }

  /** Both versions are seeds, under different ids. */
  predicate UsableSet(active: ActiveSet) {
    && UsableVersion(active.current)
    && (active.previous.Some? ==> UsableVersion(active.previous.value) && active.previous.value.id != active.current.id)
  }

  /** Signing key and published keys of an active set. */
  datatype Material = Material(signing: SigningKey, keys: seq<PublicKey>)

  function KeysOf(derive: Derive, active: ActiveSet): seq<PublicKey> {
    [PublicOf(derive, active.current)] +
    if active.previous.Some? then [PublicOf(derive, active.previous.value)] else []
  }

  method MaterialFromActive(derive: Derive, active: ActiveSet) returns (r: Result<Material, Unavailable>)
    ensures r.Ok? <==> UsableSet(active)
    ensures r.Ok? ==> r.value == Material(SigningKey(active.current.id, active.current.material), KeysOf(derive, active))
    ensures r.Ok? ==> KeySet(r.value.keys)
    ensures r.Ok? <==> |active.current.material| == 32 && (active.previous.Some? ==>
      |active.previous.value.material| == 32 && active.previous.value.id != active.current.id)
    ensures r.Ok? ==>
      && r.value.signing == SigningKey(active.current.id, active.current.material)
      && r.value.keys[0] == PublicKey(active.current.id, derive(active.current.material))
      && |r.value.keys| == (if active.previous.Some? then 2 else 1)
      && (active.previous.Some? ==>
            r.value.keys[1] == PublicKey(active.previous.value.id, derive(active.previous.value.material)))
  {
    if |active.current.material| != SEED_BYTES { return Err(TemporarilyUnavailable); }
    var signing := SigningKey(active.current.id, active.current.material);
    var current := PublicKey(signing.id, derive(signing.seed));
    var verification := NewKeySet([current]);
    assert KeySet([current]);
    var keys := verification.value;
    if active.previous.Some? {
      var old_ := active.previous.value;
      if |old_.material| != SEED_BYTES { return Err(TemporarilyUnavailable); }
      var inserted := InsertKey(keys, PublicKey(old_.id, derive(old_.material)));
      assert HasId(keys, old_.id) <==> keys[0].id == old_.id;
      if inserted.Err? { return Err(TemporarilyUnavailable); }
      keys := inserted.value;
    }
    return Ok(Material(signing, keys));
  }

  /** `provider_key_material`. */
  method ProviderKeyMaterial(derive: Derive, provider: SecretProvider, handle: Handle)
    returns (r: Result<Material, Unavailable>)
    ensures r.Ok? <==>
      handle.purpose == MachineTokenSigning && handle in provider.state && UsableSet(provider.state[handle])
    ensures r.Ok? ==>
      var current := provider.state[handle].current;
      r.value == Material(SigningKey(current.id, current.material), KeysOf(derive, provider.state[handle]))
    ensures r.Ok? ==> KeySet(r.value.keys)
  {
    if handle.purpose != MachineTokenSigning { return Err(TemporarilyUnavailable); }
    if handle !in provider.state { return Err(TemporarilyUnavailable); }
    r := MaterialFromActive(derive, provider.state[handle]);
  }

  // ---- runs of rotations ----------------------------------------------------------------------------

  /** The active set after a run of rotation attempts, whether or not each takes effect. */
  function After(start: Version, attempts: seq<Version>): ActiveSet
    decreases |attempts|
  {
    if attempts == [] then ActiveSet(start, None)
    else
      var before := After(start, attempts[..|attempts| - 1]);
      var r := Rotated(before, attempts[|attempts| - 1]);
      if r.Ok? then r.value else before
  }

  /** The versions that were current, one after the other. */
  function History(start: Version, attempts: seq<Version>): (h: seq<Version>)
    ensures h != []
    decreases |attempts|
  {
    if attempts == [] then [start]
    else
      var prefix, v := attempts[..|attempts| - 1], attempts[|attempts| - 1];
      if After(start, attempts) == After(start, prefix) then History(start, prefix) else History(start, prefix) + [v]
  }

  ghost predicate Represents(active: ActiveSet, h: seq<Version>)
    requires h != []
  {
    && active.current == h[|h| - 1]
    && active.previous == if |h| == 1 then None else Some(h[|h| - 2])
  }

  /** The active set is always the last two versions of the history; neighbours and next neighbours in the
      history never share an id. */
  lemma {:induction false} HistoryIsRepresented(start: Version, attempts: seq<Version>)
    ensures Represents(After(start, attempts), History(start, attempts))
    ensures forall i :: 0 < i < |History(start, attempts)| ==> DiffersAt(History(start, attempts), i)
    decreases |attempts|
  {
    if attempts != [] {
      var prefix := attempts[..|attempts| - 1];
      HistoryIsRepresented(start, prefix);
      var h, h' := History(start, prefix), History(start, attempts);
      if h' != h {
        forall i | 0 < i < |h'| ensures DiffersAt(h', i) {
          if i < |h| { assert DiffersAt(h, i); }
        }
      }
    }
  }

  predicate DiffersAt(h: seq<Version>, i: nat)
    requires 0 < i < |h|
  {
    h[i].id != h[i - 1].id && (i > 1 ==> h[i].id != h[i - 2].id)
  }

  ghost predicate AllUsable(h: seq<Version>) { forall i :: 0 <= i < |h| ==> UsableVersion(h[i]) }

  lemma {:induction false} HistoryComesFromAttempts(start: Version, attempts: seq<Version>)
    requires UsableVersion(start) && AllUsable(attempts)
    ensures AllUsable(History(start, attempts))
    decreases |attempts|
  {
    if attempts != [] { HistoryComesFromAttempts(start, attempts[..|attempts| - 1]); }
  }

  /** Over every run of rotations key material is available, its one or two ids are distinct, and the signing key
      is among the published ones. */
  lemma SigningKeyIsPublished(derive: Derive, start: Version, attempts: seq<Version>)
    requires UsableVersion(start) && AllUsable(attempts)
    ensures var active := After(start, attempts);
      && UsableSet(active)
      && PublicOf(derive, active.current) in KeysOf(derive, active)
      && 1 <= |KeysOf(derive, active)| <= 2 && KeySet(KeysOf(derive, active))
  {
    var h := History(start, attempts);
    HistoryIsRepresented(start, attempts);
    HistoryComesFromAttempts(start, attempts);
    var last := |h| - 1;
    assert UsableVersion(h[last]);
    if last > 0 { assert DiffersAt(h, last) && UsableVersion(h[last - 1]); }
    assert KeysOf(derive, After(start, attempts))[0] == PublicOf(derive, h[last]);
  }

  /** Whether a token signed under `v` finds its own verification key. */
  ghost predicate Verifies(derive: Derive, v: Version, active: ActiveSet) {
    Resolve(KeysOf(derive, active), v.id) == Some(derive(v.material))
  }

  predicate SameKey(derive: Derive, a: Version, b: Version) { a.id == b.id && derive(a.material) == derive(b.material) }

  lemma ResolvedKey(derive: Derive, active: ActiveSet, id: string)
    ensures Resolve(KeysOf(derive, active), id) ==
      if active.current.id == id then Some(derive(active.current.material))
      else if active.previous.Some? && active.previous.value.id == id then Some(derive(active.previous.value.material))
      else None
  {
    var keys := KeysOf(derive, active);
    if active.previous.Some? {
      var older := [PublicOf(derive, active.previous.value)];
      assert keys[1..] == older && older[1..] == [];
      assert Resolve(older, id) == if older[0].id == id then Some(older[0].key) else None;
    } else {
      assert keys[1..] == [];
    }
  }

  /** A token signed at any point of the history verifies now exactly when its id and key are those of the
      current or the previous version. */
  lemma TokenVerifiesExactlyWhen(derive: Derive, start: Version, attempts: seq<Version>, k: nat)
    requires k < |History(start, attempts)|
    ensures var h := History(start, attempts);
      Verifies(derive, h[k], After(start, attempts)) <==>
        SameKey(derive, h[k], h[|h| - 1]) || (|h| > 1 && SameKey(derive, h[k], h[|h| - 2]))
  {
    hide After, History, KeysOf, Resolve;
    var h := History(start, attempts);
    HistoryIsRepresented(start, attempts);
    if |h| > 1 { assert DiffersAt(h, |h| - 1); }
    ResolvedKey(derive, After(start, attempts), h[k].id);
  }

  ghost predicate NeverReused(h: seq<Version>) { forall i, j :: 0 <= i < j < |h| ==> h[i].id != h[j].id }

  /** With version ids that are never reused, that is the version it was signed under and the next one, and no
      later one. */
  lemma TokenLivesForTwoVersions(derive: Derive, start: Version, attempts: seq<Version>, k: nat)
    requires k < |History(start, attempts)| && NeverReused(History(start, attempts))
    ensures Verifies(derive, History(start, attempts)[k], After(start, attempts)) <==>
      k == |History(start, attempts)| - 1 || k == |History(start, attempts)| - 2
  {
    hide After, History, Verifies;
    TokenVerifiesExactlyWhen(derive, start, attempts, k);
  }

  /** The provider itself does not prevent reuse: an id from before the previous version is accepted again, and
      a token that had stopped verifying verifies once more. */
  lemma ReusedVersionRevives(derive: Derive, a: Version, b: Version, c: Version)
    requires a.id != b.id && a.id != c.id && b.id != c.id
    ensures History(a, [b, c]) == [a, b, c] && !Verifies(derive, a, After(a, [b, c]))
    ensures History(a, [b, c, a]) == [a, b, c, a] && Verifies(derive, a, After(a, [b, c, a]))
  {
    assert [b, c, a][..2] == [b, c] && [b, c][..1] == [b] && [b][..0] == [];
    assert After(a, [b]) == ActiveSet(b, Some(a)) && After(a, [b, c]) == ActiveSet(c, Some(b));
    assert After(a, [b, c, a]) == ActiveSet(a, Some(c));
    assert History(a, [b]) == [a, b];
    ResolvedKey(derive, After(a, [b, c]), a.id);
    ResolvedKey(derive, After(a, [b, c, a]), a.id);
  }

  // ---- publication ------------------------------------------------------------------------------------

  /** One published key. `okp`, `ed25519`, `sig` and `eddsa` say whether the four fixed members of an Ed25519
      signature key (section 2 of RFC 8037) carry their required words. */
  datatype Jwk = Jwk(okp: bool, ed25519: bool, sig: bool, eddsa: bool, kid: string, x: string)

  /** base64url without padding, which ids are well formed, and which 32 bytes are a public key. */
  datatype Codec = Codec(encode: Bytes -> string, decode: string -> Option<Bytes>, idOk: string -> bool, pointOk: Bytes -> bool)

  function JwkOf(codec: Codec, k: PublicKey): Jwk { Jwk(true, true, true, true, k.id, codec.encode(k.key)) }

  function Jwks(codec: Codec, keys: seq<PublicKey>): (r: seq<Jwk>)
    ensures |r| == |keys| && forall i :: 0 <= i < |r| ==> r[i] == JwkOf(codec, keys[i])
  {
    if keys == [] then [] else [JwkOf(codec, keys[0])] + Jwks(codec, keys[1..])
  }

  /** What one published key is read back as. */
  function ReadJwk(codec: Codec, j: Jwk): Option<PublicKey> {
    if !(j.okp && j.ed25519 && j.sig && j.eddsa) || !codec.idOk(j.kid) then None
    else
      match codec.decode(j.x)
      case Some(key) => if |key| == 32 && codec.pointOk(key) then Some(PublicKey(j.kid, key)) else None
      case None => None
  }

  /** A published key is read exactly when all its members are in order, as the key its text decodes to. */
  lemma ReadJwkIs(codec: Codec, j: Jwk, k: PublicKey)
    ensures ReadJwk(codec, j) == Some(k) <==>
      && j.okp && j.ed25519 && j.sig && j.eddsa && codec.idOk(j.kid) && k.id == j.kid
      && codec.decode(j.x) == Some(k.key) && |k.key| == 32 && codec.pointOk(k.key)
  {
  }

  /** All of them, or nothing. */
  function ReadJwks(codec: Codec, jwks: seq<Jwk>): Option<seq<PublicKey>> {
    if jwks == [] then Some([])
    else
      match (ReadJwk(codec, jwks[0]), ReadJwks(codec, jwks[1..]))
      case (Some(key), Some(rest)) => Some([key] + rest)
      case _ => None
  }

  /** What a published list reads back as. */
  ghost function Parsed(codec: Codec, jwks: seq<Jwk>): Result<seq<PublicKey>, KeySetError> {
    match ReadJwks(codec, jwks)
    case None => Err(InvalidJwks)
    case Some(keys) => SetOf(keys)
  }

  lemma {:induction false} ReadAllOfThem(codec: Codec, jwks: seq<Jwk>, keys: seq<PublicKey>)
    requires |keys| == |jwks| && forall i :: 0 <= i < |jwks| ==> ReadJwk(codec, jwks[i]) == Some(keys[i])
    ensures ReadJwks(codec, jwks) == Some(keys)
  {
    hide ReadJwk;
    if jwks != [] {
      ReadAllOfThem(codec, jwks[1..], keys[1..]);
      assert keys == [keys[0]] + keys[1..];
    }
  }

  lemma {:induction false} OneUnreadable(codec: Codec, jwks: seq<Jwk>, i: nat)
    requires i < |jwks| && ReadJwk(codec, jwks[i]).None?
    ensures ReadJwks(codec, jwks).None?
  {
    hide ReadJwk;
    if i > 0 { OneUnreadable(codec, jwks[1..], i - 1); }
  }

  /** Parsing a published list back. */
  method ParseJwks(codec: Codec, jwks: seq<Jwk>) returns (r: Result<seq<PublicKey>, KeySetError>)
    ensures r == Parsed(codec, jwks)
  {
    hide ReadJwk;
    var keys: seq<PublicKey> := [];
    for i := 0 to |jwks|
      invariant |keys| == i && forall j :: 0 <= j < i ==> ReadJwk(codec, jwks[j]) == Some(keys[j])
    {
      var one := ReadJwk(codec, jwks[i]);
      if one.None? {
        OneUnreadable(codec, jwks, i);
        return Err(InvalidJwks);
      }
      keys := keys + [one.value];
    }
    ReadAllOfThem(codec, jwks, keys);
    r := NewKeySet(keys);
  }

  const MAX_JWKS_BYTES := 16 * 1024

  /** The same from text. `read` is the strict JSON reader, which refuses unknown members. */
  method ParseJwksText(codec: Codec, encoded: Bytes, read: Bytes -> Option<seq<Jwk>>)
    returns (r: Result<seq<PublicKey>, KeySetError>)
    ensures r == if encoded == [] || |encoded| > 16_384 || read(encoded).None? then Err(InvalidJwks)
                 else Parsed(codec, read(encoded).value)
  {
    if encoded == [] || |encoded| > MAX_JWKS_BYTES { return Err(InvalidJwks); }
    var document := read(encoded);
    if document.None? { return Err(InvalidJwks); }
    r := ParseJwks(codec, document.value);
  }

  /** Publication loses nothing: parsing a published key set gives the key set. */
  lemma PublishedReadsBack(codec: Codec, keys: seq<PublicKey>)
    requires KeySet(keys)
    requires forall i :: 0 <= i < |keys| ==>
      && codec.decode(codec.encode(keys[i].key)) == Some(keys[i].key)
      && codec.idOk(keys[i].id) && |keys[i].key| == 32 && codec.pointOk(keys[i].key)
    ensures Parsed(codec, Jwks(codec, keys)) == Ok(keys)
  {
    assert forall i :: 0 <= i < |keys| ==> ReadJwk(codec, Jwks(codec, keys)[i]) == Some(keys[i]);
    ReadAllOfThem(codec, Jwks(codec, keys), keys);
  }
}
