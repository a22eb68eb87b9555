/**
 Content-addressed blobs and the in-memory store (src/blob/BlobStore.ts:179-194, 288-313). The hash and base64
 are arbitrary functions; what is assumed of them is said where it is used.
 */
module BlobStore {
  import opened Base

  type Bytes = seq<bv8>

  datatype Codec = Codec(hash: Bytes -> string, encode: Bytes -> string, decode: string -> Option<Bytes>)

  /** Distinct contents have distinct hashes. */
  ghost predicate CollisionFree(c: Codec) {
    forall a: Bytes, b: Bytes :: c.hash(a) == c.hash(b) ==> a == b
  }

  datatype Ref = Ref(id: string, mediaType: string, byteLength: nat, sha256: string, fileName: Option<string>)

  datatype Blob = Blob(ref: Ref, bytes: Bytes)

  type Held = map<string, Blob>

  /** `describe`: a reference computed from the content, never taken on trust. */
  function Describe(c: Codec, bytes: Bytes, mediaType: string, fileName: Option<string>): Ref {
    Ref(c.hash(bytes), mediaType, |bytes|, c.hash(bytes), fileName)
  }

  /** Every blob is under its own hash, described as it is. */
  predicate HeldOk(c: Codec, held: Held) {
    forall id | id in held ::
      && c.hash(held[id].bytes) == id && held[id].ref.id == id && held[id].ref.sha256 == id
      && held[id].ref.byteLength == |held[id].bytes|
  }

  /** Nothing held is lost or described anew. */
  predicate Keeps(before: Held, after: Held) {
    forall id | id in before :: id in after && after[id] == before[id]
  }

  function Put(c: Codec, held: Held, bytes: Bytes, mediaType: string, fileName: Option<string>): Held {
    var ref := Describe(c, bytes, mediaType, fileName);
    if ref.id in held then held else held[ref.id := Blob(ref, bytes)]
  }

  /** First write wins: what was held stays, and the content is there, once, under its hash. */
  lemma PutKeeps(c: Codec, held: Held, bytes: Bytes, mediaType: string, fileName: Option<string>)
    requires HeldOk(c, held)
    ensures var after := Put(c, held, bytes, mediaType, fileName);
            && HeldOk(c, after) && Keeps(held, after) && c.hash(bytes) in after
            && (CollisionFree(c) ==> after[c.hash(bytes)].bytes == bytes)
            && after[c.hash(bytes)].ref.id == c.hash(bytes)
  {
  }

  class MemoryStore {
    const codec: Codec
    var held: Held

    ghost predicate Valid()
      reads this
    {
      HeldOk(codec, held)
    }

    constructor (c: Codec)
      ensures Valid() && codec == c && held == map[]
    {
      codec, held := c, map[];
    }

    /** The reference handed out is the one held, whatever the metadata said this time. */
    method PutBytes(bytes: Bytes, mediaType: string, fileName: Option<string>) returns (ref: Ref)
      requires Valid()
      modifies this
      ensures Valid() && held == Put(codec, old(held), bytes, mediaType, fileName)
      ensures ref.id == codec.hash(bytes) && ref.id in held && held[ref.id].ref == ref
    {
      ref := Describe(codec, bytes, mediaType, fileName);
      PutKeeps(codec, held, bytes, mediaType, fileName);
      if ref.id !in held { held := held[ref.id := Blob(ref, bytes)]; }
      ref := held[ref.id].ref;
    }

    method Get(ref: Ref) returns (bytes: Option<Bytes>)
      requires Valid()
      ensures bytes == if ref.id in held then Some(held[ref.id].bytes) else None
      ensures bytes.Some? ==> codec.hash(bytes.value) == ref.id
    {
      bytes := if ref.id in held then Some(held[ref.id].bytes) else None;
    }

    method Remove(ref: Ref)
      requires Valid()
      modifies this
      ensures Valid() && ref.id !in held
      ensures forall id | id != ref.id ::
                (id in held <==> id in old(held)) && (id in held ==> held[id] == old(held)[id])
    {
      held := map id | id in held && id != ref.id :: held[id];
    }
  }
}
