/** Externalize, then resolve: what comes back, what stays inline, and which references are left behind. */
module BlobRoundTrip {
  import opened Base
  import opened BlobStore
  import opened BlobWire

  predicate NoBlobs(j: Json) {
    forall i | 0 <= i < |Parts(j)| :: !Tagged(DataOf(Parts(j)[i]), "Blob")
  }

  lemma {:induction false} HeldAfterKeeps(c: Codec, o: Options, held: Held, parts: seq<Json>)
    requires AllFiles(parts) && HeldOk(c, held)
    ensures HeldOk(c, HeldAfter(c, o, held, parts)) && Keeps(held, HeldAfter(c, o, held, parts))
    decreases |parts|
  {
    if parts != [] {
      var bytes := Oversized(c, o.maxInline, DataOf(parts[0]));
      if bytes.Some? {
        PutKeeps(c, held, bytes.value, MediaType(o, parts[0]), StringField(parts[0], "fileName"));
      }
      HeldAfterKeeps(c, o, MovedHeld(c, o, held, parts[0]), parts[1..]);
    }
  }

  /** Data that moved, with the store it moved to, and the bytes it stood for. */
  predicate MovedTo(c: Codec, after: Held, d: Json, bytes: Bytes) {
    var id := c.hash(bytes);
    id in after && after[id].bytes == bytes && d == BlobOf(after[id].ref)
  }

  /** What becomes of one part's data, in a store that loses nothing afterwards. */
  lemma MovedOne(c: Codec, o: Options, held: Held, part: Json, after: Held)
    requires IsFile(part) && HeldOk(c, held) && CollisionFree(c) && Keeps(MovedHeld(c, o, held, part), after)
    ensures HeldOk(c, MovedHeld(c, o, held, part))
    ensures var d, bytes := MovedData(c, o, held, part), Oversized(c, o.maxInline, DataOf(part));
            if bytes.None? then d == DataOf(part) else MovedTo(c, after, d, bytes.value)
  {
    var bytes := Oversized(c, o.maxInline, DataOf(part));
    if bytes.Some? { PutKeeps(c, held, bytes.value, MediaType(o, part), StringField(part, "fileName")); }
  }

  lemma MovedCons(c: Codec, o: Options, held: Held, parts: seq<Json>)
    requires AllFiles(parts) && parts != []
    ensures var next := MovedHeld(c, o, held, parts[0]);
            && HeldAfter(c, o, held, parts) == HeldAfter(c, o, next, parts[1..])
            && MovedEach(c, o, held, parts) == [MovedData(c, o, held, parts[0])] + MovedEach(c, o, next, parts[1..])
  {
  }

  /** What became of each part's data, whatever else moved before and after it. */
  lemma {:induction false} MovedAt(c: Codec, o: Options, held: Held, parts: seq<Json>, i: nat)
    requires AllFiles(parts) && HeldOk(c, held) && CollisionFree(c) && i < |parts|
    ensures var d, bytes := MovedEach(c, o, held, parts)[i], Oversized(c, o.maxInline, DataOf(parts[i]));
            if bytes.None? then d == DataOf(parts[i]) else MovedTo(c, HeldAfter(c, o, held, parts), d, bytes.value)
    decreases |parts|
  {
    var next := MovedHeld(c, o, held, parts[0]);
    MovedCons(c, o, held, parts);
    MovedOne(c, o, held, parts[0], next);
    if i > 0 {
      MovedAt(c, o, next, parts[1..], i - 1);
    } else {
      HeldAfterKeeps(c, o, next, parts[1..]);
      MovedOne(c, o, held, parts[0], HeldAfter(c, o, next, parts[1..]));
    }
  }

  /** What comes back for each part: its data, or the bytes as `resolve` writes them. */
  function Restored(c: Codec, o: Options, parts: seq<Json>): (ds: seq<Json>)
    requires AllFiles(parts)
    ensures |ds| == |parts| && Objects(ds)
  {
    seq(|parts|, i requires 0 <= i < |parts| =>
      var bytes := Oversized(c, o.maxInline, DataOf(parts[i]));
      if bytes.Some? then Inline(c, bytes.value) else DataOf(parts[i]))
  }

  lemma {:induction false} ResolvesEach(c: Codec, held: Held, ds: seq<Json>, es: seq<Json>)
    requires |ds| == |es| && forall i | 0 <= i < |ds| :: ResolvedData(c, held, ds[i]) == Got(es[i])
    ensures ResolvedEach(c, held, ds) == Got(es)
    decreases |ds|
  {
    if ds != [] {
      ResolvesEach(c, held, ds[1..], es[1..]);
      assert es == [es[0]] + es[1..];
    }
  }

  /** A moved part's reference resolves to its own bytes, in any store that has lost nothing since. */
  lemma MovedResolves(c: Codec, after: Held, later: Held, d: Json, bytes: Bytes)
    requires MovedTo(c, after, d, bytes) && Keeps(after, later) && HeldOk(c, after)
    ensures ResolvedData(c, later, d) == Got(Inline(c, bytes))
  {
    RefReadsBack(after[c.hash(bytes)].ref);
  }

  lemma ExternalizedResolves(c: Codec, o: Options, held: Held, later: Held, j: Json)
    requires HeldOk(c, held) && CollisionFree(c) && NoBlobs(j) && Keeps(HeldAfter(c, o, held, Parts(j)), later)
    ensures ResolvedEach(c, later, MovedEach(c, o, held, Parts(j))) == Got(Restored(c, o, Parts(j)))
  {
    var parts, after := Parts(j), HeldAfter(c, o, held, Parts(j));
    var ds := MovedEach(c, o, held, parts);
    HeldAfterKeeps(c, o, held, parts);
    forall i | 0 <= i < |ds| ensures ResolvedData(c, later, ds[i]) == Got(Restored(c, o, parts)[i]) {
      MovedAt(c, o, held, parts, i);
      var bytes := Oversized(c, o.maxInline, DataOf(parts[i]));
      if bytes.Some? { MovedResolves(c, after, later, ds[i], bytes.value); }
    }
    ResolvesEach(c, later, ds, Restored(c, o, parts));
  }

  /** The data that moved was written as `resolve` writes it: nothing but the tag, and the bytes' own base64. */
  predicate Canonical(c: Codec, o: Options, j: Json) {
    forall i | 0 <= i < |Parts(j)| ::
      var bytes := Oversized(c, o.maxInline, DataOf(Parts(j)[i]));
      bytes.Some? ==> DataOf(Parts(j)[i]) == Inline(c, bytes.value)
  }

  /**
   MAIN: externalizing a document without references and resolving it, with whatever the store has taken in
   since, always succeeds -- and gives back the document exactly when the data that moved was canonical.
   */
  lemma RoundTripIff(c: Codec, o: Options, held: Held, later: Held, j: Json)
    requires HeldOk(c, held) && CollisionFree(c) && NoBlobs(j) && Keeps(HeldAfter(c, o, held, Parts(j)), later)
    ensures Resolved(c, later, Externalized(c, o, held, j)).Got?
    ensures Resolved(c, later, Externalized(c, o, held, j)) == Got(j) <==> Canonical(c, o, j)
  {
    var parts := Parts(j);
    var ds, es := MovedEach(c, o, held, parts), Restored(c, o, parts);
    ExternalizedResolves(c, o, held, later, j);
    RebuiltCount(j, ds);
    RebuiltTwice(j, ds, es);
    assert Resolved(c, later, Externalized(c, o, held, j)) == Got(Rebuilt(j, es));
    RebuiltCount(j, es);
    RebuiltSame(j);
    if Canonical(c, o, j) {
      assert es == Datas(parts);
    } else {
      var i :| 0 <= i < |parts| && (var bytes := Oversized(c, o.maxInline, DataOf(parts[i]));
                                    bytes.Some? && DataOf(parts[i]) != Inline(c, bytes.value));
      assert es[i] != Datas(parts)[i];
    }
  }

  /** Data with one field more than `resolve` writes, large enough to move: it is not what comes back. */
  lemma ExtraFieldIsLost(c: Codec, o: Options, held: Held, bytes: Bytes)
    requires HeldOk(c, held) && CollisionFree(c) && |bytes| > o.maxInline && c.decode(c.encode(bytes)) == Some(bytes)
    ensures var data := JObject(map["_tag" := JString("Bytes"), "base64" := JString(c.encode(bytes)), "note" := JNull]);
            var j := JObject(map["type" := JString("file"), "data" := data]);
            && Resolved(c, HeldAfter(c, o, held, Parts(j)), Externalized(c, o, held, j)).Got?
            && Resolved(c, HeldAfter(c, o, held, Parts(j)), Externalized(c, o, held, j)) != Got(j)
  {
    var data := JObject(map["_tag" := JString("Bytes"), "base64" := JString(c.encode(bytes)), "note" := JNull]);
    var j := JObject(map["type" := JString("file"), "data" := data]);
    assert Parts(j) == [j] && DataOf(j) == data && Oversized(c, o.maxInline, data) == Some(bytes);
    assert "note" in data.fields && "note" !in Inline(c, bytes).fields;
    assert !Canonical(c, o, j) by { assert DataOf(Parts(j)[0]) != Inline(c, bytes); }
    assert NoBlobs(j) by { assert |"Blob"| != |"Bytes"|; }
    RoundTripIff(c, o, held, HeldAfter(c, o, held, Parts(j)), j);
  }

  /** MAIN: afterwards no file part carries decodable inline bytes over the threshold. */
  lemma NothingOversizedIsLeft(c: Codec, o: Options, held: Held, j: Json, i: nat)
    ensures var out := Externalized(c, o, held, j);
            |Parts(out)| == |Parts(j)| && (i < |Parts(out)| ==> Oversized(c, o.maxInline, DataOf(Parts(out)[i])).None?)
  {
    var parts := Parts(j);
    var ds := MovedEach(c, o, held, parts);
    RebuiltCount(j, ds);
    if i < |parts| {
      MovedIsSmall(c, o, held, parts, i);
      assert Datas(Parts(Externalized(c, o, held, j)))[i] == ds[i];
    }
  }

  /** Data left in place was not over the threshold, and a reference holds no bytes. */
  lemma {:induction false} MovedIsSmall(c: Codec, o: Options, held: Held, parts: seq<Json>, i: nat)
    requires AllFiles(parts) && i < |parts|
    ensures Oversized(c, o.maxInline, MovedEach(c, o, held, parts)[i]).None?
    decreases |parts|
  {
    if i > 0 {
      MovedIsSmall(c, o, MovedHeld(c, o, held, parts[0]), parts[1..], i - 1);
    } else {
      assert "Blob" != "Bytes" by { assert |"Blob"| != |"Bytes"|; }
    }
  }

  // ---------------------------------------------------------------------- references

  /** The bytes that move, in document order. */
  function Replaced(c: Codec, o: Options, parts: seq<Json>): seq<Bytes>
    requires AllFiles(parts)
    decreases |parts|
  {
    if parts == [] then []
    else
      var bytes := Oversized(c, o.maxInline, DataOf(parts[0]));
      (if bytes.Some? then [bytes.value] else []) + Replaced(c, o, parts[1..])
  }

  /** References that stand, one by one and in order, for these contents in this store. */
  predicate StandFor(c: Codec, held: Held, refs: seq<Ref>, contents: seq<Bytes>) {
    && |refs| == |contents|
    && forall i | 0 <= i < |refs| ::
         && refs[i].id in held && held[refs[i].id] == Blob(refs[i], contents[i])
         && refs[i].sha256 == c.hash(contents[i]) && refs[i].byteLength == |contents[i]|
  }

  lemma {:induction false} RefsOfMoved(c: Codec, o: Options, after: Held, parts: seq<Json>, ds: seq<Json>)
    requires AllFiles(parts) && |ds| == |parts| && HeldOk(c, after)
    requires forall i | 0 <= i < |parts| :: !Tagged(DataOf(parts[i]), "Blob")
    requires forall i | 0 <= i < |parts| ::
               var bytes := Oversized(c, o.maxInline, DataOf(parts[i]));
               if bytes.None? then ds[i] == DataOf(parts[i]) else MovedTo(c, after, ds[i], bytes.value)
    ensures RefsIn(ds).Some? && StandFor(c, after, RefsIn(ds).value, Replaced(c, o, parts))
    decreases |parts|
  {
    if parts != [] {
      RefsOfMoved(c, o, after, parts[1..], ds[1..]);
      var bytes := Oversized(c, o.maxInline, DataOf(parts[0]));
      if bytes.Some? {
        RefReadsBack(after[c.hash(bytes.value)].ref);
        StandsForOneMore(c, after, bytes.value, RefsIn(ds[1..]).value, Replaced(c, o, parts[1..]));
      } else {
        assert [] + Replaced(c, o, parts[1..]) == Replaced(c, o, parts[1..]);
      }
    }
  }

  lemma StandsForOneMore(c: Codec, held: Held, bytes: Bytes, refs: seq<Ref>, contents: seq<Bytes>)
    requires HeldOk(c, held) && StandFor(c, held, refs, contents)
    requires c.hash(bytes) in held && held[c.hash(bytes)].bytes == bytes
    ensures StandFor(c, held, [held[c.hash(bytes)].ref] + refs, [bytes] + contents)
  {
  }

  /**
   MAIN: the references of an externalized document are, in document order, exactly those of the parts that
   were replaced: each names its own content in the store, by its own hash and length, as the store holds it.
   */
  lemma ReferencesAreTheReplaced(c: Codec, o: Options, held: Held, j: Json)
    requires HeldOk(c, held) && CollisionFree(c) && NoBlobs(j)
    ensures var refs := RefsIn(Datas(Parts(Externalized(c, o, held, j))));
            refs.Some? && StandFor(c, HeldAfter(c, o, held, Parts(j)), refs.value, Replaced(c, o, Parts(j)))
  {
    var parts, after := Parts(j), HeldAfter(c, o, held, Parts(j));
    var ds := MovedEach(c, o, held, parts);
    HeldAfterKeeps(c, o, held, parts);
    forall i | 0 <= i < |parts|
      ensures var bytes := Oversized(c, o.maxInline, DataOf(parts[i]));
              if bytes.None? then ds[i] == DataOf(parts[i]) else MovedTo(c, after, ds[i], bytes.value)
    {
      MovedAt(c, o, held, parts, i);
    }
    RefsOfMoved(c, o, after, parts, ds);
    RebuiltCount(j, ds);
  }

  /** MAIN: the same content, however often and wherever it occurs, is stored once and referred to alike. */
  lemma SameBytesSameRef(c: Codec, o: Options, held: Held, j: Json, a: nat, b: nat)
    requires HeldOk(c, held) && CollisionFree(c) && NoBlobs(j)
    ensures var refs := RefsIn(Datas(Parts(Externalized(c, o, held, j))));
            var contents := Replaced(c, o, Parts(j));
            refs.Some? && |refs.value| == |contents|
            && (a < |contents| && b < |contents| && contents[a] == contents[b] ==> refs.value[a] == refs.value[b])
  {
    ReferencesAreTheReplaced(c, o, held, j);
    HeldAfterKeeps(c, o, held, Parts(j));
  }
}
