/**
 Moving large file data out of a wire document and back (src/blob/BlobWire.ts:44-61, 83-158). A document's file
 parts are what its walk visits; each transformation is stated by what it does to their data, in order.
 An object is a map of its fields: the order of keys is not part of this model.
 */
module BlobWire {
  import opened Base
  import opened BlobStore

  datatype Json =
    | JNull
    | JBool(b: bool)
    | JNumber(n: real)
    | JString(s: string)
    | JArray(items: seq<Json>)
    | JObject(fields: map<string, Json>)

  // ----------------------------------------------------------------------- the walk

  /** A file part: an object with `type` "file" and object `data`. */
  predicate IsFile(j: Json) {
    && j.JObject? && "type" in j.fields && j.fields["type"] == JString("file")
    && "data" in j.fields && j.fields["data"].JObject?
  }

  /** The only other thing the walk enters: an object's `content` array. */
  predicate HasContent(j: Json) {
    j.JObject? && !IsFile(j) && "content" in j.fields && j.fields["content"].JArray?
  }

  /** The file parts of a document, in document order. */
  function Parts(j: Json): (ps: seq<Json>)
    ensures forall i | 0 <= i < |ps| :: IsFile(ps[i])
    decreases j, 0
  {
    if IsFile(j) then [j] else if HasContent(j) then PartsEach(j.fields["content"].items) else []
  }

  function PartsEach(js: seq<Json>): (ps: seq<Json>)
    ensures forall i | 0 <= i < |ps| :: IsFile(ps[i])
    decreases js, 1
  {
    if js == [] then [] else Parts(js[0]) + PartsEach(js[1..])
  }

  /** `mapFileData`: the document rebuilt with new data for each file part. */
  function Rebuilt(j: Json, ds: seq<Json>): Json
    requires |ds| == |Parts(j)|
    decreases j, 0
  {
    if IsFile(j) then JObject(j.fields["data" := ds[0]])
    else if HasContent(j) then JObject(j.fields["content" := JArray(RebuiltEach(j.fields["content"].items, ds))])
    else j
  }

  function RebuiltEach(js: seq<Json>, ds: seq<Json>): (out: seq<Json>)
    requires |ds| == |PartsEach(js)|
    ensures |out| == |js|
    decreases js, 1
  {
    if js == [] then []
    else
      var n := |Parts(js[0])|;
      [Rebuilt(js[0], ds[..n])] + RebuiltEach(js[1..], ds[n..])
  }

  function DataOf(part: Json): Json
    requires IsFile(part)
  {
    part.fields["data"]
  }

  function Datas(parts: seq<Json>): (ds: seq<Json>)
    requires forall i | 0 <= i < |parts| :: IsFile(parts[i])
    ensures |ds| == |parts| && forall i | 0 <= i < |ds| :: ds[i] == DataOf(parts[i])
  {
    seq(|parts|, i requires 0 <= i < |parts| => DataOf(parts[i]))
  }

  predicate AllFiles(parts: seq<Json>) {
    forall i | 0 <= i < |parts| :: IsFile(parts[i])
  }

  predicate Objects(ds: seq<Json>) {
    forall i | 0 <= i < |ds| :: ds[i].JObject?
  }

  function With(part: Json, d: Json): Json
    requires IsFile(part)
  {
    JObject(part.fields["data" := d])
  }

  function WithEach(parts: seq<Json>, ds: seq<Json>): (out: seq<Json>)
    requires |ds| == |parts| && forall i | 0 <= i < |parts| :: IsFile(parts[i])
    ensures |out| == |parts| && forall i | 0 <= i < |out| :: out[i] == With(parts[i], ds[i])
  {
    seq(|parts|, i requires 0 <= i < |parts| => With(parts[i], ds[i]))
  }

  // -------------------------------------------------------------- the walk is lawful

  /** Putting back what is there changes nothing. */
  lemma {:induction false} RebuiltSame(j: Json)
    ensures Rebuilt(j, Datas(Parts(j))) == j
    decreases j, 0
  {
    if IsFile(j) {
      assert j.fields["data" := j.fields["data"]] == j.fields;
    } else if HasContent(j) {
      RebuiltSameEach(j.fields["content"].items);
      assert j.fields["content" := j.fields["content"]] == j.fields;
    }
  }

  lemma {:induction false} RebuiltSameEach(js: seq<Json>)
    ensures RebuiltEach(js, Datas(PartsEach(js))) == js
    decreases js, 1
  {
    if js != [] {
      var n, ds := |Parts(js[0])|, Datas(PartsEach(js));
      RebuiltSame(js[0]);
      RebuiltSameEach(js[1..]);
      assert ds[..n] == Datas(Parts(js[0])) && ds[n..] == Datas(PartsEach(js[1..]));
    }
  }

  lemma WithAppend(ps: seq<Json>, qs: seq<Json>, ds: seq<Json>)
    requires AllFiles(ps) && AllFiles(qs) && |ds| == |ps| + |qs|
    ensures AllFiles(ps + qs) && WithEach(ps + qs, ds) == WithEach(ps, ds[..|ps|]) + WithEach(qs, ds[|ps|..])
  {
  }

  /** The rebuilt document has the same parts, each with its new data. */
  lemma {:induction false} PartsRebuilt(j: Json, ds: seq<Json>)
    requires |ds| == |Parts(j)| && Objects(ds)
    ensures Parts(Rebuilt(j, ds)) == WithEach(Parts(j), ds)
    decreases j, 0
  {
    if IsFile(j) {
      assert IsFile(Rebuilt(j, ds));
      assert ds == [ds[0]];
    } else if HasContent(j) {
      PartsRebuiltEach(j.fields["content"].items, ds);
      assert !IsFile(Rebuilt(j, ds)) && HasContent(Rebuilt(j, ds));
    }
  }

  lemma PartsCons(j: Json, js: seq<Json>)
    ensures PartsEach([j] + js) == Parts(j) + PartsEach(js)
  {
    assert ([j] + js)[1..] == js;
  }

  lemma {:induction false} PartsRebuiltEach(js: seq<Json>, ds: seq<Json>)
    requires |ds| == |PartsEach(js)| && Objects(ds)
    ensures PartsEach(RebuiltEach(js, ds)) == WithEach(PartsEach(js), ds)
    decreases js, 1
  {
    if js != [] {
      var n := |Parts(js[0])|;
      PartsRebuilt(js[0], ds[..n]);
      PartsRebuiltEach(js[1..], ds[n..]);
      WithAppend(Parts(js[0]), PartsEach(js[1..]), ds);
      PartsCons(Rebuilt(js[0], ds[..n]), RebuiltEach(js[1..], ds[n..]));
    }
  }

  lemma RebuiltCount(j: Json, ds: seq<Json>)
    requires |ds| == |Parts(j)| && Objects(ds)
    ensures |Parts(Rebuilt(j, ds))| == |Parts(j)| && Datas(Parts(Rebuilt(j, ds))) == ds
  {
    PartsRebuilt(j, ds);
  }

  /** The last rebuilding is the one that counts. */
  lemma {:induction false} RebuiltTwice(j: Json, ds: seq<Json>, es: seq<Json>)
    requires |ds| == |es| == |Parts(j)| == |Parts(Rebuilt(j, ds))| && Objects(ds)
    ensures Rebuilt(Rebuilt(j, ds), es) == Rebuilt(j, es)
    decreases j, 0
  {
    if IsFile(j) {
      assert j.fields["data" := ds[0]]["data" := es[0]] == j.fields["data" := es[0]];
    } else if HasContent(j) {
      var items := j.fields["content"].items;
      assert !IsFile(Rebuilt(j, ds)) && HasContent(Rebuilt(j, ds));
      RebuiltTwiceEach(items, ds, es);
      var out := RebuiltEach(items, es);
      var once := JArray(RebuiltEach(items, ds));
      assert j.fields["content" := once]["content" := JArray(out)] == j.fields["content" := JArray(out)];
    }
  }

  lemma {:induction false} RebuiltTwiceEach(js: seq<Json>, ds: seq<Json>, es: seq<Json>)
    requires |ds| == |es| == |PartsEach(js)| == |PartsEach(RebuiltEach(js, ds))| && Objects(ds)
    ensures RebuiltEach(RebuiltEach(js, ds), es) == RebuiltEach(js, es)
    decreases js, 1
  {
    if js != [] {
      var n := |Parts(js[0])|;
      var out := RebuiltEach(js, ds);
      assert out[0] == Rebuilt(js[0], ds[..n]) && out[1..] == RebuiltEach(js[1..], ds[n..]);
      RebuiltCount(js[0], ds[..n]);
      RebuiltTwice(js[0], ds[..n], es[..n]);
      RebuiltTwiceEach(js[1..], ds[n..], es[n..]);
    }
  }

  // ------------------------------------------------------------------- references on the wire

  function EncodeRef(ref: Ref): Json {
    var fields := map["id" := JString(ref.id), "mediaType" := JString(ref.mediaType),
                      "byteLength" := JNumber(ref.byteLength as real), "sha256" := JString(ref.sha256)];
    JObject(if ref.fileName.None? then fields else fields["fileName" := JString(ref.fileName.value)])
  }

  predicate IsNatural(j: Json) {
    j.JNumber? && j.n >= 0.0 && j.n == j.n.Floor as real
  }

  /** `BlobRef`'s schema; other fields are ignored. */
  function DecodeRef(j: Json): Option<Ref> {
    if !j.JObject? then None
    else
      var f := j.fields;
      if "id" in f && f["id"].JString? && "mediaType" in f && f["mediaType"].JString?
         && "byteLength" in f && IsNatural(f["byteLength"]) && "sha256" in f && f["sha256"].JString?
         && ("fileName" in f ==> f["fileName"].JString?)
      then Some(Ref(f["id"].s, f["mediaType"].s, f["byteLength"].n.Floor, f["sha256"].s,
                    if "fileName" in f then Some(f["fileName"].s) else None))
      else None
  }

  lemma RefReadsBack(ref: Ref)
    ensures DecodeRef(EncodeRef(ref)) == Some(ref)
  {
  }

  predicate Tagged(data: Json, tag: string) {
    data.JObject? && "_tag" in data.fields && data.fields["_tag"] == JString(tag)
  }

  /** `{ _tag: "Blob", ref }`. */
  function BlobOf(ref: Ref): Json {
    JObject(map["_tag" := JString("Blob"), "ref" := EncodeRef(ref)])
  }

  /** `{ _tag: "Bytes", base64 }`, as `resolve` writes it. */
  function Inline(c: Codec, bytes: Bytes): Json {
    JObject(map["_tag" := JString("Bytes"), "base64" := JString(c.encode(bytes))])
  }

  // --------------------------------------------------------------------- externalize

  /** The bytes of data that must move: inline, decodable, and over the threshold. */
  function Oversized(c: Codec, maxInline: nat, data: Json): Option<Bytes> {
    if Tagged(data, "Bytes") && "base64" in data.fields && data.fields["base64"].JString? then
      var decoded := c.decode(data.fields["base64"].s);
      if decoded.Some? && |decoded.value| > maxInline then decoded else None
    else None
  }

  function StringField(part: Json, key: string): Option<string> {
    if part.JObject? && key in part.fields && part.fields[key].JString? then Some(part.fields[key].s) else None
  }

  datatype Options = Options(maxInline: nat, defaultMediaType: Option<string>)

  function MediaType(o: Options, part: Json): string {
    var own := StringField(part, "mediaType");
    if own.Some? then own.value
    else if o.defaultMediaType.Some? then o.defaultMediaType.value else "application/octet-stream"
  }

  function MovedHeld(c: Codec, o: Options, held: Held, part: Json): Held
    requires IsFile(part)
  {
    var bytes := Oversized(c, o.maxInline, DataOf(part));
    if bytes.None? then held else Put(c, held, bytes.value, MediaType(o, part), StringField(part, "fileName"))
  }

  /** A part's data afterwards: as it was, or the reference the store holds for it. */
  function MovedData(c: Codec, o: Options, held: Held, part: Json): (d: Json)
    requires IsFile(part)
    ensures d.JObject?
  {
    var bytes := Oversized(c, o.maxInline, DataOf(part));
    var after := MovedHeld(c, o, held, part);
    if bytes.None? || c.hash(bytes.value) !in after then DataOf(part) else BlobOf(after[c.hash(bytes.value)].ref)
  }

  /** The store after each of the parts in turn. */
  function HeldAfter(c: Codec, o: Options, held: Held, parts: seq<Json>): Held
    requires AllFiles(parts)
    decreases |parts|
  {
    if parts == [] then held else HeldAfter(c, o, MovedHeld(c, o, held, parts[0]), parts[1..])
  }

  function MovedEach(c: Codec, o: Options, held: Held, parts: seq<Json>): (ds: seq<Json>)
    requires AllFiles(parts)
    ensures |ds| == |parts| && Objects(ds)
    decreases |parts|
  {
    if parts == [] then []
    else [MovedData(c, o, held, parts[0])] + MovedEach(c, o, MovedHeld(c, o, held, parts[0]), parts[1..])
  }

  function Externalized(c: Codec, o: Options, held: Held, j: Json): Json {
    Rebuilt(j, MovedEach(c, o, held, Parts(j)))
  }

  lemma {:induction false} MovedAppend(c: Codec, o: Options, held: Held, ps: seq<Json>, qs: seq<Json>)
    requires AllFiles(ps) && AllFiles(qs)
    ensures HeldAfter(c, o, held, ps + qs) == HeldAfter(c, o, HeldAfter(c, o, held, ps), qs)
    ensures MovedEach(c, o, held, ps + qs) == MovedEach(c, o, held, ps) + MovedEach(c, o, HeldAfter(c, o, held, ps), qs)
    decreases |ps|
  {
    if ps == [] {
      assert ps + qs == qs;
    } else {
      assert (ps + qs)[1..] == ps[1..] + qs && (ps + qs)[0] == ps[0];
      MovedAppend(c, o, MovedHeld(c, o, held, ps[0]), ps[1..], qs);
    }
  }

  lemma PartsSnoc(js: seq<Json>, j: Json)
    ensures PartsEach(js + [j]) == PartsEach(js) + Parts(j)
  {
    PartsConcat(js, [j]);
    PartsCons(j, []);
    assert [j] == [j] + [] && Parts(j) + [] == Parts(j);
  }

  lemma RebuiltCons(j: Json, js: seq<Json>, ds: seq<Json>)
    requires |ds| == |Parts(j)| + |PartsEach(js)|
    ensures |PartsEach([j] + js)| == |ds|
    ensures RebuiltEach([j] + js, ds) == [Rebuilt(j, ds[..|Parts(j)|])] + RebuiltEach(js, ds[|Parts(j)|..])
  {
    PartsCons(j, js);
    assert ([j] + js)[1..] == js;
  }

  lemma Slices(ds: seq<Json>, es: seq<Json>, n: nat)
    requires n <= |ds|
    ensures (ds + es)[..n] == ds[..n] && (ds + es)[n..] == ds[n..] + es
  {
  }

  lemma {:induction false} RebuiltSnoc(js: seq<Json>, j: Json, ds: seq<Json>, es: seq<Json>)
    requires |ds| == |PartsEach(js)| && |es| == |Parts(j)|
    ensures |PartsEach(js + [j])| == |ds + es|
    ensures RebuiltEach(js + [j], ds + es) == RebuiltEach(js, ds) + [Rebuilt(j, es)]
    decreases |js|
  {
    PartsSnoc(js, j);
    if js == [] {
      RebuiltCons(j, [], es);
      assert js + [j] == [j] + [] && ds + es == es && es[..|es|] == es;
    } else {
      RebuiltSnoc(js[1..], j, ds[|Parts(js[0])|..], es);
      RebuiltSnocMore(js[0], js[1..], j, ds, es);
      assert js == [js[0]] + js[1..];
    }
  }

  lemma RebuiltSnocMore(head: Json, tail: seq<Json>, j: Json, ds: seq<Json>, es: seq<Json>)
    requires |ds| == |Parts(head)| + |PartsEach(tail)| && |es| == |Parts(j)|
    requires |PartsEach(tail + [j])| == |PartsEach(tail)| + |Parts(j)|
    requires RebuiltEach(tail + [j], ds[|Parts(head)|..] + es)
          == RebuiltEach(tail, ds[|Parts(head)|..]) + [Rebuilt(j, es)]
    ensures |PartsEach(([head] + tail) + [j])| == |ds + es| && |PartsEach([head] + tail)| == |ds|
    ensures RebuiltEach(([head] + tail) + [j], ds + es) == RebuiltEach([head] + tail, ds) + [Rebuilt(j, es)]
  {
    var n := |Parts(head)|;
    Slices(ds, es, n);
    Regrouped(head, tail, j);
    PartsCons(head, tail);
    RebuiltCons(head, tail + [j], ds + es);
    RebuiltCons(head, tail, ds);
    Regrouped(Rebuilt(head, ds[..n]), RebuiltEach(tail, ds[n..]), Rebuilt(j, es));
  }

  lemma Regrouped(head: Json, tail: seq<Json>, last: Json)
    ensures ([head] + tail) + [last] == [head] + (tail + [last])
  {
  }

  /** The walk, writing to the store as it goes. */
  method Externalize(store: MemoryStore, o: Options, j: Json) returns (out: Json)
    requires store.Valid()
    modifies store
    ensures store.Valid() && out == Externalized(store.codec, o, old(store.held), j)
    ensures store.held == HeldAfter(store.codec, o, old(store.held), Parts(j))
    decreases j, 0
  {
    out := j;
    if IsFile(j) {
      var bytes := Oversized(store.codec, o.maxInline, DataOf(j));
      assert Parts(j)[1..] == [];
      if bytes.Some? {
        var ref := store.PutBytes(bytes.value, MediaType(o, j), StringField(j, "fileName"));
        out := JObject(j.fields["data" := BlobOf(ref)]);
      } else {
        assert j.fields["data" := DataOf(j)] == j.fields;
      }
    } else if HasContent(j) {
      var next := ExternalizeEach(store, o, j.fields["content"].items);
      out := JObject(j.fields["content" := JArray(next)]);
    }
  }

  method ExternalizeEach(store: MemoryStore, o: Options, js: seq<Json>) returns (out: seq<Json>)
    requires store.Valid()
    modifies store
    ensures store.Valid() && out == RebuiltEach(js, MovedEach(store.codec, o, old(store.held), PartsEach(js)))
    ensures store.held == HeldAfter(store.codec, o, old(store.held), PartsEach(js))
    decreases js, 1
  {
    out := [];
    ghost var c, held := store.codec, store.held;
    for i := 0 to |js|
      invariant store.Valid() && store.held == HeldAfter(c, o, held, PartsEach(js[..i]))
      invariant out == RebuiltEach(js[..i], MovedEach(c, o, held, PartsEach(js[..i])))
    {
      ghost var before := store.held;
      var next := Externalize(store, o, js[i]);
      PartsSnoc(js[..i], js[i]);
      RebuiltSnoc(js[..i], js[i], MovedEach(c, o, held, PartsEach(js[..i])), MovedEach(c, o, before, Parts(js[i])));
      MovedAppend(c, o, held, PartsEach(js[..i]), Parts(js[i]));
      assert js[..i + 1] == js[..i] + [js[i]];
      out := out + [next];
    }
    assert js[..|js|] == js;
  }

  // ------------------------------------------------------------ resolve and references

  datatype Read<+T> = Got(value: T) | Missing(id: string) | Malformed

  /** A `Blob`'s reference, if it parses. */
  function RefOf(data: Json): Option<Ref> {
    if data.JObject? && "ref" in data.fields then DecodeRef(data.fields["ref"]) else None
  }

  function ResolvedData(c: Codec, held: Held, data: Json): Read<Json> {
    if !Tagged(data, "Blob") then Got(data)
    else
      match RefOf(data)
      case None => Malformed
      case Some(ref) => if ref.id in held then Got(Inline(c, held[ref.id].bytes)) else Missing(ref.id)
  }

  /** Each in turn, up to the first that fails. */
  function ResolvedEach(c: Codec, held: Held, ds: seq<Json>): (r: Read<seq<Json>>)
    ensures r.Got? ==> |r.value| == |ds|
  {
    if ds == [] then Got([])
    else
      match ResolvedData(c, held, ds[0])
      case Missing(id) => Missing(id)
      case Malformed => Malformed
      case Got(d) =>
        match ResolvedEach(c, held, ds[1..])
        case Missing(id) => Missing(id)
        case Malformed => Malformed
        case Got(rest) => Got([d] + rest)
  }

  function Resolved(c: Codec, held: Held, j: Json): Read<Json> {
    match ResolvedEach(c, held, Datas(Parts(j)))
    case Got(ds) => Got(Rebuilt(j, ds))
    case Missing(id) => Missing(id)
    case Malformed => Malformed
  }

  /** The references of a list of data, in order; `None` if one does not parse. */
  function RefsIn(ds: seq<Json>): Option<seq<Ref>> {
    if ds == [] then Some([])
    else if !Tagged(ds[0], "Blob") then RefsIn(ds[1..])
    else
      var ref, rest := RefOf(ds[0]), RefsIn(ds[1..]);
      if ref.None? || rest.None? then None else Some([ref.value] + rest.value)
  }

  /** What has been found, with what more is. */
  function Pushed(found: seq<Ref>, more: Option<seq<Ref>>): Option<seq<Ref>> {
    if more.None? then None else Some(found + more.value)
  }

  lemma {:induction false} RefsAppend(ds: seq<Json>, es: seq<Json>)
    ensures RefsIn(ds + es) == if RefsIn(ds).None? then None else Pushed(RefsIn(ds).value, RefsIn(es))
    decreases |ds|
  {
    if ds == [] {
      assert ds + es == es;
      if RefsIn(es).Some? { assert [] + RefsIn(es).value == RefsIn(es).value; }
    } else {
      assert (ds + es)[0] == ds[0] && (ds + es)[1..] == ds[1..] + es;
      RefsAppend(ds[1..], es);
      if RefOf(ds[0]).Some? && RefsIn(ds[1..]).Some? && RefsIn(es).Some? {
        assert [RefOf(ds[0]).value] + (RefsIn(ds[1..]).value + RefsIn(es).value)
            == [RefOf(ds[0]).value] + RefsIn(ds[1..]).value + RefsIn(es).value;
      }
    }
  }

  lemma RefsOne(d: Json)
    ensures RefsIn([d])
         == if !Tagged(d, "Blob") then Some([]) else if RefOf(d).None? then None else Some([RefOf(d).value])
  {
    assert [d][1..] == [] && RefsIn([]) == Some([]);
    if RefOf(d).Some? { assert [RefOf(d).value] + [] == [RefOf(d).value]; }
  }

  /** `references`: the walk, pushing what it finds. */
  method References(j: Json, found: seq<Ref>) returns (refs: Option<seq<Ref>>)
    ensures refs == Pushed(found, RefsIn(Datas(Parts(j))))
    decreases j, 0
  {
    refs := Some(found);
    assert RefsIn([]) == Some([]) && found + [] == found;
    if IsFile(j) {
      var data := DataOf(j);
      assert Datas(Parts(j)) == [data];
      RefsOne(data);
      if Tagged(data, "Blob") {
        var ref := RefOf(data);
        refs := if ref.Some? then Some(found + [ref.value]) else None;
      }
    } else if HasContent(j) {
      refs := ReferencesEach(j.fields["content"].items, found);
    } else {
      assert Datas(Parts(j)) == [];
    }
  }

  function RefsOf(js: seq<Json>): Option<seq<Ref>> {
    RefsIn(Datas(PartsEach(js)))
  }

  method ReferencesEach(js: seq<Json>, found: seq<Ref>) returns (refs: Option<seq<Ref>>)
    ensures refs == Pushed(found, RefsOf(js))
    decreases js, 1
  {
    refs := Some(found);
    assert RefsOf([]) == Some([]) && found + [] == found && js[..0] == [];
    for i := 0 to |js|
      invariant refs == Pushed(found, RefsOf(js[..i])) && refs.Some?
    {
      ghost var before, more := RefsOf(js[..i]).value, RefsIn(Datas(Parts(js[i])));
      RefsSnoc(js[..i], js[i]);
      assert js[..i + 1] == js[..i] + [js[i]];
      refs := References(js[i], refs.value);
      if refs.None? {
        RefsFail(js[..i + 1], js[i + 1..]);
        assert js == js[..i + 1] + js[i + 1..];
        return;
      }
      assert found + before + more.value == found + (before + more.value);
    }
    assert js[..|js|] == js;
  }

  lemma DatasAppend(ps: seq<Json>, qs: seq<Json>)
    requires AllFiles(ps) && AllFiles(qs)
    ensures AllFiles(ps + qs) && Datas(ps + qs) == Datas(ps) + Datas(qs)
  {
  }

  lemma RefsSnoc(js: seq<Json>, j: Json)
    ensures RefsOf(js + [j]) == if RefsOf(js).None? then None else Pushed(RefsOf(js).value, RefsIn(Datas(Parts(j))))
  {
    PartsSnoc(js, j);
    DatasAppend(PartsEach(js), Parts(j));
    RefsAppend(Datas(PartsEach(js)), Datas(Parts(j)));
  }

  /** A failure among the first is a failure of all. */
  lemma RefsFail(xs: seq<Json>, ys: seq<Json>)
    requires RefsOf(xs).None?
    ensures RefsOf(xs + ys).None?
  {
    PartsConcat(xs, ys);
    DatasAppend(PartsEach(xs), PartsEach(ys));
    RefsAppend(Datas(PartsEach(xs)), Datas(PartsEach(ys)));
  }

  lemma {:induction false} PartsConcat(xs: seq<Json>, ys: seq<Json>)
    ensures PartsEach(xs + ys) == PartsEach(xs) + PartsEach(ys)
    decreases |xs|
  {
    if xs == [] {
      assert xs + ys == ys;
    } else {
      PartsConcat(xs[1..], ys);
      PartsCons(xs[0], xs[1..] + ys);
      assert xs + ys == [xs[0]] + (xs[1..] + ys);
    }
  }
}
