/**
 Where a document's file parts lie, by the indices that lead to them through `content` arrays, and what becomes of the
 data at each such place when the document is externalized, resolved or searched for references
 (src/blob/BlobWire.ts:44-61, 83-158). Places are read off the document's fields, not off the walk.
 */
module BlobPaths {
  import opened Base
  import opened BlobStore
  import opened BlobWire
  import opened BlobRoundTrip
  import opened Picking

  type Path = seq<nat>

  // ------------------------------------------------------------------- places

  /** A file part: `type` is "file" and `data` an object. */
  predicate FileHere(j: Json) {
    match j
    case JObject(fields) =>
      && "type" in fields && fields["type"] == JString("file")
      && "data" in fields && (match fields["data"] case JObject(_) => true case _ => false)
    case _ => false
  }

  /** What an object that is not a file part holds in its `content` array, and nothing for anything else. */
  function Content(j: Json): (items: seq<Json>)
    ensures forall i | 0 <= i < |items| :: items[i] < j
  {
    match j
    case JObject(fields) =>
      if FileHere(j) || "content" !in fields then []
      else (match fields["content"] case JArray(items) => items case _ => [])
    case _ => []
  }

  /** What lies at a path. */
  function Reached(j: Json, path: Path): Option<Json>
    decreases |path|
  {
    if path == [] then Some(j)
    else if path[0] < |Content(j)| then Reached(Content(j)[path[0]], path[1..])
    else None
  }

  predicate FileAt(j: Json, path: Path) {
    Reached(j, path).Some? && FileHere(Reached(j, path).value)
  }

  /** The data of the file part at a path. */
  function DataAt(j: Json, path: Path): (d: Json)
    requires FileAt(j, path)
    ensures d.JObject?
  {
    Reached(j, path).value.fields["data"]
  }

  /** Document order: at the first index where two paths differ, the lesser comes first. */
  predicate Before(p: Path, q: Path)
    decreases |p|
  {
    p != [] && q != [] && (p[0] < q[0] || (p[0] == q[0] && Before(p[1..], q[1..])))
  }

  predicate Ordered(ps: seq<Path>) {
    forall i, k | 0 <= i < k < |ps| :: Before(ps[i], ps[k])
  }

  /** The places of all file parts, each once and in document order. */
  ghost predicate Lists(j: Json, ps: seq<Path>) {
    Ordered(ps) && forall p: Path :: p in ps <==> FileAt(j, p)
  }

  // ------------------------------------------------------------- the walk finds them

  lemma SameFile(j: Json)
    ensures FileHere(j) <==> IsFile(j)
    ensures HasContent(j) ==> Content(j) == j.fields["content"].items
    ensures !HasContent(j) ==> Content(j) == []
  {
  }

  function Under(i: nat, ps: seq<Path>): (out: seq<Path>)
    ensures |out| == |ps| && forall k | 0 <= k < |ps| :: out[k] == [i] + ps[k]
  {
    seq(|ps|, k requires 0 <= k < |ps| => [i] + ps[k])
  }

  /** The places of all file parts of some documents, the first index saying which. */
  ghost predicate ListsEach(js: seq<Json>, ps: seq<Path>) {
    && Ordered(ps)
    && forall p: Path :: p in ps <==> p != [] && p[0] < |js| && FileAt(js[p[0]], p[1..])
  }

  /** The parts lie at these places, and with their new data at the same places of the rebuilt document. */
  predicate Placed(j: Json, out: Json, ps: seq<Path>, parts: seq<Json>, ds: seq<Json>)
    requires AllFiles(parts)
  {
    && |ps| == |parts| == |ds|
    && forall i | 0 <= i < |ps| ::
         Reached(j, ps[i]) == Some(parts[i]) && Reached(out, ps[i]) == Some(With(parts[i], ds[i]))
  }

  predicate PlacedEach(js: seq<Json>, out: seq<Json>, ps: seq<Path>, parts: seq<Json>, ds: seq<Json>)
    requires AllFiles(parts)
  {
    && |ps| == |parts| == |ds| && |out| == |js|
    && forall i | 0 <= i < |ps| ::
         && ps[i] != [] && ps[i][0] < |js|
         && Reached(js[ps[i][0]], ps[i][1..]) == Some(parts[i])
         && Reached(out[ps[i][0]], ps[i][1..]) == Some(With(parts[i], ds[i]))
  }

  lemma UnderOrdered(i: nat, ps: seq<Path>)
    requires Ordered(ps)
    ensures Ordered(Under(i, ps))
  {
    forall k, m | 0 <= k < m < |ps| ensures Before([i] + ps[k], [i] + ps[m]) {
      assert ([i] + ps[k])[1..] == ps[k] && ([i] + ps[m])[1..] == ps[m];
    }
  }

  /** The places of one more document, after those of the others. */
  lemma ListsSnoc(js: seq<Json>, j: Json, ps: seq<Path>, qs: seq<Path>)
    requires ListsEach(js, ps) && Lists(j, qs)
    ensures ListsEach(js + [j], ps + Under(|js|, qs))
  {
    var n, us := |js|, Under(|js|, qs);
    UnderOrdered(n, qs);
    forall i, k | 0 <= i < k < |ps + us| ensures Before((ps + us)[i], (ps + us)[k]) {
      if i < |ps| { assert ps[i] in ps; }
    }
    forall p: Path
      ensures p in ps + us <==> p != [] && p[0] < n + 1 && FileAt((js + [j])[p[0]], p[1..])
    {
      UnderHolds(n, qs, p);
      assert p in ps + us <==> p in ps || p in us;
    }
  }

  lemma UnderHolds(i: nat, qs: seq<Path>, p: Path)
    ensures p in Under(i, qs) <==> p != [] && p[0] == i && p[1..] in qs
  {
    if p in Under(i, qs) {
      var k :| 0 <= k < |qs| && [i] + qs[k] == p;
      assert p[1..] == qs[k];
    }
    if p != [] && p[0] == i && p[1..] in qs {
      var k :| 0 <= k < |qs| && qs[k] == p[1..];
      assert p == [i] + qs[k] == Under(i, qs)[k];
    }
  }

  lemma PlacedSnoc(
    js: seq<Json>, j: Json, outs: seq<Json>, out: Json, ps: seq<Path>, qs: seq<Path>, parts: seq<Json>,
    more: seq<Json>, ds: seq<Json>, es: seq<Json>)
    requires AllFiles(parts) && AllFiles(more)
    requires PlacedEach(js, outs, ps, parts, ds) && Placed(j, out, qs, more, es)
    ensures AllFiles(parts + more)
    ensures PlacedEach(js + [j], outs + [out], ps + Under(|js|, qs), parts + more, ds + es)
  {
    var us := Under(|js|, qs);
    forall i | 0 <= i < |ps + us|
      ensures var p := (ps + us)[i];
              && p != [] && p[0] < |js| + 1
              && Reached((js + [j])[p[0]], p[1..]) == Some((parts + more)[i])
              && Reached((outs + [out])[p[0]], p[1..]) == Some(With((parts + more)[i], (ds + es)[i]))
    {
      if i >= |ps| { assert us[i - |ps|][1..] == qs[i - |ps|]; }
    }
  }

  lemma ReachedInside(j: Json, p: Path)
    requires !FileHere(j)
    ensures FileAt(j, p) <==> p != [] && p[0] < |Content(j)| && FileAt(Content(j)[p[0]], p[1..])
    ensures p != [] && p[0] < |Content(j)| ==> Reached(j, p) == Reached(Content(j)[p[0]], p[1..])
  {
  }

  lemma FileIsLeaf(j: Json, p: Path)
    requires FileHere(j)
    ensures FileAt(j, p) <==> p == []
  {
  }

  lemma {:induction false} PlacesOf(j: Json, ds: seq<Json>) returns (ps: seq<Path>)
    requires |ds| == |Parts(j)| && Objects(ds)
    ensures Lists(j, ps) && Placed(j, Rebuilt(j, ds), ps, Parts(j), ds)
    decreases j, 0
  {
    SameFile(j);
    if IsFile(j) {
      ps := [[]];
      forall p: Path ensures p in ps <==> FileAt(j, p) { FileIsLeaf(j, p); }
    } else if HasContent(j) {
      var items := j.fields["content"].items;
      ps := PlacesOfEach(items, ds);
      var out := Rebuilt(j, ds);
      SameFile(out);
      assert Content(out) == RebuiltEach(items, ds);
      forall p: Path ensures p in ps <==> FileAt(j, p) { ReachedInside(j, p); }
      forall i | 0 <= i < |ps|
        ensures Reached(j, ps[i]) == Some(Parts(j)[i]) && Reached(out, ps[i]) == Some(With(Parts(j)[i], ds[i]))
      {
        ReachedInside(j, ps[i]);
        ReachedInside(out, ps[i]);
      }
    } else {
      ps := [];
      forall p: Path ensures !FileAt(j, p) { ReachedInside(j, p); }
    }
  }

  /** One more document's places, and its rebuilding, after those of the others. */
  lemma PlacesMore(
    most: seq<Json>, last: Json, ds: seq<Json>, es: seq<Json>, before: seq<Path>, more: seq<Path>, js: seq<Json>,
    all: seq<Json>, ps: seq<Path>)
    requires |ds| == |PartsEach(most)| && |es| == |Parts(last)|
    requires ListsEach(most, before) && PlacedEach(most, RebuiltEach(most, ds), before, PartsEach(most), ds)
    requires Lists(last, more) && Placed(last, Rebuilt(last, es), more, Parts(last), es)
    requires js == most + [last] && all == ds + es && ps == before + Under(|most|, more)
    ensures |all| == |PartsEach(js)| && ListsEach(js, ps)
    ensures PlacedEach(js, RebuiltEach(js, all), ps, PartsEach(js), all)
  {
    PartsSnoc(most, last);
    ListsSnoc(most, last, before, more);
    RebuiltSnoc(most, last, ds, es);
    PlacedSnoc(most, last, RebuiltEach(most, ds), Rebuilt(last, es), before, more, PartsEach(most), Parts(last), ds,
               es);
  }

  lemma ObjectsSplit(ds: seq<Json>, n: nat)
    requires Objects(ds) && n <= |ds|
    ensures Objects(ds[..n]) && Objects(ds[n..]) && ds == ds[..n] + ds[n..]
  {
  }

  lemma {:induction false} PlacesOfEach(js: seq<Json>, ds: seq<Json>) returns (ps: seq<Path>)
    requires |ds| == |PartsEach(js)| && Objects(ds)
    ensures ListsEach(js, ps) && PlacedEach(js, RebuiltEach(js, ds), ps, PartsEach(js), ds)
    decreases js, 1
  {
    if js == [] {
      ps := [];
    } else {
      var n := |js| - 1;
      var most, last := js[..n], js[n];
      assert js == most + [last];
      PartsSnoc(most, last);
      var m := |PartsEach(most)|;
      ObjectsSplit(ds, m);
      var before := PlacesOfEach(most, ds[..m]);
      var more := PlacesOf(last, ds[m..]);
      ps := before + Under(n, more);
      PlacesMore(most, last, ds[..m], ds[m..], before, more, js, ds, ps);
    }
  }

  /** MAIN: the walk finds the file part at every place where one lies, once, in document order, and no other. */
  lemma PartsLieAt(j: Json) returns (ps: seq<Path>)
    ensures Lists(j, ps) && |ps| == |Parts(j)|
    ensures forall i | 0 <= i < |ps| :: Reached(j, ps[i]) == Some(Parts(j)[i])
  {
    ps := PlacesOf(j, Datas(Parts(j)));
  }

  // ---------------------------------------------------------- what a rebuilding changes

  /** At one place: a file part with other data, an object with other contents, or the very same value. */
  predicate Alike(v: Json, w: Json) {
    if FileHere(v) then FileHere(w) && w == JObject(v.fields["data" := w.fields["data"]])
    else if v.JObject? && "content" in v.fields && v.fields["content"].JArray? then
      && w.JObject? && "content" in w.fields && w.fields["content"].JArray?
      && |w.fields["content"].items| == |v.fields["content"].items|
      && w == JObject(v.fields["content" := w.fields["content"]])
    else w == v
  }

  /** One document is another with, at most, other data in its file parts. */
  ghost predicate OnlyDataDiffers(j: Json, out: Json) {
    forall p: Path ::
      && (Reached(j, p).Some? <==> Reached(out, p).Some?)
      && (Reached(j, p).Some? ==> Alike(Reached(j, p).value, Reached(out, p).value))
  }

  lemma {:induction false} PartOfEach(js: seq<Json>, ds: seq<Json>, k: nat) returns (es: seq<Json>)
    requires |ds| == |PartsEach(js)| && Objects(ds) && k < |js|
    ensures |es| == |Parts(js[k])| && Objects(es) && RebuiltEach(js, ds)[k] == Rebuilt(js[k], es)
    decreases k
  {
    var n := |Parts(js[0])|;
    if k == 0 { es := ds[..n]; } else { es := PartOfEach(js[1..], ds[n..], k - 1); }
  }

  lemma RebuiltHere(j: Json, ds: seq<Json>)
    requires |ds| == |Parts(j)| && Objects(ds)
    ensures Alike(j, Rebuilt(j, ds)) && |Content(Rebuilt(j, ds))| == |Content(j)|
    ensures HasContent(j) ==> Content(Rebuilt(j, ds)) == RebuiltEach(Content(j), ds)
  {
    SameFile(j);
    SameFile(Rebuilt(j, ds));
    if HasContent(j) {
      assert !IsFile(Rebuilt(j, ds)) && HasContent(Rebuilt(j, ds));
    }
  }

  lemma {:induction false} RebuiltAt(j: Json, ds: seq<Json>, p: Path)
    requires |ds| == |Parts(j)| && Objects(ds)
    ensures Reached(j, p).Some? <==> Reached(Rebuilt(j, ds), p).Some?
    ensures Reached(j, p).Some? ==> Alike(Reached(j, p).value, Reached(Rebuilt(j, ds), p).value)
    decreases |p|
  {
    RebuiltHere(j, ds);
    SameFile(j);
    if p != [] && p[0] < |Content(j)| {
      var es := PartOfEach(Content(j), ds, p[0]);
      RebuiltAt(Content(j)[p[0]], es, p[1..]);
    }
  }

  lemma RebuiltDiffersInData(j: Json, ds: seq<Json>)
    requires |ds| == |Parts(j)| && Objects(ds)
    ensures OnlyDataDiffers(j, Rebuilt(j, ds))
  {
    forall p: Path
      ensures && (Reached(j, p).Some? <==> Reached(Rebuilt(j, ds), p).Some?)
              && (Reached(j, p).Some? ==> Alike(Reached(j, p).value, Reached(Rebuilt(j, ds), p).value))
    {
      RebuiltAt(j, ds, p);
    }
  }

  lemma SameFiles(j: Json, out: Json, p: Path)
    requires OnlyDataDiffers(j, out)
    ensures FileAt(j, p) <==> FileAt(out, p)
  {
    assert Reached(j, p).Some? <==> Reached(out, p).Some?;
  }

  /** Where one file part lies, and which of the walk's parts it is. */
  lemma PlaceOf(j: Json, ds: seq<Json>, p: Path) returns (i: nat)
    requires |ds| == |Parts(j)| && Objects(ds) && FileAt(j, p)
    ensures i < |ds| && Reached(j, p) == Some(Parts(j)[i]) && FileAt(Rebuilt(j, ds), p)
    ensures DataAt(j, p) == DataOf(Parts(j)[i]) && DataAt(Rebuilt(j, ds), p) == ds[i]
  {
    var ps := PlacesOf(j, ds);
    i :| 0 <= i < |ps| && ps[i] == p;
    SameFile(With(Parts(j)[i], ds[i]));
  }

  // ------------------------------------------------------------- externalize, by place

  /** Data in base64 that stands for more bytes than may stay inline. */
  ghost predicate StandsForMore(c: Codec, maxInline: nat, data: Json, bytes: Bytes) {
    && data.JObject? && "_tag" in data.fields && data.fields["_tag"] == JString("Bytes")
    && "base64" in data.fields
    && (exists text :: data.fields["base64"] == JString(text) && c.decode(text) == Some(bytes))
    && |bytes| > maxInline
  }

  lemma MoreIff(c: Codec, maxInline: nat, data: Json, bytes: Bytes)
    ensures StandsForMore(c, maxInline, data, bytes) <==> Oversized(c, maxInline, data) == Some(bytes)
  {
  }

  /** The data is `{ _tag: "Blob", ref }`, and the reference names this content, which the store holds. */
  predicate RefersTo(c: Codec, held: Held, data: Json, bytes: Bytes) {
    && data.JObject? && data.fields.Keys == {"_tag", "ref"} && data.fields["_tag"] == JString("Blob")
    && c.hash(bytes) in held && held[c.hash(bytes)].bytes == bytes
    && held[c.hash(bytes)].ref.id == held[c.hash(bytes)].ref.sha256 == c.hash(bytes)
    && held[c.hash(bytes)].ref.byteLength == |bytes|
    && data.fields["ref"] == EncodeRef(held[c.hash(bytes)].ref)
  }

  /**
   MAIN: at every place where a file part lies, data in base64 for more bytes than may stay inline becomes a reference
   to those bytes, held by the store, and all other data is as it was; and nothing else in the document changes.
   */
  lemma ExternalizedAt(c: Codec, o: Options, held: Held, j: Json, p: Path)
    requires HeldOk(c, held) && CollisionFree(c)
    ensures OnlyDataDiffers(j, Externalized(c, o, held, j))
    ensures FileAt(j, p) ==>
              && FileAt(Externalized(c, o, held, j), p)
              && (forall bytes | StandsForMore(c, o.maxInline, DataAt(j, p), bytes) ::
                    RefersTo(c, HeldAfter(c, o, held, Parts(j)), DataAt(Externalized(c, o, held, j), p), bytes))
              && ((forall bytes :: !StandsForMore(c, o.maxInline, DataAt(j, p), bytes)) ==>
                    DataAt(Externalized(c, o, held, j), p) == DataAt(j, p))
  {
    var ds := MovedEach(c, o, held, Parts(j));
    RebuiltDiffersInData(j, ds);
    if FileAt(j, p) {
      var i := PlaceOf(j, ds, p);
      MovedAt(c, o, held, Parts(j), i);
      HeldAfterKeeps(c, o, held, Parts(j));
      var bytes := Oversized(c, o.maxInline, DataAt(j, p));
      forall more ensures StandsForMore(c, o.maxInline, DataAt(j, p), more) <==> bytes == Some(more) {
        MoreIff(c, o.maxInline, DataAt(j, p), more);
      }
    }
  }

  /** MAIN: afterwards no file part anywhere has inline bytes, in base64 that decodes, over the threshold. */
  lemma NothingLargeIsLeft(c: Codec, o: Options, held: Held, j: Json, p: Path, bytes: Bytes)
    requires FileAt(Externalized(c, o, held, j), p)
    ensures !StandsForMore(c, o.maxInline, DataAt(Externalized(c, o, held, j), p), bytes)
  {
    var ds := MovedEach(c, o, held, Parts(j));
    RebuiltDiffersInData(j, ds);
    SameFiles(j, Externalized(c, o, held, j), p);
    var i := PlaceOf(j, ds, p);
    MovedIsSmall(c, o, held, Parts(j), i);
    MoreIff(c, o.maxInline, ds[i], bytes);
  }

  /**
   Content the store does not hold yet is described by the first part that brings it: by its own media type and file
   name if they are strings, and otherwise by the default type, or as an octet stream.
   */
  lemma {:induction false} FirstDescribes(c: Codec, o: Options, held: Held, parts: seq<Json>, i: nat, bytes: Bytes)
    requires AllFiles(parts) && HeldOk(c, held) && i < |parts| && StandsForMore(c, o.maxInline, DataOf(parts[i]), bytes)
    requires c.hash(bytes) !in held
    requires forall k, more | 0 <= k < i && Oversized(c, o.maxInline, DataOf(parts[k])) == Some(more) ::
               c.hash(more) != c.hash(bytes)
    ensures c.hash(bytes) in HeldAfter(c, o, held, parts)
    ensures var ref, f := HeldAfter(c, o, held, parts)[c.hash(bytes)].ref, parts[i].fields;
            && ref.id == ref.sha256 == c.hash(bytes) && ref.byteLength == |bytes|
            && ("mediaType" in f && f["mediaType"].JString? ==> ref.mediaType == f["mediaType"].s)
            && (!("mediaType" in f && f["mediaType"].JString?) ==>
                  ref.mediaType == match o.defaultMediaType
                                   case Some(given) => given
                                   case None => "application/octet-stream")
            && ref.fileName == if "fileName" in f && f["fileName"].JString? then Some(f["fileName"].s) else None
    decreases |parts|
  {
    var next := MovedHeld(c, o, held, parts[0]);
    var first := Oversized(c, o.maxInline, DataOf(parts[0]));
    if first.Some? {
      PutKeeps(c, held, first.value, MediaType(o, parts[0]), StringField(parts[0], "fileName"));
    }
    MoreIff(c, o.maxInline, DataOf(parts[i]), bytes);
    if i == 0 {
      HeldAfterKeeps(c, o, next, parts[1..]);
    } else {
      FirstDescribes(c, o, next, parts[1..], i - 1, bytes);
    }
  }

  // ------------------------------------------------------------------ resolve, by place

  /** Data tagged as a blob. */
  predicate BlobData(data: Json) {
    data.JObject? && "_tag" in data.fields && data.fields["_tag"] == JString("Blob")
  }

  /** The data's reference, and the store's bytes for it. */
  predicate Resolves(held: Held, data: Json, bytes: Bytes) {
    && data.JObject? && "ref" in data.fields && DecodeRef(data.fields["ref"]).Some?
    && DecodeRef(data.fields["ref"]).value.id in held && held[DecodeRef(data.fields["ref"]).value.id].bytes == bytes
  }

  /** Data that cannot be resolved: its reference does not parse, or names nothing the store holds. */
  predicate Unresolvable(held: Held, data: Json) {
    && BlobData(data)
    && (data.JObject? && "ref" in data.fields && DecodeRef(data.fields["ref"]).Some? ==>
          DecodeRef(data.fields["ref"]).value.id !in held)
  }

  lemma {:induction false} ResolvedEachAt(c: Codec, held: Held, ds: seq<Json>)
    ensures ResolvedEach(c, held, ds).Got? <==> forall i | 0 <= i < |ds| :: ResolvedData(c, held, ds[i]).Got?
    ensures ResolvedEach(c, held, ds).Got? ==>
              forall i | 0 <= i < |ds| :: ResolvedData(c, held, ds[i]) == Got(ResolvedEach(c, held, ds).value[i])
    decreases |ds|
  {
    if ds != [] {
      ResolvedEachAt(c, held, ds[1..]);
      assert forall i | 1 <= i < |ds| :: ds[i] == ds[1..][i - 1];
    }
  }

  lemma ResolvedObjects(c: Codec, held: Held, ds: seq<Json>)
    requires Objects(ds) && ResolvedEach(c, held, ds).Got?
    ensures Objects(ResolvedEach(c, held, ds).value)
  {
    ResolvedEachAt(c, held, ds);
    forall i | 0 <= i < |ds| ensures ResolvedEach(c, held, ds).value[i].JObject? {
      assert ResolvedData(c, held, ds[i]).Got?;
    }
  }

  /** MAIN: resolving succeeds exactly when, at every place of a file part, a blob's reference parses and is held. */
  lemma ResolvedIff(c: Codec, held: Held, j: Json)
    ensures Resolved(c, held, j).Got? <==> forall p: Path | FileAt(j, p) :: !Unresolvable(held, DataAt(j, p))
  {
    var ds := Datas(Parts(j));
    var ps := PlacesOf(j, ds);
    ResolvedEachAt(c, held, ds);
    forall i | 0 <= i < |ds| ensures FileAt(j, ps[i]) && DataAt(j, ps[i]) == ds[i] { assert ps[i] in ps; }
    if !Resolved(c, held, j).Got? {
      var i :| 0 <= i < |ds| && !ResolvedData(c, held, ds[i]).Got?;
      assert Unresolvable(held, DataAt(j, ps[i]));
    }
  }

  /** MAIN: and then each blob's data becomes the store's bytes for it, inline, and nothing else changes. */
  lemma ResolvedAt(c: Codec, held: Held, j: Json, p: Path)
    requires Resolved(c, held, j).Got?
    ensures OnlyDataDiffers(j, Resolved(c, held, j).value)
    ensures FileAt(j, p) ==>
              && FileAt(Resolved(c, held, j).value, p)
              && (!BlobData(DataAt(j, p)) ==> DataAt(Resolved(c, held, j).value, p) == DataAt(j, p))
              && (BlobData(DataAt(j, p)) ==>
                    exists bytes ::
                      && Resolves(held, DataAt(j, p), bytes)
                      && DataAt(Resolved(c, held, j).value, p)
                      == JObject(map["_tag" := JString("Bytes"), "base64" := JString(c.encode(bytes))]))
  {
    var ds := Datas(Parts(j));
    var es := ResolvedEach(c, held, ds).value;
    ResolvedEachAt(c, held, ds);
    ResolvedObjects(c, held, ds);
    RebuiltDiffersInData(j, es);
    if FileAt(j, p) {
      var i := PlaceOf(j, es, p);
      assert ResolvedData(c, held, ds[i]) == Got(es[i]);
      if BlobData(DataAt(j, p)) {
        assert Resolves(held, DataAt(j, p), held[DecodeRef(DataAt(j, p).fields["ref"]).value.id].bytes);
      }
    }
  }

  // --------------------------------------------------------------- references, by place

  /** The places of the file parts whose data is a blob's, each once and in document order. */
  ghost predicate ListsBlobs(j: Json, ps: seq<Path>) {
    Ordered(ps) && forall p: Path :: p in ps <==> FileAt(j, p) && BlobData(DataAt(j, p))
  }

  function IsBlob(ds: seq<Json>): nat -> bool {
    (k: nat) => k < |ds| && BlobData(ds[k])
  }

  /** The data's reference reads as this one. */
  predicate Names(data: Json, ref: Ref) {
    data.JObject? && "ref" in data.fields && DecodeRef(data.fields["ref"]) == Some(ref)
  }

  /** The data's reference reads as one. */
  predicate Parses(data: Json) {
    data.JObject? && "ref" in data.fields && DecodeRef(data.fields["ref"]).Some?
  }

  lemma RefNames(data: Json, found: Option<Ref>)
    requires found == RefOf(data)
    ensures found.Some? <==> Parses(data)
    ensures found.Some? ==> Names(data, found.value)
  {
  }

  /** A reference is read from every object with its fields as `encodeBlobRef` writes them, and from no other. */
  lemma RefReadsIff(j: Json, ref: Ref)
    ensures DecodeRef(j) == Some(ref) <==>
              && j.JObject? && ("fileName" in j.fields ==> ref.fileName.Some?)
              && forall k | k in EncodeRef(ref).fields :: k in j.fields && j.fields[k] == EncodeRef(ref).fields[k]
  {
    var f := EncodeRef(ref).fields;
    assert "id" in f && "mediaType" in f && "byteLength" in f && "sha256" in f;
    assert "fileName" in f <==> ref.fileName.Some?;
  }

  function Each<A, B>(f: A -> B, xs: seq<A>): seq<B> {
    if xs == [] then [] else [f(xs[0])] + Each(f, xs[1..])
  }

  lemma {:induction false} EachIs<A, B>(f: A -> B, xs: seq<A>)
    ensures |Each(f, xs)| == |xs| && forall i | 0 <= i < |xs| :: Each(f, xs)[i] == f(xs[i])
  {
    if xs != [] { EachIs(f, xs[1..]); }
  }

  lemma EachCons<A, B>(f: A -> B, x: A, xs: seq<A>)
    ensures Each(f, [x] + xs) == [f(x)] + Each(f, xs)
  {
    assert ([x] + xs)[1..] == xs;
  }

  /** All of some values, when none is missing. */
  predicate Gathers<A(==)>(found: seq<Option<A>>, all: Option<seq<A>>) {
    && (all.Some? <==> forall k | 0 <= k < |found| :: found[k].Some?)
    && (all.Some? ==> |all.value| == |found| && forall k | 0 <= k < |found| :: found[k] == Some(all.value[k]))
  }

  lemma GathersCons<A>(first: Option<A>, found: seq<Option<A>>, rest: Option<seq<A>>)
    requires Gathers(found, rest)
    ensures Gathers([first] + found, if first.None? || rest.None? then None else Some([first.value] + rest.value))
  {
    assert ([first] + found)[0] == first;
    assert forall k | 0 <= k < |found| :: ([first] + found)[k + 1] == found[k];
  }

  lemma RefsInCons(ds: seq<Json>, first: Option<Ref>, rest: Option<seq<Ref>>)
    requires ds != [] && first == RefOf(ds[0]) && rest == RefsIn(ds[1..])
    ensures RefsIn(ds)
         == if !BlobData(ds[0]) then rest
            else if first.None? || rest.None? then None else Some([first.value] + rest.value)
  {
  }

  /** The references of a list, from those of its rest. */
  lemma GathersMore(ds: seq<Json>, xs: seq<Json>, ys: seq<Json>)
    requires ds != [] && ys == (if BlobData(ds[0]) then [ds[0]] else []) + xs
    requires Gathers(Each(RefOf, xs), RefsIn(ds[1..]))
    ensures Gathers(Each(RefOf, ys), RefsIn(ds))
  {
    RefsInCons(ds, RefOf(ds[0]), RefsIn(ds[1..]));
    if BlobData(ds[0]) {
      EachCons(RefOf, ds[0], xs);
      GathersCons(RefOf(ds[0]), Each(RefOf, xs), RefsIn(ds[1..]));
    } else {
      assert ys == xs;
    }
  }

  /** Which of some data is a blob's. */
  function BlobPlaces(ds: seq<Json>): seq<nat> {
    if ds == [] then [] else (if BlobData(ds[0]) then [0] else []) + Shifted(BlobPlaces(ds[1..]))
  }

  lemma {:induction false} BlobsPicked(ds: seq<Json>)
    ensures Picked(BlobPlaces(ds), |ds|, IsBlob(ds))
  {
    if ds != [] {
      BlobsPicked(ds[1..]);
      PickedCons(BlobPlaces(ds[1..]), |ds| - 1, IsBlob(ds[1..]), IsBlob(ds), BlobPlaces(ds));
    }
  }

  lemma {:induction false} BlobsGathered(ds: seq<Json>)
    ensures Below(BlobPlaces(ds), |ds|) && Gathers(Each(RefOf, At(ds, BlobPlaces(ds))), RefsIn(ds))
  {
    if ds != [] {
      var rest := BlobPlaces(ds[1..]);
      BlobsGathered(ds[1..]);
      AtCons(ds, rest, BlobData(ds[0]), BlobPlaces(ds));
      GathersMore(ds, At(ds[1..], rest), At(ds, BlobPlaces(ds)));
    }
  }

  /** What is gathered from some data names each of them. */
  predicate NamesEach(found: seq<Json>, refs: Option<seq<Ref>>) {
    && (refs.Some? <==> forall k | 0 <= k < |found| :: Parses(found[k]))
    && (refs.Some? ==> |refs.value| == |found| && forall k | 0 <= k < |found| :: Names(found[k], refs.value[k]))
  }

  lemma GatheredNames(found: seq<Json>, rs: seq<Option<Ref>>, refs: Option<seq<Ref>>)
    requires rs == Each(RefOf, found) && Gathers(rs, refs)
    ensures NamesEach(found, refs)
  {
    EachIs(RefOf, found);
    forall k | 0 <= k < |found|
      ensures rs[k].Some? <==> Parses(found[k])
      ensures rs[k].Some? ==> Names(found[k], rs[k].value)
    {
      RefNames(found[k], rs[k]);
    }
  }

  /** The references at these places, one for each, or none because one does not parse. */
  predicate NamedAt(j: Json, qs: seq<Path>, refs: Option<seq<Ref>>) {
    && (forall k | 0 <= k < |qs| :: FileAt(j, qs[k]))
    && (refs.Some? <==> forall k | 0 <= k < |qs| :: Parses(DataAt(j, qs[k])))
    && (refs.Some? ==>
          |refs.value| == |qs| && forall k | 0 <= k < |qs| :: Names(DataAt(j, qs[k]), refs.value[k]))
  }

  lemma NamedWhereFound(j: Json, qs: seq<Path>, found: seq<Json>, refs: Option<seq<Ref>>)
    requires |found| == |qs| && NamesEach(found, refs)
    requires forall k | 0 <= k < |qs| :: FileAt(j, qs[k]) && DataAt(j, qs[k]) == found[k]
    ensures NamedAt(j, qs, refs)
  {
  }

  /**
   MAIN: the references found are those of the blobs' data, place by place in document order, one for each; and none
   are found exactly when one of them does not parse.
   */
  lemma ReferencesAt(j: Json) returns (qs: seq<Path>)
    ensures ListsBlobs(j, qs) && NamedAt(j, qs, RefsIn(Datas(Parts(j))))
  {
    var ds := Datas(Parts(j));
    var ps := PlacesOf(j, ds);
    var ks := BlobPlaces(ds);
    BlobsPicked(ds);
    BlobsGathered(ds);
    qs := At(ps, ks);
    forall i | 0 <= i < |ds| ensures FileAt(j, ps[i]) && DataAt(j, ps[i]) == ds[i] { assert ps[i] in ps; }
    BlobsListed(j, ds, ps, ks, qs);
    GatheredNames(At(ds, ks), Each(RefOf, At(ds, ks)), RefsIn(ds));
    NamedWhereFound(j, qs, At(ds, ks), RefsIn(ds));
  }

  lemma BlobsListed(j: Json, ds: seq<Json>, ps: seq<Path>, ks: seq<nat>, qs: seq<Path>)
    requires |ps| == |ds| && Lists(j, ps) && Picked(ks, |ds|, IsBlob(ds)) && qs == At(ps, ks)
    requires forall i | 0 <= i < |ds| :: FileAt(j, ps[i]) && DataAt(j, ps[i]) == ds[i]
    ensures ListsBlobs(j, qs)
  {
    forall p: Path ensures p in qs <==> FileAt(j, p) && BlobData(DataAt(j, p)) {
      BlobPlaced(j, ds, ps, ks, qs, p);
    }
  }

  lemma BlobPlaced(j: Json, ds: seq<Json>, ps: seq<Path>, ks: seq<nat>, qs: seq<Path>, p: Path)
    requires |ps| == |ds| && Lists(j, ps) && Picked(ks, |ds|, IsBlob(ds)) && qs == At(ps, ks)
    requires forall i | 0 <= i < |ds| :: FileAt(j, ps[i]) && DataAt(j, ps[i]) == ds[i]
    ensures p in qs <==> FileAt(j, p) && BlobData(DataAt(j, p))
  {
    if p in qs {
      var k :| 0 <= k < |qs| && qs[k] == p;
      assert ps[ks[k]] == p;
    }
    if FileAt(j, p) && BlobData(DataAt(j, p)) {
      assert p in ps;
      var i :| 0 <= i < |ps| && ps[i] == p;
      assert IsBlob(ds)(i);
      var k :| 0 <= k < |ks| && ks[k] == i;
      assert qs[k] == p;
    }
  }
}
