/**
 The run ledger (src/RunLedger.ts:111-184): entries kept per session in an insertion-ordered map that is the
 least-recently-written order, deduplicated by occurrence, evicted by whole sessions. Its entries refine a
 flat list. Costs are reals: rounding is not part of this model.
 */
module RunLedger {
  import opened Base
  import opened Sorting
  import opened Text

  datatype Entry = Entry(
    sessionId: string, runId: string, turnIndex: nat, toolCalls: nat, inputTokens: nat, outputTokens: nat,
    cost: Option<real>, elapsedMillis: nat)

  // ------------------------------------------------------------------ occurrences

  /** `Budget.occurrence`. */
  function Occurrence(e: Entry): string {
    e.runId + ":" + Decimal(e.turnIndex)
  }

  lemma AfterLastColon(r: string, m: string, s: string, n: string)
    requires r + ":" + m == s + ":" + n
    requires (forall i | 0 <= i < |m| :: m[i] != ':') && (forall i | 0 <= i < |n| :: n[i] != ':')
    ensures r == s && m == n
  {
    var x := r + ":" + m;
    assert x[|r|] == ':' && x[|s|] == ':';
    forall k | |r| < k < |x| ensures x[k] != ':' { assert x[k] == m[k - |r| - 1]; }
    forall k | |s| < k < |x| ensures x[k] != ':' { assert x[k] == n[k - |s| - 1]; }
    assert r == x[..|r|] && s == x[..|s|] && m == x[|r| + 1..] && n == x[|s| + 1..];
  }

  /** Two entries share an occurrence exactly when they are of one turn of one run, whatever the run's id. */
  lemma OccurrenceIsTheTurn(a: Entry, b: Entry)
    ensures Occurrence(a) == Occurrence(b) <==> a.runId == b.runId && a.turnIndex == b.turnIndex
  {
    if Occurrence(a) == Occurrence(b) {
      DecimalDigits(a.turnIndex);
      DecimalDigits(b.turnIndex);
      AfterLastColon(a.runId, Decimal(a.turnIndex), b.runId, Decimal(b.turnIndex));
      DecimalInjective(a.turnIndex, b.turnIndex);
    }
  }

  // ------------------------------------------------------------ the flat list it refines

  function Without(es: seq<Entry>, id: string): seq<Entry>
    decreases |es|
  {
    if es == [] then []
    else Without(es[..|es| - 1], id) + (if es[|es| - 1].sessionId == id then [] else [es[|es| - 1]])
  }

  function Removed(ids: seq<string>, id: string): seq<string> {
    if ids == [] then [] else (if ids[0] == id then [] else [ids[0]]) + Removed(ids[1..], id)
  }

  /** The sessions of a list, least recently written first. */
  function Recency(es: seq<Entry>): seq<string>
    decreases |es|
  {
    if es == [] then [] else Removed(Recency(es[..|es| - 1]), es[|es| - 1].sessionId) + [es[|es| - 1].sessionId]
  }

  /** The turn is already there, in its session. */
  predicate Duplicate(es: seq<Entry>, e: Entry) {
    exists i | 0 <= i < |es| ::
      es[i].sessionId == e.sessionId && es[i].runId == e.runId && es[i].turnIndex == e.turnIndex
  }

  /** Without the least recently written session, if there is one past the limit. */
  function Trimmed(es: seq<Entry>, maxSessions: nat): seq<Entry> {
    if |Recency(es)| > maxSessions then Without(es, Recency(es)[0]) else es
  }

  /** The list after one record: unchanged by a duplicate; otherwise one longer, less any session past the limit. */
  function Recorded(es: seq<Entry>, e: Entry, maxSessions: nat): seq<Entry> {
    if Duplicate(es, e) then es
    else Trimmed(es + [e], maxSessions)
  }

  // ------------------------------------------------------------------- what it is made of

  type Record = Indexed<Entry>

  datatype Session = Session(id: string, entries: seq<Record>, seen: set<string>)

  function Of(log: seq<Record>, id: string): seq<Record>
    decreases |log|
  {
    if log == [] then []
    else Of(log[..|log| - 1], id) + (if log[|log| - 1].value.sessionId == id then [log[|log| - 1]] else [])
  }

  function Others(log: seq<Record>, id: string): seq<Record>
    decreases |log|
  {
    if log == [] then []
    else Others(log[..|log| - 1], id) + (if log[|log| - 1].value.sessionId == id then [] else [log[|log| - 1]])
  }

  function Values(log: seq<Record>): (es: seq<Entry>)
    ensures |es| == |log| && forall i | 0 <= i < |es| :: es[i] == log[i].value
  {
    seq(|log|, i requires 0 <= i < |log| => log[i].value)
  }

  function Seen(entries: seq<Record>): set<string> {
    set i | 0 <= i < |entries| :: Occurrence(entries[i].value)
  }

  function Ids(sessions: seq<Session>): (ids: seq<string>)
    ensures |ids| == |sessions| && forall i | 0 <= i < |ids| :: ids[i] == sessions[i].id
  {
    seq(|sessions|, i requires 0 <= i < |sessions| => sessions[i].id)
  }

  function Flatten(sessions: seq<Session>): seq<Record> {
    if sessions == [] then [] else sessions[0].entries + Flatten(sessions[1..])
  }

  predicate Distinct(ids: seq<string>) {
    forall i, j | 0 <= i < j < |ids| :: ids[i] != ids[j]
  }

  /** A session's bucket is its part of the log, with the occurrences in it. */
  predicate BucketsOk(sessions: seq<Session>, log: seq<Record>) {
    forall i | 0 <= i < |sessions| ::
      sessions[i].entries == Of(log, sessions[i].id) && sessions[i].seen == Seen(sessions[i].entries)
  }

  // ---------------------------------------------------------------------- small lemmas

  lemma {:induction false} RemovedIs(ids: seq<string>, id: string)
    requires Distinct(ids)
    ensures Distinct(Removed(ids, id)) && id !in Removed(ids, id)
    ensures forall x :: x in Removed(ids, id) <==> x in ids && x != id
    ensures |Removed(ids, id)| == |ids| - (if id in ids then 1 else 0)
  {
    if ids != [] {
      assert ids[0] !in ids[1..];
      RemovedIs(ids[1..], id);
    }
  }

  predicate Mentions(es: seq<Entry>, id: string) {
    exists i | 0 <= i < |es| :: es[i].sessionId == id
  }

  lemma MentionsMore(es: seq<Entry>, id: string)
    requires es != []
    ensures Mentions(es, id) <==> Mentions(es[..|es| - 1], id) || es[|es| - 1].sessionId == id
  {
    var most := es[..|es| - 1];
    if i :| 0 <= i < |es| && es[i].sessionId == id { assert i < |most| ==> most[i] == es[i]; }
    if i :| 0 <= i < |most| && most[i].sessionId == id { assert es[i] == most[i]; }
  }

  /** A session is in the recency order exactly when the list has an entry of it, and then once. */
  lemma {:induction false} RecencyHas(es: seq<Entry>, id: string)
    ensures id in Recency(es) <==> Mentions(es, id)
    decreases |es|
  {
    if es != [] {
      var most, last := es[..|es| - 1], es[|es| - 1].sessionId;
      RecencyHas(most, id);
      MentionsMore(es, id);
      RecencyDistinct(most);
      RemovedIs(Recency(most), last);
    }
  }

  lemma {:induction false} RecencyDistinct(es: seq<Entry>)
    ensures Distinct(Recency(es))
    decreases |es|
  {
    if es != [] {
      RecencyDistinct(es[..|es| - 1]);
      RemovedIs(Recency(es[..|es| - 1]), es[|es| - 1].sessionId);
    }
  }

  function LastWrite(es: seq<Entry>, id: string): int
    decreases |es|
  {
    if es == [] then -1 else if es[|es| - 1].sessionId == id then |es| - 1 else LastWrite(es[..|es| - 1], id)
  }

  lemma {:induction false} RemovedKeepsOrder(es: seq<Entry>, ids: seq<string>, id: string)
    requires forall i, j | 0 <= i < j < |ids| :: LastWrite(es, ids[i]) < LastWrite(es, ids[j])
    ensures var out := Removed(ids, id);
            && (forall x :: x in out ==> x in ids && x != id)
            && forall i, j | 0 <= i < j < |out| :: LastWrite(es, out[i]) < LastWrite(es, out[j])
    decreases |ids|
  {
    if ids != [] {
      RemovedKeepsOrder(es, ids[1..], id);
      assert forall x :: x in ids[1..] ==> LastWrite(es, ids[0]) < LastWrite(es, x);
      assert forall k | 0 <= k < |Removed(ids[1..], id)| :: Removed(ids[1..], id)[k] in ids[1..];
    }
  }

  lemma {:induction false} LastWriteBelow(es: seq<Entry>, id: string)
    ensures LastWrite(es, id) < |es|
    decreases |es|
  {
    if es != [] { LastWriteBelow(es[..|es| - 1], id); }
  }

  /** The recency order is the order of the sessions' last writes. */
  lemma {:induction false} RecencyOrders(es: seq<Entry>)
    ensures forall i, j | 0 <= i < j < |Recency(es)| :: LastWrite(es, Recency(es)[i]) < LastWrite(es, Recency(es)[j])
    decreases |es|
  {
    if es != [] {
      var most, id := es[..|es| - 1], es[|es| - 1].sessionId;
      RecencyOrders(most);
      RecencyDistinct(most);
      RemovedIs(Recency(most), id);
      RemovedKeepsOrder(most, Recency(most), id);
      var out := Removed(Recency(most), id);
      forall k | 0 <= k < |out| ensures LastWrite(es, out[k]) == LastWrite(most, out[k]) < |es| - 1 {
        assert out[k] in out;
        assert out[k] != id;
        LastWriteBelow(most, out[k]);
      }
    }
  }

  lemma {:induction false} ValuesOthers(log: seq<Record>, id: string)
    ensures Values(Others(log, id)) == Without(Values(log), id)
    decreases |log|
  {
    if log != [] {
      ValuesOthers(log[..|log| - 1], id);
      assert Values(log)[..|log| - 1] == Values(log[..|log| - 1]);
    }
  }

  lemma {:induction false} OfOthers(log: seq<Record>, id: string, other: string)
    ensures Of(Others(log, id), other) == if other == id then [] else Of(log, other)
    decreases |log|
  {
    if log != [] {
      var most, last := log[..|log| - 1], log[|log| - 1];
      OfOthers(most, id, other);
      var rest := Others(most, id);
      if last.value.sessionId != id { assert (rest + [last])[..|rest|] == rest; }
      else { assert rest + [] == rest; }
    }
  }

  predicate IsOf(r: Record, id: string, key: string) {
    r.value.sessionId == id && Occurrence(r.value) == key
  }

  predicate Has(log: seq<Record>, id: string, key: string) {
    exists i | 0 <= i < |log| :: IsOf(log[i], id, key)
  }

  lemma HasMore(log: seq<Record>, id: string, key: string)
    requires log != []
    ensures Has(log, id, key) <==> Has(log[..|log| - 1], id, key) || IsOf(log[|log| - 1], id, key)
  {
    var most := log[..|log| - 1];
    if i :| 0 <= i < |log| && IsOf(log[i], id, key) {
      assert i < |most| ==> most[i] == log[i];
    }
    if i :| 0 <= i < |most| && IsOf(most[i], id, key) {
      assert log[i] == most[i];
    }
  }

  lemma {:induction false} OfHas(log: seq<Record>, id: string, key: string)
    ensures key in Seen(Of(log, id)) <==> Has(log, id, key)
    decreases |log|
  {
    if log != [] {
      var most, last := log[..|log| - 1], log[|log| - 1];
      OfHas(most, id, key);
      HasMore(log, id, key);
      SeenMore(Of(most, id), last);
      if last.value.sessionId != id { assert Of(log, id) == Of(most, id); }
    } else {
      assert Seen([]) == {};
    }
  }

  lemma SeenMore(entries: seq<Record>, r: Record)
    ensures Seen(entries + [r]) == Seen(entries) + {Occurrence(r.value)}
  {
    var more := entries + [r];
    forall key ensures key in Seen(more) <==> key in Seen(entries) || key == Occurrence(r.value) {
      if key in Seen(entries) {
        var i :| 0 <= i < |entries| && Occurrence(entries[i].value) == key;
        assert more[i] == entries[i];
      }
      if key in Seen(more) {
        var i :| 0 <= i < |more| && Occurrence(more[i].value) == key;
        assert i < |entries| ==> entries[i] == more[i];
      }
      assert more[|entries|] == r;
    }
  }

  // ------------------------------------------------------- the buckets make up the log

  lemma {:induction false} SplitLog(log: seq<Record>, id: string)
    ensures multiset(log) == multiset(Of(log, id)) + multiset(Others(log, id))
    decreases |log|
  {
    if log != [] {
      var most, last := log[..|log| - 1], log[|log| - 1];
      SplitLog(most, id);
      WithoutLast(log);
      if last.value.sessionId == id { assert Others(log, id) == Others(most, id); }
      else { assert Of(log, id) == Of(most, id); }
    }
  }

  lemma {:induction false} OthersIs(log: seq<Record>, id: string)
    ensures forall i | 0 <= i < |Others(log, id)| ::
              Others(log, id)[i] in log && Others(log, id)[i].value.sessionId != id
    decreases |log|
  {
    if log != [] {
      OthersIs(log[..|log| - 1], id);
      assert forall r :: r in log[..|log| - 1] ==> r in log;
    }
  }

  predicate Covered(log: seq<Record>, ids: seq<string>) {
    forall i | 0 <= i < |log| :: log[i].value.sessionId in ids
  }

  lemma OthersCovered(log: seq<Record>, ids: seq<string>)
    requires ids != [] && Covered(log, ids)
    ensures Covered(Others(log, ids[0]), ids[1..])
  {
    OthersIs(log, ids[0]);
    assert ids == [ids[0]] + ids[1..];
    forall i | 0 <= i < |Others(log, ids[0])| ensures Others(log, ids[0])[i].value.sessionId in ids[1..] {
      var j :| 0 <= j < |log| && log[j] == Others(log, ids[0])[i];
    }
  }

  lemma IdsCons(sessions: seq<Session>)
    requires sessions != []
    ensures Ids(sessions)[0] == sessions[0].id && Ids(sessions)[1..] == Ids(sessions[1..])
  {
  }

  lemma EvictKeepsBuckets(sessions: seq<Session>, log: seq<Record>)
    requires sessions != [] && BucketsOk(sessions, log) && Distinct(Ids(sessions))
    ensures BucketsOk(sessions[1..], Others(log, sessions[0].id))
  {
    forall i | 0 <= i < |sessions[1..]|
      ensures sessions[1..][i].entries == Of(Others(log, sessions[0].id), sessions[1..][i].id)
    {
      assert Ids(sessions)[i + 1] != Ids(sessions)[0];
      OfOthers(log, sessions[0].id, sessions[1..][i].id);
    }
  }

  lemma {:induction false} BucketsAreTheLog(sessions: seq<Session>, log: seq<Record>)
    requires Distinct(Ids(sessions)) && BucketsOk(sessions, log) && Covered(log, Ids(sessions))
    ensures multiset(Flatten(sessions)) == multiset(log)
    decreases |sessions|
  {
    if sessions != [] {
      var id := sessions[0].id;
      SplitLog(log, id);
      EvictKeepsBuckets(sessions, log);
      IdsCons(sessions);
      OthersCovered(log, Ids(sessions));
      DistinctTail(Ids(sessions));
      BucketsAreTheLog(sessions[1..], Others(log, id));
    }
  }

  lemma DistinctTail(ids: seq<string>)
    requires Distinct(ids) && ids != []
    ensures Distinct(ids[1..])
  {
  }

  // --------------------------------------------------------------------- the ledger

  predicate InOrder(log: seq<Record>, sequence: nat) {
    && (forall i | 0 <= i < |log| :: log[i].index < sequence)
    && forall i, j | 0 <= i < j < |log| :: log[i].index < log[j].index
  }

  /** The map's lookup by key: where a session is, or the end. */
  function Find(sessions: seq<Session>, id: string): (k: nat)
    ensures k <= |sessions| && (k < |sessions| ==> sessions[k].id == id)
    ensures forall j | 0 <= j < k :: sessions[j].id != id
  {
    if sessions == [] || sessions[0].id == id then 0 else 1 + Find(sessions[1..], id)
  }

  /** The map's `delete`. */
  function Deleted(sessions: seq<Session>, id: string): seq<Session> {
    if sessions == [] then []
    else (if sessions[0].id == id then [] else [sessions[0]]) + Deleted(sessions[1..], id)
  }

  lemma IdsAppend(xs: seq<Session>, ys: seq<Session>)
    ensures Ids(xs + ys) == Ids(xs) + Ids(ys)
  {
  }

  lemma {:induction false} DeletedIds(sessions: seq<Session>, id: string)
    ensures Ids(Deleted(sessions, id)) == Removed(Ids(sessions), id)
  {
    if sessions != [] {
      DeletedIds(sessions[1..], id);
      IdsCons(sessions);
      IdsAppend(if sessions[0].id == id then [] else [sessions[0]], Deleted(sessions[1..], id));
      assert Ids([sessions[0]]) == [sessions[0].id] && Ids([]) == [];
    }
  }

  lemma {:induction false} DeletedIsKept(sessions: seq<Session>, id: string)
    ensures forall x :: x in Deleted(sessions, id) ==> x in sessions && x.id != id
  {
    if sessions != [] { DeletedIsKept(sessions[1..], id); }
  }

  /** Everything a record writes, but the eviction: the session's bucket moves to the end of the map. */
  predicate WrittenTo(before: seq<Session>, log: seq<Record>, r: Record, after: seq<Session>) {
    && BucketsOk(before, log) && Ids(before) == Recency(Values(log))
    && BucketsOk(after, log + [r]) && Ids(after) == Recency(Values(log + [r]))
  }

  lemma OfMore(log: seq<Record>, r: Record, id: string)
    ensures Of(log + [r], id) == Of(log, id) + (if r.value.sessionId == id then [r] else [])
    ensures Values(log + [r]) == Values(log) + [r.value]
  {
    assert (log + [r])[..|log|] == log;
  }

  function Bucket(sessions: seq<Session>, id: string): Session {
    var k := Find(sessions, id);
    if k < |sessions| then sessions[k] else Session(id, [], {})
  }

  lemma {:induction false} NothingOf(log: seq<Record>, id: string)
    requires forall i | 0 <= i < |log| :: log[i].value.sessionId != id
    ensures Of(log, id) == []
    decreases |log|
  {
    if log != [] { NothingOf(log[..|log| - 1], id); }
  }

  lemma BucketIs(sessions: seq<Session>, log: seq<Record>, id: string)
    requires BucketsOk(sessions, log) && Ids(sessions) == Recency(Values(log))
    ensures Bucket(sessions, id) == Session(id, Of(log, id), Seen(Of(log, id)))
  {
    var k := Find(sessions, id);
    if k == |sessions| {
      RecencyHas(Values(log), id);
      forall i | 0 <= i < |log| ensures log[i].value.sessionId != id {
        assert Values(log)[i].sessionId == log[i].value.sessionId;
      }
      NothingOf(log, id);
      assert Seen([]) == {};
    }
  }

  /** The bucket deleted, and set again at the end. */
  function Written(sessions: seq<Session>, r: Record): seq<Session> {
    var id := r.value.sessionId;
    var bucket := Bucket(sessions, id);
    Deleted(sessions, id) + [Session(id, bucket.entries + [r], bucket.seen + {Occurrence(r.value)})]
  }

  lemma WriteIs(sessions: seq<Session>, log: seq<Record>, r: Record)
    requires BucketsOk(sessions, log) && Ids(sessions) == Recency(Values(log))
    ensures WrittenTo(sessions, log, r, Written(sessions, r))
  {
    var id, after := r.value.sessionId, Written(sessions, r);
    BucketIs(sessions, log, id);
    OfMore(log, r, id);
    SeenMore(Of(log, id), r);
    DeletedIsKept(sessions, id);
    forall i | 0 <= i < |after|
      ensures after[i].entries == Of(log + [r], after[i].id) && after[i].seen == Seen(after[i].entries)
    {
      OfMore(log, r, after[i].id);
      if i < |after| - 1 { assert after[i] in Deleted(sessions, id); }
    }
    WriteIds(sessions, log, r);
  }

  lemma WriteIds(sessions: seq<Session>, log: seq<Record>, r: Record)
    requires Ids(sessions) == Recency(Values(log))
    ensures Ids(Written(sessions, r)) == Recency(Values(log + [r]))
  {
    var id, after := r.value.sessionId, Written(sessions, r);
    DeletedIds(sessions, id);
    IdsAppend(Deleted(sessions, id), [after[|after| - 1]]);
    assert Ids([after[|after| - 1]]) == [id];
    OfMore(log, r, id);
    var es := Values(log + [r]);
    assert es[..|es| - 1] == Values(log);
  }

  lemma {:induction false} RecencyWithout(es: seq<Entry>, id: string)
    ensures Recency(Without(es, id)) == Removed(Recency(es), id)
    decreases |es|
  {
    if es != [] {
      var most, last := es[..|es| - 1], es[|es| - 1];
      RecencyWithout(most, id);
      RemovedAppend(Removed(Recency(most), last.sessionId), [last.sessionId], id);
      RemovedTwice(Recency(most), last.sessionId, id);
      var rest := Without(most, id);
      if last.sessionId == id {
        assert rest + [] == rest && Removed([id], id) == [];
      } else {
        assert (rest + [last])[..|rest|] == rest;
        assert Removed([last.sessionId], id) == [last.sessionId];
      }
    }
  }

  lemma {:induction false} RemovedAppend(xs: seq<string>, ys: seq<string>, id: string)
    ensures Removed(xs + ys, id) == Removed(xs, id) + Removed(ys, id)
  {
    if xs == [] { assert xs + ys == ys; }
    else {
      assert (xs + ys)[1..] == xs[1..] + ys;
      RemovedAppend(xs[1..], ys, id);
    }
  }

  lemma {:induction false} RemovedTwice(xs: seq<string>, a: string, b: string)
    ensures Removed(Removed(xs, a), b) == Removed(Removed(xs, b), a)
    ensures a == b ==> Removed(Removed(xs, a), b) == Removed(xs, a)
  {
    if xs != [] {
      var rest := xs[1..];
      RemovedTwice(rest, a, b);
      RemovedCons(xs[0], Removed(rest, a), b);
      RemovedCons(xs[0], Removed(rest, b), a);
      assert [] + Removed(rest, a) == Removed(rest, a) && [] + Removed(rest, b) == Removed(rest, b);
    }
  }

  lemma RemovedCons(x: string, xs: seq<string>, id: string)
    ensures Removed([x] + xs, id) == (if x == id then [] else [x]) + Removed(xs, id)
  {
    assert ([x] + xs)[1..] == xs;
  }

  /** The oldest session evicted: the first of the map. */
  lemma EvictIs(sessions: seq<Session>, log: seq<Record>)
    requires sessions != [] && BucketsOk(sessions, log) && Ids(sessions) == Recency(Values(log))
    ensures var kept := Others(log, sessions[0].id);
            && BucketsOk(sessions[1..], kept) && Ids(sessions[1..]) == Recency(Values(kept))
            && Values(kept) == Without(Values(log), Recency(Values(log))[0])
  {
    IdsCons(sessions);
    ValuesOthers(log, sessions[0].id);
    RecencyEvicts(Values(log));
    RecencyDistinct(Values(log));
    EvictKeepsBuckets(sessions, log);
  }

  /** Without its least recently written session, the rest keep their order. */
  lemma RecencyEvicts(es: seq<Entry>)
    requires Recency(es) != []
    ensures Recency(Without(es, Recency(es)[0])) == Recency(es)[1..]
  {
    RecencyDistinct(es);
    RecencyWithout(es, Recency(es)[0]);
    RemovedFirst(Recency(es));
  }

  lemma RemovedFirst(ids: seq<string>)
    requires Distinct(ids) && ids != []
    ensures Removed(ids, ids[0]) == ids[1..]
  {
    assert ids[0] !in ids[1..];
    RemovedAbsent(ids[1..], ids[0]);
  }

  lemma {:induction false} RemovedAbsent(ids: seq<string>, id: string)
    requires id !in ids
    ensures Removed(ids, id) == ids
  {
    if ids != [] { RemovedAbsent(ids[1..], id); }
  }

  lemma {:induction false} OthersInOrder(log: seq<Record>, id: string, sequence: nat)
    requires InOrder(log, sequence)
    ensures InOrder(Others(log, id), sequence)
    ensures forall i | 0 <= i < |Others(log, id)| :: Others(log, id)[i] in log
    decreases |log|
  {
    if log != [] {
      var most, last := log[..|log| - 1], log[|log| - 1];
      OthersInOrder(most, id, last.index);
      OthersIs(log, id);
    }
  }

  /** The bucket's keys say what the list does. */
  lemma SeenIsDuplicate(log: seq<Record>, e: Entry)
    ensures Occurrence(e) in Seen(Of(log, e.sessionId)) <==> Duplicate(Values(log), e)
  {
    var es := Values(log);
    OfHas(log, e.sessionId, Occurrence(e));
    forall i | 0 <= i < |log|
      ensures Occurrence(log[i].value) == Occurrence(e) <==> es[i].runId == e.runId && es[i].turnIndex == e.turnIndex
    {
      OccurrenceIsTheTurn(log[i].value, e);
    }
    if Occurrence(e) in Seen(Of(log, e.sessionId)) {
      var i :| 0 <= i < |log| && IsOf(log[i], e.sessionId, Occurrence(e));
      assert es[i].sessionId == e.sessionId;
    }
    if Duplicate(es, e) {
      var i :| 0 <= i < |es| && es[i].sessionId == e.sessionId && es[i].runId == e.runId
          && es[i].turnIndex == e.turnIndex;
      assert IsOf(log[i], e.sessionId, Occurrence(e));
    }
  }

  lemma LogIsCovered(sessions: seq<Session>, log: seq<Record>)
    requires Ids(sessions) == Recency(Values(log))
    ensures Covered(log, Ids(sessions))
    ensures Distinct(Ids(sessions))
  {
    RecencyDistinct(Values(log));
    forall i | 0 <= i < |log| ensures log[i].value.sessionId in Ids(sessions) {
      assert Values(log)[i].sessionId == log[i].value.sessionId;
      RecencyHas(Values(log), log[i].value.sessionId);
    }
  }

  class Ledger {
    const maxSessions: nat
    var sequence: nat
    var sessions: seq<Session>
    /** What is retained, in the order recorded. */
    ghost var log: seq<Record>

    ghost predicate Valid()
      reads this
    {
      && 1 <= maxSessions && |sessions| <= maxSessions
      && InOrder(log, sequence) && BucketsOk(sessions, log) && Ids(sessions) == Recency(Values(log))
    }

    ghost function Contents(): (es: seq<Entry>)
      reads this
    {
      Values(log)
    }

    constructor (max: nat)
      requires max >= 1
      ensures Valid() && maxSessions == max && Contents() == []
    {
      maxSessions, sequence, sessions, log := max, 0, [], [];
    }

    /** `record`: the ledger's entries go on as the flat list does. */
    method Record(e: Entry)
      requires Valid()
      modifies this
      ensures Valid() && Contents() == Recorded(old(Contents()), e, maxSessions)
    {
      var bucket := Bucket(sessions, e.sessionId);
      BucketIs(sessions, log, e.sessionId);
      SeenIsDuplicate(log, e);
      if Occurrence(e) in bucket.seen { return; }
      var r := Indexed(sequence, e);
      WriteIs(sessions, log, r);
      OfMore(log, r, e.sessionId);
      WrittenLength(sessions, r);
      sessions, sequence, log := Written(sessions, r), sequence + 1, log + [r];
      ghost var grown := Values(log);
      while |sessions| > maxSessions
        invariant InOrder(log, sequence) && BucketsOk(sessions, log) && Ids(sessions) == Recency(Values(log))
        invariant |sessions| <= maxSessions + 1
        invariant |sessions| > maxSessions ==> Values(log) == grown
        invariant |sessions| <= maxSessions ==> Values(log) == Trimmed(grown, maxSessions)
      {
        EvictIs(sessions, log);
        OthersInOrder(log, sessions[0].id, sequence);
        log := Others(log, sessions[0].id);
        sessions := sessions[1..];
      }
    }

    /** `entries`: the buckets, flattened and sorted by sequence, are the list as recorded. */
    method Entries() returns (es: seq<Entry>)
      requires Valid()
      ensures es == Contents()
    {
      var flat := Flatten(sessions);
      LogIsCovered(sessions, log);
      BucketsAreTheLog(sessions, log);
      SortSorts(flat);
      SortedIsUnique(Sort(flat), log);
      es := Values(Sort(flat));
    }

    /** `run`. */
    method Run(runId: string) returns (totals: Totals)
      requires Valid()
      ensures totals == Sum(OfRun(Contents(), runId))
    {
      var es := Entries();
      totals := Add(OfRun(es, runId));
    }

    /** `totals`. */
    method Totals() returns (totals: Totals)
      requires Valid()
      ensures totals == Sum(Contents())
    {
      var es := Entries();
      totals := Add(es);
    }
  }

  lemma WrittenLength(sessions: seq<Session>, r: Record)
    ensures |Written(sessions, r)| <= |sessions| + 1
  {
    DeletedLength(sessions, r.value.sessionId);
  }

  lemma {:induction false} DeletedLength(sessions: seq<Session>, id: string)
    ensures |Deleted(sessions, id)| <= |sessions|
  {
    if sessions != [] { DeletedLength(sessions[1..], id); }
  }

  // ------------------------------------------------------------------------- totals

  datatype Totals = Totals(
    turns: nat, toolCalls: nat, inputTokens: nat, outputTokens: nat, cost: Option<real>, elapsedMillis: nat)

  const EMPTY := Totals(0, 0, 0, 0, None, 0)

  function Counted(t: Totals, e: Entry): Totals {
    Totals(t.turns + 1, t.toolCalls + e.toolCalls, t.inputTokens + e.inputTokens, t.outputTokens + e.outputTokens,
           if e.cost.Some? then Some((if t.cost.Some? then t.cost.value else 0.0) + e.cost.value) else t.cost,
           Max(t.elapsedMillis, e.elapsedMillis))
  }

  function Sum(es: seq<Entry>): Totals
    decreases |es|
  {
    if es == [] then EMPTY else Counted(Sum(es[..|es| - 1]), es[|es| - 1])
  }

  /** `sum`, as it loops. */
  method Add(es: seq<Entry>) returns (totals: Totals)
    ensures totals == Sum(es)
  {
    totals := EMPTY;
    for i := 0 to |es|
      invariant totals == Sum(es[..i])
    {
      assert es[..i + 1][..i] == es[..i];
      totals := Counted(totals, es[i]);
    }
    assert es[..|es|] == es;
  }

  function OfRun(es: seq<Entry>, runId: string): seq<Entry>
    decreases |es|
  {
    if es == [] then []
    else OfRun(es[..|es| - 1], runId) + (if es[|es| - 1].runId == runId then [es[|es| - 1]] else [])
  }

  function OtherRuns(es: seq<Entry>, runId: string): seq<Entry>
    decreases |es|
  {
    if es == [] then []
    else OtherRuns(es[..|es| - 1], runId) + (if es[|es| - 1].runId == runId then [] else [es[|es| - 1]])
  }

  /** Two totals together. */
  function Plus(a: Totals, b: Totals): Totals {
    Totals(a.turns + b.turns, a.toolCalls + b.toolCalls, a.inputTokens + b.inputTokens, a.outputTokens + b.outputTokens,
           if a.cost.None? then b.cost else if b.cost.None? then a.cost else Some(a.cost.value + b.cost.value),
           Max(a.elapsedMillis, b.elapsedMillis))
  }

  function SumOfRuns(es: seq<Entry>, runs: seq<string>): Totals {
    if runs == [] then EMPTY else Plus(Sum(OfRun(es, runs[0])), SumOfRuns(es, runs[1..]))
  }

  lemma CountedPlus(a: Totals, b: Totals, e: Entry)
    ensures Plus(Counted(a, e), b) == Counted(Plus(a, b), e) && Plus(a, Counted(b, e)) == Counted(Plus(a, b), e)
  {
  }

  lemma SumMore(es: seq<Entry>, e: Entry)
    ensures Sum(es + [e]) == Counted(Sum(es), e) && es + [] == es
  {
    assert (es + [e])[..|es|] == es;
  }

  lemma PlusEmpty(t: Totals)
    ensures Plus(EMPTY, t) == t
  {
  }

  lemma OfRunMore(es: seq<Entry>, runId: string)
    requires es != []
    ensures var most, last := es[..|es| - 1], es[|es| - 1];
            if last.runId == runId
            then OfRun(es, runId) == OfRun(most, runId) + [last] && OtherRuns(es, runId) == OtherRuns(most, runId)
            else OfRun(es, runId) == OfRun(most, runId) && OtherRuns(es, runId) == OtherRuns(most, runId) + [last]
  {
  }

  lemma {:induction false} SplitRun(es: seq<Entry>, runId: string)
    ensures Plus(Sum(OfRun(es, runId)), Sum(OtherRuns(es, runId))) == Sum(es)
    decreases |es|
  {
    var of, others := OfRun(es, runId), OtherRuns(es, runId);
    if es == [] {
      PlusEmpty(Sum(others));
    } else {
      var most, last := es[..|es| - 1], es[|es| - 1];
      SplitRun(most, runId);
      OfRunMore(es, runId);
      SplitOne(OfRun(most, runId), OtherRuns(most, runId), most, last);
      assert Sum(es) == Counted(Sum(most), last);
      assert Plus(Sum(of), Sum(others)) == Counted(Sum(most), last);
    }
  }

  lemma SplitOne(of: seq<Entry>, others: seq<Entry>, all: seq<Entry>, e: Entry)
    requires Plus(Sum(of), Sum(others)) == Sum(all)
    ensures Plus(Sum(of + [e]), Sum(others)) == Counted(Sum(all), e)
    ensures Plus(Sum(of), Sum(others + [e])) == Counted(Sum(all), e)
  {
    SumMore(of, e);
    SumMore(others, e);
    CountedPlus(Sum(of), Sum(others), e);
  }

  lemma {:induction false} OtherRunsIs(es: seq<Entry>, runId: string)
    ensures forall i | 0 <= i < |OtherRuns(es, runId)| ::
              OtherRuns(es, runId)[i] in es && OtherRuns(es, runId)[i].runId != runId
    decreases |es|
  {
    if es != [] {
      OtherRunsIs(es[..|es| - 1], runId);
      assert forall e :: e in es[..|es| - 1] ==> e in es;
    }
  }

  lemma {:induction false} OfOtherRuns(es: seq<Entry>, runId: string, other: string)
    requires other != runId
    ensures OfRun(OtherRuns(es, runId), other) == OfRun(es, other)
    decreases |es|
  {
    if es != [] {
      var most, last := es[..|es| - 1], es[|es| - 1];
      OfOtherRuns(most, runId, other);
      var rest := OtherRuns(most, runId);
      if last.runId == runId { assert rest + [] == rest; } else { assert (rest + [last])[..|rest|] == rest; }
    }
  }

  lemma {:induction false} SumOtherRuns(es: seq<Entry>, runId: string, runs: seq<string>)
    requires runId !in runs
    ensures SumOfRuns(OtherRuns(es, runId), runs) == SumOfRuns(es, runs)
    decreases |runs|
  {
    if runs != [] {
      OfOtherRuns(es, runId, runs[0]);
      SumOtherRuns(es, runId, runs[1..]);
    }
  }

  /** MAIN: the totals are the sum of every run's own, with the latest elapsed time of any. */
  lemma {:induction false} TotalsAreOfRuns(es: seq<Entry>, runs: seq<string>)
    requires Distinct(runs) && forall i | 0 <= i < |es| :: es[i].runId in runs
    ensures Sum(es) == SumOfRuns(es, runs)
    decreases |runs|
  {
    if runs == [] {
      assert es == [];
    } else {
      var others := OtherRuns(es, runs[0]);
      SplitRun(es, runs[0]);
      OtherRunsIs(es, runs[0]);
      assert runs == [runs[0]] + runs[1..];
      TotalsAreOfRuns(others, runs[1..]);
      SumOtherRuns(es, runs[0], runs[1..]);
    }
  }

  // -------------------------------------------------------------------- the flat list

  /** MAIN: recording a turn again at once changes nothing, whatever else the second record says of it. */
  lemma RecordTwice(es: seq<Entry>, e: Entry, again: Entry, maxSessions: nat)
    requires maxSessions >= 1
    requires again.sessionId == e.sessionId && again.runId == e.runId && again.turnIndex == e.turnIndex
    ensures var once := Recorded(es, e, maxSessions); Recorded(once, again, maxSessions) == once
  {
    var once, grown := Recorded(es, e, maxSessions), es + [e];
    if Duplicate(es, e) {
      assert Duplicate(once, again);
    } else {
      var ids := Recency(grown);
      RecencyDistinct(grown);
      assert grown[..|es|] == es && ids[|ids| - 1] == e.sessionId;
      assert |ids| > 1 ==> ids[0] != ids[|ids| - 1];
      assert once[|once| - 1] == e;
    }
  }

  /** MAIN: what is evicted is the session written least recently, whole, and nothing else. */
  lemma EvictsTheOldest(es: seq<Entry>, e: Entry, maxSessions: nat)
    requires !Duplicate(es, e) && |Recency(es + [e])| > maxSessions
    ensures var oldest := Recency(es + [e])[0];
            && Recorded(es, e, maxSessions) == Without(es + [e], oldest)
            && (forall i | 0 <= i < |es + [e]| ::
                LastWrite(es + [e], oldest) <= LastWrite(es + [e], (es + [e])[i].sessionId))
  {
    var grown := es + [e];
    RecencyOrders(grown);
    forall i | 0 <= i < |grown| ensures LastWrite(grown, Recency(grown)[0]) <= LastWrite(grown, grown[i].sessionId) {
      RecencyHas(grown, grown[i].sessionId);
      assert grown[i].sessionId in Recency(grown);
      var j :| 0 <= j < |Recency(grown)| && Recency(grown)[j] == grown[i].sessionId;
    }
  }
}
