/**
 The trace of a started submission (src/Agent.ts:1109-1151, 1203-1316). A collector updates the bounded trace
 and then publishes, as two steps; an observer subscribes and then snapshots, as two steps; the session
 emits in between. What each observer receives is stated for every interleaving of them.
 */
module Trace {
  import opened Base

  /** `size` is an envelope's wire size; `terminal`, that its event ends a submission. */
  datatype Envelope = Envelope(body: nat, size: nat, terminal: bool)

  datatype Bound = Bound(envelopes: nat, bytes: nat)

  datatype Trace = Trace(envelopes: seq<Envelope>, bytes: nat, received: nat, overflowed: bool, closed: bool)

  datatype Numbered = Numbered(index: nat, envelope: Envelope)

  /** An observer of `events`: subscribed, with what was published since; then with its snapshot too. */
  datatype Observer = Subscribed(live: seq<Numbered>) | Attached(live: seq<Numbered>, snapshot: Trace)

  /** `emitted` is everything the session has emitted; the collector takes it in order. */
  datatype State = State(
    emitted: seq<Envelope>, trace: Trace, unpublished: Option<Numbered>, observers: map<nat, Observer>)

  datatype Act = Emit(envelope: Envelope) | Collect | Publish | Subscribe(observer: nat) | Snapshot(observer: nat)

  // ------------------------------------------------------------------- the collector

  /** `Ref.modify(trace, ...)`: counting and closing go on past the bound; only retention stops. */
  function Collected(t: Trace, e: Envelope, bound: Bound): Trace {
    var received, closed := t.received + 1, t.closed || e.terminal;
    if t.overflowed || |t.envelopes| + 1 > bound.envelopes || t.bytes + e.size > bound.bytes
    then Trace(t.envelopes, t.bytes, received, true, closed)
    else Trace(t.envelopes + [e], t.bytes + e.size, received, false, closed)
  }

  const EMPTY := Trace([], 0, 0, false, false)

  function Bytes(es: seq<Envelope>): nat
    decreases |es|
  {
    if es == [] then 0 else Bytes(es[..|es| - 1]) + es[|es| - 1].size
  }

  predicate Fits(es: seq<Envelope>, bound: Bound) {
    |es| <= bound.envelopes && Bytes(es) <= bound.bytes
  }

  /** The collector's reference, updated in place. */
  class Collector {
    const bound: Bound
    var trace: Trace

    constructor (b: Bound)
      ensures bound == b && trace == EMPTY
    {
      bound := b;
      trace := EMPTY;
    }

    /** One turn of its loop: the numbered envelope it will publish. */
    method Take(e: Envelope) returns (numbered: Numbered)
      modifies this`trace
      ensures trace == Collected(old(trace), e, bound)
      ensures numbered == Numbered(old(trace).received, e)
    {
      var received, closed := trace.received + 1, trace.closed || e.terminal;
      if trace.overflowed {
        trace := trace.(received := received, closed := closed);
      } else {
        var bytes, envelopes := trace.bytes + e.size, trace.envelopes + [e];
        if |envelopes| > bound.envelopes || bytes > bound.bytes {
          trace := trace.(received := received, overflowed := true, closed := closed);
        } else {
          trace := Trace(envelopes, bytes, received, false, closed);
        }
      }
      numbered := Numbered(trace.received - 1, e);
    }
  }

  // --------------------------------------------------------------------------- steps

  function Delivered(o: Observer, n: Numbered): Observer {
    match o
    case Subscribed(live) => Subscribed(live + [n])
    case Attached(live, snapshot) => Attached(live + [n], snapshot)
  }

  function DoCollect(s: State, bound: Bound): State {
    if s.unpublished.Some? || s.trace.received >= |s.emitted| then s
    else
      var e := s.emitted[s.trace.received];
      s.(trace := Collected(s.trace, e, bound), unpublished := Some(Numbered(s.trace.received, e)))
  }

  function DoPublish(s: State): State {
    if s.unpublished.None? then s
    else s.(unpublished := None,
            observers := map k | k in s.observers :: Delivered(s.observers[k], s.unpublished.value))
  }

  function Step(s: State, act: Act, bound: Bound): State {
    match act
    case Emit(e) => s.(emitted := s.emitted + [e])
    case Collect => DoCollect(s, bound)
    case Publish => DoPublish(s)
    case Subscribe(k) => if k in s.observers then s else s.(observers := s.observers[k := Subscribed([])])
    case Snapshot(k) =>
      if k in s.observers && s.observers[k].Subscribed?
      then s.(observers := s.observers[k := Attached(s.observers[k].live, s.trace)]) else s
  }

  function After(acts: seq<Act>, bound: Bound): State
    decreases |acts|
  {
    if acts == [] then State([], EMPTY, None, map[])
    else Step(After(acts[..|acts| - 1], bound), acts[|acts| - 1], bound)
  }

  // ------------------------------------------------------------- what an observer reads

  /** `Stream.filter` by index, then `takeUntil` the terminal event. */
  function Following(live: seq<Numbered>, from: nat): seq<Envelope> {
    if live == [] then []
    else if live[0].index < from then Following(live[1..], from)
    else if live[0].envelope.terminal then [live[0].envelope]
    else [live[0].envelope] + Following(live[1..], from)
  }

  /** Everything the stream has yielded; an overflowed snapshot then fails, and a closed one ends. */
  function Read(o: Observer): seq<Envelope>
    requires o.Attached?
  {
    if o.snapshot.overflowed || o.snapshot.closed then o.snapshot.envelopes
    else o.snapshot.envelopes + Following(o.live, o.snapshot.received)
  }

  predicate Fails(o: Observer)
    requires o.Attached?
  {
    o.snapshot.overflowed
  }

  /** The stream has ended, well: by a closed snapshot, or on the terminal event. */
  predicate Ended(o: Observer)
    requires o.Attached?
  {
    && !o.snapshot.overflowed
    && (o.snapshot.closed || exists e :: e in Following(o.live, o.snapshot.received) && e.terminal)
  }

  // ----------------------------------------------------------------------- invariants

  /** How many envelopes have been published. */
  function Out(s: State): int {
    s.trace.received - (if s.unpublished.Some? then 1 else 0)
  }

  predicate Terminated(es: seq<Envelope>) {
    exists i | 0 <= i < |es| :: es[i].terminal
  }

  /** The retained prefix: all there was until the bound, and the first envelope past it is past it. */
  predicate TraceOk(t: Trace, emitted: seq<Envelope>, bound: Bound) {
    var n := |t.envelopes|;
    && n <= t.received <= |emitted| && t.envelopes == emitted[..n] && t.bytes == Bytes(t.envelopes)
    && Fits(t.envelopes, bound)
    && (if t.overflowed then n < t.received && !Fits(emitted[..n + 1], bound) else n == t.received)
    && (t.closed <==> Terminated(emitted[..t.received]))
  }

  /** An unbroken run of the published envelopes, up to the last of them. */
  predicate LiveOk(live: seq<Numbered>, emitted: seq<Envelope>, out: int) {
    && |live| <= out <= |emitted|
    && forall i | 0 <= i < |live| :: var at := out - |live| + i; live[i] == Numbered(at, emitted[at])
  }

  predicate ObserverOk(o: Observer, s: State, bound: Bound) {
    && LiveOk(o.live, s.emitted, Out(s))
    && (o.Attached? ==>
          && TraceOk(o.snapshot, s.emitted, bound) && o.snapshot.received <= s.trace.received
          && Out(s) - |o.live| <= o.snapshot.received)
  }

  predicate Inv(s: State, bound: Bound) {
    && TraceOk(s.trace, s.emitted, bound)
    && (s.unpublished.Some? ==>
          && s.trace.received > 0
          && s.unpublished.value == Numbered(s.trace.received - 1, s.emitted[s.trace.received - 1]))
    && forall k | k in s.observers :: ObserverOk(s.observers[k], s, bound)
  }

  lemma TerminatedMore(es: seq<Envelope>, n: nat)
    requires n < |es|
    ensures Terminated(es[..n + 1]) <==> Terminated(es[..n]) || es[n].terminal
  {
    assert es[..n + 1] == es[..n] + [es[n]];
    if Terminated(es[..n]) {
      var i :| 0 <= i < n && es[..n][i].terminal;
      assert es[..n + 1][i].terminal;
    }
    assert es[..n + 1][n] == es[n];
  }

  lemma OneEnvelopeMore(es: seq<Envelope>, n: nat)
    requires n < |es|
    ensures es[..n] + [es[n]] == es[..n + 1] && Bytes(es[..n + 1]) == Bytes(es[..n]) + es[n].size
  {
    assert es[..n + 1][..n] == es[..n];
  }

  lemma CollectKeepsTrace(t: Trace, emitted: seq<Envelope>, bound: Bound)
    requires TraceOk(t, emitted, bound) && t.received < |emitted|
    ensures TraceOk(Collected(t, emitted[t.received], bound), emitted, bound)
  {
    TerminatedMore(emitted, t.received);
    if !t.overflowed { OneEnvelopeMore(emitted, t.received); }
  }

  lemma EmitKeepsTrace(t: Trace, emitted: seq<Envelope>, e: Envelope, bound: Bound)
    requires TraceOk(t, emitted, bound)
    ensures TraceOk(t, emitted + [e], bound)
  {
    assert (emitted + [e])[..t.received] == emitted[..t.received];
    assert (emitted + [e])[..|t.envelopes|] == emitted[..|t.envelopes|];
    if t.overflowed { assert (emitted + [e])[..|t.envelopes| + 1] == emitted[..|t.envelopes| + 1]; }
  }

  lemma EmitKeepsLive(live: seq<Numbered>, emitted: seq<Envelope>, e: Envelope, out: int)
    requires LiveOk(live, emitted, out)
    ensures LiveOk(live, emitted + [e], out)
  {
  }

  lemma EmitKeepsObserver(o: Observer, s: State, e: Envelope, bound: Bound)
    requires ObserverOk(o, s, bound)
    ensures ObserverOk(o, s.(emitted := s.emitted + [e]), bound)
  {
    EmitKeepsLive(o.live, s.emitted, e, Out(s));
    if o.Attached? { EmitKeepsTrace(o.snapshot, s.emitted, e, bound); }
  }

  lemma EmitKeepsInv(s: State, e: Envelope, bound: Bound)
    requires Inv(s, bound)
    ensures Inv(s.(emitted := s.emitted + [e]), bound)
  {
    EmitKeepsTrace(s.trace, s.emitted, e, bound);
    forall k | k in s.observers ensures ObserverOk(s.observers[k], s.(emitted := s.emitted + [e]), bound) {
      EmitKeepsObserver(s.observers[k], s, e, bound);
    }
  }

  lemma CollectKeepsInv(s: State, bound: Bound)
    requires Inv(s, bound)
    ensures Inv(DoCollect(s, bound), bound)
  {
    if s.unpublished.None? && s.trace.received < |s.emitted| { CollectKeepsTrace(s.trace, s.emitted, bound); }
  }

  lemma LiveMore(live: seq<Numbered>, emitted: seq<Envelope>, out: int)
    requires LiveOk(live, emitted, out) && out < |emitted|
    ensures LiveOk(live + [Numbered(out, emitted[out])], emitted, out + 1)
  {
  }

  lemma DeliveredOk(o: Observer, s: State, bound: Bound)
    requires s.unpublished.Some? && 0 < s.trace.received <= |s.emitted|
    requires s.unpublished.value == Numbered(s.trace.received - 1, s.emitted[s.trace.received - 1])
    requires ObserverOk(o, s, bound)
    ensures ObserverOk(Delivered(o, s.unpublished.value), DoPublish(s), bound)
  {
    LiveMore(o.live, s.emitted, Out(s));
  }

  lemma PublishKeepsInv(s: State, bound: Bound)
    requires Inv(s, bound)
    ensures Inv(DoPublish(s), bound)
  {
    if s.unpublished.Some? {
      var t := DoPublish(s);
      forall k | k in t.observers ensures ObserverOk(t.observers[k], t, bound) {
        DeliveredOk(s.observers[k], s, bound);
      }
    }
  }

  lemma SubscribeKeepsInv(s: State, k: nat, bound: Bound)
    requires Inv(s, bound)
    ensures Inv(Step(s, Subscribe(k), bound), bound)
  {
  }

  lemma SnapshotKeepsInv(s: State, k: nat, bound: Bound)
    requires Inv(s, bound)
    ensures Inv(Step(s, Snapshot(k), bound), bound)
  {
  }

  lemma {:induction false} Always(acts: seq<Act>, bound: Bound)
    ensures Inv(After(acts, bound), bound)
    decreases |acts|
  {
    if acts != [] {
      Always(acts[..|acts| - 1], bound);
      StepKeepsInv(After(acts[..|acts| - 1], bound), acts[|acts| - 1], bound);
    }
  }

  lemma StepKeepsInv(s: State, act: Act, bound: Bound)
    requires Inv(s, bound)
    ensures Inv(Step(s, act, bound), bound)
  {
    match act {
      case Emit(e) => EmitKeepsInv(s, e, bound);
      case Collect => CollectKeepsInv(s, bound);
      case Publish => PublishKeepsInv(s, bound);
      case Subscribe(k) => SubscribeKeepsInv(s, k, bound);
      case Snapshot(k) => SnapshotKeepsInv(s, k, bound);
    }
  }

  // ------------------------------------------------------------------------- theorems

  /** The session emits nothing after the event that ends its submission. */
  predicate TerminalIsLast(es: seq<Envelope>) {
    forall i | 0 <= i < |es| - 1 :: !es[i].terminal
  }

  lemma LiveRest(live: seq<Numbered>, emitted: seq<Envelope>, out: int)
    requires live != [] && LiveOk(live, emitted, out)
    ensures live[0] == Numbered(out - |live|, emitted[out - |live|]) && LiveOk(live[1..], emitted, out)
  {
    forall i | 0 <= i < |live[1..]|
      ensures live[1..][i] == Numbered(out - |live[1..]| + i, emitted[out - |live[1..]| + i])
    {
      assert live[1..][i] == live[i + 1];
    }
  }

  lemma SliceCons(es: seq<Envelope>, from: nat, out: nat)
    requires from < out <= |es|
    ensures es[from..out] == [es[from]] + es[from + 1..out]
  {
  }

  /** Before the first envelope kept there is nothing to filter out. */
  lemma {:induction false} LowerIsAlike(live: seq<Numbered>, emitted: seq<Envelope>, out: nat, lower: nat)
    requires LiveOk(live, emitted, out) && lower <= out - |live|
    ensures Following(live, lower) == Following(live, out - |live|)
    decreases |live|
  {
    if live != [] {
      LiveRest(live, emitted, out);
      LowerIsAlike(live[1..], emitted, out, lower);
      LowerIsAlike(live[1..], emitted, out, out - |live|);
    }
  }

  /** From the first envelope kept on, the filter keeps every other. */
  lemma {:induction false} FollowingAll(live: seq<Numbered>, emitted: seq<Envelope>, out: nat)
    requires LiveOk(live, emitted, out) && TerminalIsLast(emitted)
    ensures Following(live, out - |live|) == emitted[out - |live|..out]
    decreases |live|
  {
    if live != [] {
      var at := out - |live|;
      LiveRest(live, emitted, out);
      SliceCons(emitted, at, out);
      FollowingAll(live[1..], emitted, out);
      LowerIsAlike(live[1..], emitted, out, at);
      if emitted[at].terminal { assert at == |emitted| - 1; }
    }
  }

  lemma {:induction false} FollowingIsRest(live: seq<Numbered>, emitted: seq<Envelope>, out: nat, from: nat)
    requires LiveOk(live, emitted, out) && TerminalIsLast(emitted) && out - |live| <= from
    ensures Following(live, from) == if from <= out then emitted[from..out] else []
    decreases |live|
  {
    if live != [] {
      LiveRest(live, emitted, out);
      if out - |live| < from { FollowingIsRest(live[1..], emitted, out, from); }
      else { FollowingAll(live, emitted, out); }
    }
  }

  /** What an observer that attached in time has read: a prefix of the emission, up to the last envelope published. */
  function Reach(s: State, o: Observer): int
    requires o.Attached?
  {
    Max(Out(s), o.snapshot.received)
  }

  /**
   MAIN: trace completeness. Whenever an observer attached, if the trace had not overflowed by then, it has
   read exactly the envelopes emitted from the first to the last published, in order, with no gap and no
   duplicate -- whatever was emitted, collected or published between its two steps, and whether or not the
   trace overflows later. It ends exactly when it has read the terminal event.
   */
  lemma AttachedInTimeReadsAll(acts: seq<Act>, bound: Bound, k: nat)
    ensures var s := After(acts, bound);
            TerminalIsLast(s.emitted) && k in s.observers && s.observers[k].Attached? && !Fails(s.observers[k]) ==>
              var o := s.observers[k];
              && 0 <= Reach(s, o) <= |s.emitted| && Read(o) == s.emitted[..Reach(s, o)]
              && (Ended(o) <==> Terminated(Read(o)))
  {
    Always(acts, bound);
    var s := After(acts, bound);
    if TerminalIsLast(s.emitted) && k in s.observers && s.observers[k].Attached? && !Fails(s.observers[k]) {
      assert ObserverOk(s.observers[k], s, bound);
      ReadsAll(s, s.observers[k], bound);
    }
  }

  lemma ReadsAll(s: State, o: Observer, bound: Bound)
    requires o.Attached? && ObserverOk(o, s, bound) && TraceOk(s.trace, s.emitted, bound)
    requires TerminalIsLast(s.emitted) && !Fails(o)
    ensures 0 <= Reach(s, o) <= |s.emitted| && Read(o) == s.emitted[..Reach(s, o)]
    ensures Ended(o) <==> Terminated(Read(o))
  {
    var r, es := o.snapshot.received, s.emitted;
    if o.snapshot.closed {
      ClosedIsAll(o.snapshot, es, bound);
    } else {
      FollowingIsRest(o.live, es, Out(s), r);
      RestFollows(es, r, Out(s));
      EndsTogether(es[..r], Following(o.live, r), Read(o));
    }
  }

  /** A trace that has closed holds the terminal event, and so everything. */
  lemma ClosedIsAll(t: Trace, emitted: seq<Envelope>, bound: Bound)
    requires TraceOk(t, emitted, bound) && t.closed && !t.overflowed && TerminalIsLast(emitted)
    ensures t.received == |emitted| && t.envelopes == emitted && Terminated(emitted)
  {
    var read := emitted[..t.received];
    var i :| 0 <= i < |read| && read[i].terminal;
    assert emitted[i].terminal;
    assert read == emitted;
  }

  lemma RestFollows(es: seq<Envelope>, r: nat, out: int)
    requires r <= |es| && out <= |es|
    ensures es[..r] + (if r <= out then es[r..out] else []) == es[..Max(out, r)]
  {
  }

  lemma EndsTogether(before: seq<Envelope>, following: seq<Envelope>, all: seq<Envelope>)
    requires all == before + following && !Terminated(before)
    ensures (exists e :: e in following && e.terminal) <==> Terminated(all)
  {
    if Terminated(all) {
      var i :| 0 <= i < |all| && all[i].terminal;
      assert i >= |before| by {
        forall j | 0 <= j < |before| ensures !all[j].terminal { assert all[j] == before[j]; }
      }
      assert following[i - |before|] in following;
    }
    if e :| e in following && e.terminal {
      var i :| 0 <= i < |following| && following[i] == e;
      assert all[|before| + i].terminal;
    }
  }

  /** And once the collector has caught up with a finished submission, it has read all of it, and ended. */
  lemma CaughtUpIsComplete(acts: seq<Act>, bound: Bound, k: nat)
    ensures var s := After(acts, bound);
            TerminalIsLast(s.emitted) && Terminated(s.emitted) && Out(s) == |s.emitted|
            && k in s.observers && s.observers[k].Attached? && !Fails(s.observers[k]) ==>
              Read(s.observers[k]) == s.emitted && Ended(s.observers[k])
  {
    AttachedInTimeReadsAll(acts, bound, k);
    var s := After(acts, bound);
    assert s.emitted[..|s.emitted|] == s.emitted;
  }

  /**
   MAIN: an observer that attached too late reads exactly the retained prefix and then fails: as much of
   the emission as fits both bounds, one envelope more not fitting, and at least one envelope missing.
   */
  lemma AttachedLateReadsThePrefix(acts: seq<Act>, bound: Bound, k: nat)
    ensures var s := After(acts, bound);
            k in s.observers && s.observers[k].Attached? && Fails(s.observers[k]) ==>
              var read := Read(s.observers[k]);
              && |read| < |s.emitted| && read == s.emitted[..|read|]
              && Fits(read, bound) && !Fits(s.emitted[..|read| + 1], bound)
  {
    Always(acts, bound);
    var s := After(acts, bound);
    if k in s.observers { assert ObserverOk(s.observers[k], s, bound); }
  }

  /** MAIN: retention never exceeds either bound, and counts its bytes exactly. */
  lemma {:induction false} RetentionIsBounded(acts: seq<Act>, bound: Bound)
    ensures var t := After(acts, bound).trace;
            |t.envelopes| <= bound.envelopes && t.bytes == Bytes(t.envelopes) <= bound.bytes
  {
    Always(acts, bound);
  }

  // ------------------------------------------------------------------ the collector gets there

  /** Steps of the collector's own. */
  predicate OwnSteps(acts: seq<Act>) {
    forall i | 0 <= i < |acts| :: acts[i].Collect? || acts[i].Publish?
  }

  /** What the collector's steps leave: the emission, and which observers there are and what they attached with. */
  predicate OnlyCollects(s: State, t: State) {
    && t.emitted == s.emitted && t.observers.Keys == s.observers.Keys
    && forall k | k in s.observers ::
         && (s.observers[k].Attached? <==> t.observers[k].Attached?)
         && (s.observers[k].Attached? ==> t.observers[k].snapshot == s.observers[k].snapshot)
  }

  lemma OneCollectorStep(s: State, bound: Bound) returns (act: Act)
    requires Inv(s, bound) && Out(s) < |s.emitted|
    ensures act.Collect? || act.Publish?
    ensures var t := Step(s, act, bound);
            && OnlyCollects(s, t) && t.trace.received + Out(t) == s.trace.received + Out(s) + 1
  {
    act := if s.unpublished.Some? then Publish else Collect;
  }

  lemma OneStepFirst(acts: seq<Act>, act: Act, rest: seq<Act>)
    requires (act.Collect? || act.Publish?) && OwnSteps(rest)
    ensures acts + ([act] + rest) == (acts + [act]) + rest && OwnSteps([act] + rest)
  {
    assert forall i | 1 <= i < |[act] + rest| :: ([act] + rest)[i] == rest[i - 1];
  }

  lemma {:induction false} CollectorCatchesUp(acts: seq<Act>, bound: Bound, s: State) returns (more: seq<Act>, t: State)
    requires s == After(acts, bound)
    ensures OwnSteps(more) && t == After(acts + more, bound) && OnlyCollects(s, t) && Out(t) == |t.emitted|
    decreases 2 * |s.emitted| - s.trace.received - Out(s)
  {
    Always(acts, bound);
    if Out(s) == |s.emitted| {
      more, t := [], s;
      assert acts + more == acts;
    } else {
      var act := OneCollectorStep(s, bound);
      var next := Step(s, act, bound);
      assert (acts + [act])[..|acts|] == acts;
      Always(acts + [act], bound);
      var rest;
      rest, t := CollectorCatchesUp(acts + [act], bound, next);
      more := [act] + rest;
      OneStepFirst(acts, act, rest);
    }
  }

  /** Who subscribes and then takes a snapshot is attached, with the trace as it is then. */
  lemma Attaches(acts: seq<Act>, bound: Bound, k: nat, s: State, t: State)
    requires s == After(acts, bound) && k !in s.observers
    requires t == After(acts + [Subscribe(k), Snapshot(k)], bound)
    ensures t.emitted == s.emitted && k in t.observers
    ensures t.observers[k].Attached? && t.observers[k].snapshot == s.trace
  {
    var subscribed := acts + [Subscribe(k)];
    var all := acts + [Subscribe(k), Snapshot(k)];
    assert subscribed[..|acts|] == acts && subscribed[|acts|] == Subscribe(k);
    assert all[..|all| - 1] == subscribed && all[|all| - 1] == Snapshot(k);
  }

  /**
   MAIN: an observer that attaches whenever the trace has not overflowed comes to read the whole of a finished
   submission and to end, by the collector's own steps and nothing else.
   */
  lemma ComesToReadAll(acts: seq<Act>, bound: Bound, k: nat, s: State) returns (more: seq<Act>, t: State)
    requires s == After(acts, bound) && k !in s.observers && !s.trace.overflowed
    requires TerminalIsLast(s.emitted) && Terminated(s.emitted)
    ensures OwnSteps(more) && t == After((acts + [Subscribe(k), Snapshot(k)]) + more, bound)
    ensures k in t.observers && t.observers[k].Attached? && t.emitted == s.emitted
    ensures Read(t.observers[k]) == s.emitted && Ended(t.observers[k])
  {
    var attached := acts + [Subscribe(k), Snapshot(k)];
    var u := After(attached, bound);
    Attaches(acts, bound, k, s, u);
    more, t := CollectorCatchesUp(attached, bound, u);
    CaughtUpIsComplete(attached + more, bound, k);
  }
}
