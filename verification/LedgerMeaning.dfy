/**
 What the run ledger's entries and totals are, entry by entry and field by field: which are kept after a record, which
 are a run's, and what each total counts (src/RunLedger.ts:60-184).
 */
module LedgerMeaning {
  import opened Base
  import opened Picking
  import opened RunLedger
  import Sums

  // ------------------------------------------------------------------- which entries

  function IsOfRun(es: seq<Entry>, runId: string): nat -> bool {
    (k: nat) => k < |es| && es[k].runId == runId
  }

  function IsOfAnother(es: seq<Entry>, id: string): nat -> bool {
    (k: nat) => k < |es| && es[k].sessionId != id
  }

  /** A run's entries are those with its id, in the order recorded. */
  lemma {:induction false} OfRunAt(es: seq<Entry>, runId: string) returns (ks: seq<nat>)
    ensures Picked(ks, |es|, IsOfRun(es, runId)) && OfRun(es, runId) == At(es, ks)
    decreases |es|
  {
    if es == [] {
      ks := [];
    } else {
      var n := |es| - 1;
      var before := OfRunAt(es[..n], runId);
      PickedSame(before, n, IsOfRun(es[..n], runId), IsOfRun(es, runId));
      ks := if es[n].runId == runId then before + [n] else before;
      PickedSnoc(before, n, IsOfRun(es, runId), ks);
      AtSnoc(es, before, es[n].runId == runId, ks);
    }
  }

  lemma {:induction false} WithoutAt(es: seq<Entry>, id: string) returns (ks: seq<nat>)
    ensures Picked(ks, |es|, IsOfAnother(es, id)) && Without(es, id) == At(es, ks)
    decreases |es|
  {
    if es == [] {
      ks := [];
    } else {
      var n := |es| - 1;
      var before := WithoutAt(es[..n], id);
      PickedSame(before, n, IsOfAnother(es[..n], id), IsOfAnother(es, id));
      ks := if es[n].sessionId != id then before + [n] else before;
      PickedSnoc(before, n, IsOfAnother(es, id), ks);
      AtSnoc(es, before, es[n].sessionId != id, ks);
    }
  }

  /** The sessions of a list of entries. */
  function Sessions(es: seq<Entry>): set<string> {
    set i | 0 <= i < |es| :: es[i].sessionId
  }

  /** An entry of the session after place `i`. */
  predicate WrittenAfter(es: seq<Entry>, id: string, i: nat) {
    exists k :: i < k < |es| && es[k].sessionId == id
  }

  /** The session's last entry, at `i`, comes before every other session's last. */
  predicate OldestAt(es: seq<Entry>, id: string, i: nat) {
    && i < |es| && es[i].sessionId == id && !WrittenAfter(es, id, i)
    && forall j | 0 <= j < |es| && es[j].sessionId != id :: WrittenAfter(es, es[j].sessionId, i)
  }

  ghost predicate Oldest(es: seq<Entry>, id: string) {
    exists i: nat :: OldestAt(es, id, i)
  }

  lemma {:induction false} LastWriteIs(es: seq<Entry>, id: string)
    ensures -1 <= LastWrite(es, id) < |es|
    ensures LastWrite(es, id) >= 0 ==> es[LastWrite(es, id)].sessionId == id
    ensures forall k | LastWrite(es, id) < k < |es| :: es[k].sessionId != id
    decreases |es|
  {
    if es != [] { LastWriteIs(es[..|es| - 1], id); }
  }

  lemma {:induction false} CountOf(ids: seq<string>, all: set<string>)
    requires Distinct(ids) && forall x :: x in all <==> x in ids
    ensures |all| == |ids|
    decreases |ids|
  {
    if ids == [] {
      assert all == {};
    } else {
      var rest := all - {ids[0]};
      assert ids[0] in ids && ids[0] !in ids[1..];
      forall x ensures x in rest <==> x in ids[1..] { assert x in ids <==> x == ids[0] || x in ids[1..]; }
      CountOf(ids[1..], rest);
    }
  }

  lemma SessionsCounted(es: seq<Entry>)
    ensures |Sessions(es)| == |Recency(es)|
  {
    RecencyDistinct(es);
    forall x ensures x in Sessions(es) <==> x in Recency(es) { RecencyHas(es, x); }
    CountOf(Recency(es), Sessions(es));
  }

  lemma FirstIsOldest(es: seq<Entry>)
    requires Recency(es) != []
    ensures Oldest(es, Recency(es)[0])
  {
    var id := Recency(es)[0];
    var i := LastWrite(es, id);
    RecencyOrders(es);
    RecencyHas(es, id);
    LastWriteIs(es, id);
    assert id in Recency(es);
    assert i >= 0 by {
      var m :| 0 <= m < |es| && es[m].sessionId == id;
    }
    forall j | 0 <= j < |es| && es[j].sessionId != id ensures WrittenAfter(es, es[j].sessionId, i) {
      var other := es[j].sessionId;
      RecencyHas(es, other);
      LastWriteIs(es, other);
      var m :| 0 <= m < |Recency(es)| && Recency(es)[m] == other;
      assert i < LastWrite(es, other);
    }
    assert OldestAt(es, id, i);
  }

  predicate Retained(es: seq<Entry>, e: Entry) {
    exists i | 0 <= i < |es| ::
      es[i].sessionId == e.sessionId && es[i].runId == e.runId && es[i].turnIndex == e.turnIndex
  }

  /**
   MAIN: after a record the list is as it was when the turn is in it already, in its session; else with the entry at
   its end, when its sessions are no more than the limit; else without the session written longest ago, and with
   every other entry in its order.
   */
  lemma RecordedAs(es: seq<Entry>, e: Entry, maxSessions: nat) returns (oldest: string, ks: seq<nat>)
    requires maxSessions >= 1
    ensures var grown := es + [e];
            if Retained(es, e) then Recorded(es, e, maxSessions) == es
            else if |Sessions(grown)| <= maxSessions then Recorded(es, e, maxSessions) == grown
            else
              && Oldest(grown, oldest) && Picked(ks, |grown|, IsOfAnother(grown, oldest))
              && Recorded(es, e, maxSessions) == At(grown, ks)
  {
    var grown := es + [e];
    oldest, ks := "", [];
    SessionsCounted(grown);
    if !Retained(es, e) && |Sessions(grown)| > maxSessions {
      oldest := Recency(grown)[0];
      FirstIsOldest(grown);
      ks := WithoutAt(grown, oldest);
    }
  }

  /** There is one session written longest ago. */
  lemma OneIsOldest(es: seq<Entry>, a: string, b: string)
    requires Oldest(es, a) && Oldest(es, b)
    ensures a == b
  {
    var i: nat :| OldestAt(es, a, i);
    var j: nat :| OldestAt(es, b, j);
    assert a == b || WrittenAfter(es, b, i);
    assert a == b || WrittenAfter(es, a, j);
  }

  // ----------------------------------------------------------------------- the totals

  datatype Count = ToolCalls | InputTokens | OutputTokens

  function CountIn(count: Count, e: Entry): nat {
    match count case ToolCalls => e.toolCalls case InputTokens => e.inputTokens case OutputTokens => e.outputTokens
  }

  function TotalOf(count: Count, t: Totals): nat {
    match count case ToolCalls => t.toolCalls case InputTokens => t.inputTokens case OutputTokens => t.outputTokens
  }

  function Counts(count: Count, es: seq<Entry>): (xs: seq<nat>)
    ensures |xs| == |es| && forall i | 0 <= i < |es| :: xs[i] == CountIn(count, es[i])
  {
    seq(|es|, i requires 0 <= i < |es| => CountIn(count, es[i]))
  }

  /** Every cost that is known, together. */
  function KnownCosts(es: seq<Entry>): real {
    if es == [] then 0.0
    else (match es[0].cost case None => 0.0 case Some(cost) => cost) + KnownCosts(es[1..])
  }

  lemma {:induction false} KnownCostsSnoc(es: seq<Entry>, e: Entry)
    ensures KnownCosts(es + [e]) == KnownCosts(es) + (match e.cost case None => 0.0 case Some(cost) => cost)
    decreases |es|
  {
    if es == [] {
      assert ([e])[1..] == [];
    } else {
      assert (es + [e])[1..] == es[1..] + [e];
      KnownCostsSnoc(es[1..], e);
    }
  }

  /** MAIN: the tool calls and the tokens of the totals are the entries', added up, and the turns are their number. */
  lemma {:induction false} TotalsCount(es: seq<Entry>, count: Count)
    ensures RunLedger.Sum(es).turns == |es|
    ensures TotalOf(count, RunLedger.Sum(es)) == Sums.Sum(Counts(count, es))
    decreases |es|
  {
    if es != [] {
      TotalsCount(es[..|es| - 1], count);
      assert Counts(count, es)[..|es| - 1] == Counts(count, es[..|es| - 1]);
    }
  }

  /** MAIN: the cost is known when some entry's is, and is then the sum of those known; no cost counts as none. */
  lemma {:induction false} TotalsCost(es: seq<Entry>)
    ensures RunLedger.Sum(es).cost.Some? <==> exists i :: 0 <= i < |es| && es[i].cost.Some?
    ensures RunLedger.Sum(es).cost.Some? ==> RunLedger.Sum(es).cost.value == KnownCosts(es)
    ensures RunLedger.Sum(es).cost.None? ==> KnownCosts(es) == 0.0
    decreases |es|
  {
    if es != [] {
      var most := es[..|es| - 1];
      TotalsCost(most);
      KnownCostsSnoc(most, es[|es| - 1]);
      assert es == most + [es[|es| - 1]];
      if es[|es| - 1].cost.None? {
        forall i | 0 <= i < |most| ensures es[i] == most[i] {}
      }
    }
  }

  /** MAIN: the elapsed time is the greatest of any entry, and no time where there is none. */
  lemma {:induction false} TotalsElapsed(es: seq<Entry>)
    ensures forall i | 0 <= i < |es| :: es[i].elapsedMillis <= RunLedger.Sum(es).elapsedMillis
    ensures if es == [] then RunLedger.Sum(es).elapsedMillis == 0
            else exists i :: 0 <= i < |es| && es[i].elapsedMillis == RunLedger.Sum(es).elapsedMillis
    decreases |es|
  {
    if es != [] {
      var most := es[..|es| - 1];
      TotalsElapsed(most);
      assert es[|es| - 1].elapsedMillis <= RunLedger.Sum(es).elapsedMillis;
      if RunLedger.Sum(es).elapsedMillis != es[|es| - 1].elapsedMillis {
        var i :| 0 <= i < |most| && most[i].elapsedMillis == RunLedger.Sum(most).elapsedMillis;
        assert es[i].elapsedMillis == RunLedger.Sum(es).elapsedMillis;
      }
    }
  }
}
