/**
 A turn's answer (src/AgentTurn.ts:283-313): the value an ordinary tool's result projects to. A projector, with
 the check of what it gives, is arbitrary, and may throw.
 */
module TurnOutput {
  import opened Base
  import opened ToolCall
  import ToolBatch

  datatype Projection = Nothing | Value(value: nat) | Threw

  datatype Projector = Projector(tool: string, project: (Call, nat) -> Projection)

  datatype Answer = Answer(value: nat, tool: string, callId: string)

  /** No answer, an answer, or the defect of a projector that throws. */
  datatype Projected = NoAnswer | Found(answer: Answer) | Defect

  function ProjectorFor(ps: seq<Projector>, name: string): Option<Projector> {
    if ps == [] then None else if ps[0].tool == name then Some(ps[0]) else ProjectorFor(ps[1..], name)
  }

  /** Projector `k` is the first for the tool. */
  predicate FirstFor(ps: seq<Projector>, name: string, k: nat) {
    k < |ps| && ps[k].tool == name && forall j | 0 <= j < k :: ps[j].tool != name
  }

  lemma {:induction false} ProjectorIsFirst(ps: seq<Projector>, name: string)
    ensures forall k: nat | FirstFor(ps, name, k) :: ProjectorFor(ps, name) == Some(ps[k])
    ensures (forall k | 0 <= k < |ps| :: ps[k].tool != name) ==> ProjectorFor(ps, name).None?
  {
    if ps != [] {
      ProjectorIsFirst(ps[1..], name);
      forall k: nat | FirstFor(ps, name, k) ensures ProjectorFor(ps, name) == Some(ps[k]) {
        if k > 0 { assert FirstFor(ps[1..], name, k - 1); }
      }
    }
  }

  /** What call `i`'s own result projects to. */
  function ProjectionAt(ps: seq<Projector>, w: ToolBatch.Work, i: nat): Projection
    requires ToolBatch.Matched(w) && i < |w.calls|
  {
    var p := ProjectorFor(ps, w.calls[i].name);
    var payload := w.parts[i].payload;
    if p.None? || payload.Refusal? || payload.isFailure then Nothing else p.value.project(w.calls[i], payload.value)
  }

  /** A call's answer is its tool's first projector's, of a result that is not a failure; and nothing otherwise. */
  lemma ProjectionIs(ps: seq<Projector>, w: ToolBatch.Work, i: nat, k: nat, value: nat)
    requires ToolBatch.Matched(w) && i < |w.calls|
    ensures FirstFor(ps, w.calls[i].name, k) && w.parts[i].payload == Result(value, false) ==>
              ProjectionAt(ps, w, i) == ps[k].project(w.calls[i], value)
    ensures w.parts[i].payload.Refusal? || w.parts[i].payload.isFailure ==> ProjectionAt(ps, w, i).Nothing?
    ensures (forall j | 0 <= j < |ps| :: ps[j].tool != w.calls[i].name) ==> ProjectionAt(ps, w, i).Nothing?
  {
    ProjectorIsFirst(ps, w.calls[i].name);
  }

  /** The lookup of a call's result by its id. */
  method FindPart(parts: seq<Part>, id: string) returns (part: Option<Part>)
    ensures part.Some? <==> exists k :: 0 <= k < |parts| && parts[k].id == id
    ensures forall k | 0 <= k < |parts| && parts[k].id == id && (forall j | 0 <= j < k :: parts[j].id != id) ::
        part == Some(parts[k])
  {
    for k := 0 to |parts|
      invariant forall j | 0 <= j < k :: parts[j].id != id
    {
      if parts[k].id == id { return Some(parts[k]); }
    }
    return None;
  }

  /**
   `projectedOutput`: the first call, in call order, whose own successful result projects to something decides
   -- the lookup by id finds each call's own result because a turn's ids are distinct.
   */
  method ProjectedOutput(ps: seq<Projector>, w: ToolBatch.Work) returns (out: Projected)
    requires ToolBatch.Matched(w)
    ensures out.NoAnswer? <==> forall i | 0 <= i < |w.calls| :: ProjectionAt(ps, w, i).Nothing?
    ensures forall i | 0 <= i < |w.calls| && !ProjectionAt(ps, w, i).Nothing?
                       && (forall j | 0 <= j < i :: ProjectionAt(ps, w, j).Nothing?) ::
              out == match ProjectionAt(ps, w, i)
                     case Value(v) => Found(Answer(v, w.calls[i].name, w.calls[i].id))
                     case _ => Defect
  {
    for i := 0 to |w.calls|
      invariant forall j | 0 <= j < i :: ProjectionAt(ps, w, j).Nothing?
    {
      var call := w.calls[i];
      var p := ProjectorFor(ps, call.name);
      if p.Some? {
        var part := FindPart(w.parts, call.id);
        OwnPart(w, i);
        assert part == Some(w.parts[i]);
        if part.Some? && part.value.payload.Result? && !part.value.payload.isFailure {
          var projected := p.value.project(call, part.value.payload.value);
          assert projected == ProjectionAt(ps, w, i);
          match projected {
            case Nothing =>
            case Value(v) => return Found(Answer(v, call.name, call.id));
            case Threw => return Defect;
          }
        }
      }
    }
    return NoAnswer;
  }

  lemma OwnPart(w: ToolBatch.Work, i: nat)
    requires ToolBatch.Matched(w) && i < |w.calls|
    ensures w.parts[i].id == w.calls[i].id && forall j | 0 <= j < i :: w.parts[j].id != w.calls[i].id
  {
    forall j | 0 <= j < i ensures w.parts[j].id != w.calls[i].id {
      assert w.parts[j].id == w.calls[j].id && w.calls[j].id != w.calls[i].id;
    }
  }
}
