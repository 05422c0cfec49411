/**
 * What a client's calls leave in a builder, part by part: `QueryBuilder.Play` seen from outside. Together the laws fix
 * every part of the builder, at every depth of nested builders.
 */
module BuilderLaws {
  import opened Wrappers
  import opened Sequences
  import opened QueryBuilder

  /** A call on the outer builder of this tree. */
  predicate OnOuter(step: Step, onClone: bool) {
    step.onClone == onClone && step.path == []
  }

  /** Position k is that of the last such call on the outer builder; -1 if there is none. */
  ghost predicate LastCall(steps: seq<Step>, onClone: bool, such: Op -> bool, k: int) {
    && -1 <= k < |steps|
    && (k >= 0 ==> OnOuter(steps[k], onClone) && such(steps[k].op))
    && forall j :: k < j < |steps| && OnOuter(steps[j], onClone) ==> !such(steps[j].op)
  }

  lemma LastCallBefore(steps: seq<Step>, onClone: bool, such: Op -> bool, k: int)
    requires LastCall(steps, onClone, such, k) && steps != [] && k < |steps| - 1
    ensures LastCall(steps[..|steps| - 1], onClone, such, k)
    ensures !OnOuter(steps[|steps| - 1], onClone) || !such(steps[|steps| - 1].op)
  {
    assert forall j :: 0 <= j < |steps| - 1 ==> steps[..|steps| - 1][j] == steps[j];
  }

  /** The limit is that of the last Limit call, or what it was. */
  lemma {:induction false} LimitIs(s: Spec, steps: seq<Step>, onClone: bool, k: int)
    requires LastCall(steps, onClone, (op: Op) => op.Limit?, k)
    ensures Play(s, steps, onClone).ctx.limit == if k >= 0 then Some(steps[k].op.n) else s.ctx.limit
    decreases |steps|
  {
    if steps != [] && k < |steps| - 1 {
      LastCallBefore(steps, onClone, (op: Op) => op.Limit?, k);
      LimitIs(s, steps[..|steps| - 1], onClone, k);
    }
  }

  /** The offset is that of the last Offset call, or what it was. */
  lemma {:induction false} OffsetIs(s: Spec, steps: seq<Step>, onClone: bool, k: int)
    requires LastCall(steps, onClone, (op: Op) => op.Offset?, k)
    ensures Play(s, steps, onClone).ctx.offset == if k >= 0 then Some(steps[k].op.n) else s.ctx.offset
    decreases |steps|
  {
    if steps != [] && k < |steps| - 1 {
      LastCallBefore(steps, onClone, (op: Op) => op.Offset?, k);
      OffsetIs(s, steps[..|steps| - 1], onClone, k);
    }
  }

  /** Uniqueness is that of the last Unique call, or what it was. */
  lemma {:induction false} UniqueIs(s: Spec, steps: seq<Step>, onClone: bool, k: int)
    requires LastCall(steps, onClone, (op: Op) => op.Unique?, k)
    ensures Play(s, steps, onClone).ctx.unique == if k >= 0 then Some(steps[k].op.u) else s.ctx.unique
    decreases |steps|
  {
    if steps != [] && k < |steps| - 1 {
      LastCallBefore(steps, onClone, (op: Op) => op.Unique?, k);
      UniqueIs(s, steps[..|steps| - 1], onClone, k);
    }
  }

  /** What the calls on the outer builder bring, in call order. */
  function Brought<T>(steps: seq<Step>, onClone: bool, brings: Op -> seq<T>): seq<T> {
    if steps == [] then [] else
      var n := |steps| - 1;
      Brought(steps[..n], onClone, brings) + if OnOuter(steps[n], onClone) then brings(steps[n].op) else []
  }

  /** The predicates are those that were there and then those of the Where calls, in call order. */
  lemma {:induction false} PredicatesAre(s: Spec, steps: seq<Step>, onClone: bool)
    ensures Play(s, steps, onClone).predicates
            == s.predicates + Brought(steps, onClone, (op: Op) => if op.Where? then op.ps else [])
    decreases |steps|
  {
    if steps != [] {
      PredicatesAre(s, steps[..|steps| - 1], onClone);
    }
  }

  /** The order terms likewise. */
  lemma {:induction false} OrderIs(s: Spec, steps: seq<Step>, onClone: bool)
    ensures Play(s, steps, onClone).order
            == s.order + Brought(steps, onClone, (op: Op) => if op.OrderBy? then op.os else [])
    decreases |steps|
  {
    if steps != [] {
      OrderIs(s, steps[..|steps| - 1], onClone);
    }
  }

  /** The selected fields likewise. */
  lemma {:induction false} FieldsAre(s: Spec, steps: seq<Step>, onClone: bool)
    ensures Play(s, steps, onClone).ctx.fields
            == s.ctx.fields + Brought(steps, onClone, (op: Op) => if op.Select? then op.fields else [])
    decreases |steps|
  {
    if steps != [] {
      FieldsAre(s, steps[..|steps| - 1], onClone);
    }
  }

  /** The modifiers likewise. */
  lemma {:induction false} ModifiersAre(s: Spec, steps: seq<Step>, onClone: bool)
    ensures Play(s, steps, onClone).modifiers
            == s.modifiers + Brought(steps, onClone, (op: Op) => if op.Modify? then [op.m] else [])
    decreases |steps|
  {
    if steps != [] {
      ModifiersAre(s, steps[..|steps| - 1], onClone);
    }
  }

  /** No call changes the client's interceptors or the traversal the query comes from. */
  lemma {:induction false} OriginStays(s: Spec, steps: seq<Step>, onClone: bool)
    ensures Play(s, steps, onClone).origin == s.origin
    decreases |steps|
  {
    if steps != [] {
      OriginStays(s, steps[..|steps| - 1], onClone);
    }
  }

  /** The calls that go through an edge, as the builder behind it receives them. */
  function Through(steps: seq<Step>, e: Edge): seq<Step> {
    if steps == [] then [] else
      var n := |steps| - 1;
      var (last, before) := (steps[n], Through(steps[..n], e));
      before + if last.path != [] && last.path[0] == e then [Step(last.onClone, last.path[1..], last.op)] else []
  }

  lemma PlaySnoc(s: Spec, steps: seq<Step>, step: Step, onClone: bool)
    ensures Play(s, steps + [step], onClone)
         == if step.onClone == onClone then ApplyAt(Play(s, steps, onClone), step.path, step.op)
            else Play(s, steps, onClone)
  {
    assert (steps + [step])[..|steps|] == steps;
  }

  /** One more call, seen at one edge: it reaches the builder behind the edge, or leaves it alone. */
  lemma EdgeStep(t: Spec, path: seq<Edge>, op: Op, e: Edge)
    requires !(path == [] && op.With? && op.edge == e)
    ensures e in ApplyAt(t, path, op).edges <==> e in t.edges
    ensures e in t.edges ==>
              ApplyAt(t, path, op).edges[e]
              == if path != [] && path[0] == e then ApplyAt(t.edges[e], path[1..], op) else t.edges[e]
  {
  }

  /** An edge that is not requested anew keeps its builder, if it has one, and that receives the calls through it. */
  lemma {:induction false} EdgeKept(s: Spec, steps: seq<Step>, onClone: bool, e: Edge)
    requires LastCall(steps, onClone, (op: Op) => op.With? && op.edge == e, -1)
    ensures e in Play(s, steps, onClone).edges <==> e in s.edges
    ensures e in s.edges ==> Play(s, steps, onClone).edges[e] == Play(s.edges[e], Through(steps, e), onClone)
    decreases |steps|
  {
    if steps != [] {
      var n := |steps| - 1;
      var front, last := steps[..n], steps[n];
      LastCallBefore(steps, onClone, (op: Op) => op.With? && op.edge == e, -1);
      EdgeKept(s, front, onClone, e);
      if last.onClone == onClone {
        EdgeStep(Play(s, front, onClone), last.path, last.op, e);
      }
      if e in s.edges && last.path != [] && last.path[0] == e {
        PlaySnoc(s.edges[e], Through(front, e), Step(last.onClone, last.path[1..], last.op), onClone);
      } else {
        assert Through(front, e) + [] == Through(front, e);
      }
    }
  }

  lemma {:induction false} PlaySplit(s: Spec, steps: seq<Step>, k: nat, onClone: bool)
    requires k <= |steps|
    ensures Play(s, steps, onClone) == Play(Play(s, steps[..k], onClone), steps[k..], onClone)
    decreases |steps|
  {
    if k == |steps| {
      assert steps[..k] == steps && steps[k..] == [];
    } else {
      var n := |steps| - 1;
      PlaySplit(s, steps[..n], k, onClone);
      assert steps[..n][..k] == steps[..k] && steps[k..][..n - k] == steps[..n][k..];
      assert steps[k..][|steps[k..]| - 1] == steps[n];
    }
  }

  /** An edge holds an empty builder after the last With for it, and that receives the later calls through the edge. */
  lemma EdgeRequested(s: Spec, steps: seq<Step>, onClone: bool, e: Edge, k: nat)
    requires LastCall(steps, onClone, (op: Op) => op.With? && op.edge == e, k)
    ensures var empty := Spec(Origin(steps[k].op.inters, None, None), Context([], None, None, None), [], [], [], map[]);
            && e in Play(s, steps, onClone).edges
            && Play(s, steps, onClone).edges[e] == Play(empty, Through(steps[k + 1..], e), onClone)
  {
    var with := (op: Op) => op.With? && op.edge == e;
    PlaySplit(s, steps, k + 1, onClone);
    PlayNext(s, steps, k, onClone);
    var later := steps[k + 1..];
    assert LastCall(later, onClone, with, -1) by {
      assert forall j :: 0 <= j < |later| ==> later[j] == steps[k + 1 + j];
    }
    EdgeKept(Play(s, steps[..k + 1], onClone), later, onClone, e);
  }

  /** What a clone keeps: everything but the modifiers, and at every edge a clone of the builder behind it. */
  lemma CloneKeeps(s: Spec)
    ensures var c := Unmodified(s);
            && c == Spec(s.origin, s.ctx, s.order, s.predicates, [], c.edges)
            && c.edges.Keys == s.edges.Keys
            && forall e :: e in s.edges ==> c.edges[e] == Unmodified(s.edges[e])
  {
  }
}
