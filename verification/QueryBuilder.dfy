/**
 * Query builders on the heap: mutable contexts, Go slices with shared backing arrays, nested builders for the eager
 * edges, and `Clone`. The generated builders have the same fields and methods and differ only in which edges they can
 * load, so one class stands for all of them; a nil `with...` field is an edge missing from `edges`.
 */
module QueryBuilder {
  import opened Wrappers

  // ---------------------------------------------------------------- slices

  /** A Go slice header: a pointer to a backing array, which other headers may share, and a length. */
  datatype Slice<T> = Slice(cells: array<T>, len: nat)

  ghost predicate ValidSlice<T>(s: Slice<T>) {
    s.len <= s.cells.Length
  }

  ghost function Items<T>(s: Slice<T>): seq<T>
    requires ValidSlice(s)
    reads s.cells
  {
    s.cells[..s.len]
  }

  /** `append(s, xs...)`: writes into the backing array while it has room, and moves to a larger one otherwise. */
  method Append<T>(s: Slice<T>, xs: seq<T>) returns (r: Slice<T>)
    requires ValidSlice(s)
    modifies s.cells
    ensures ValidSlice(r) && Items(r) == old(Items(s)) + xs
    ensures r.cells == s.cells || fresh(r.cells)
    ensures Items(s) == old(Items(s))
    ensures r.cells == s.cells <==> s.len + |xs| <= s.cells.Length
  {
    var n := s.len + |xs|;
    if n <= s.cells.Length {
      var k := 0;
      while k < |xs|
        invariant 0 <= k <= |xs|
        invariant s.cells[..s.len + k] == old(s.cells[..s.len]) + xs[..k]
      {
        s.cells[s.len + k] := xs[k];
        assert s.cells[..s.len + k + 1] == s.cells[..s.len + k] + [xs[k]];
        k := k + 1;
      }
      r := Slice(s.cells, n);
      assert Items(s) == s.cells[..n][..s.len];
    } else {
      var before := s.cells[..s.len];
      var cells := new T[n](i requires 0 <= i < n => (before + xs)[i]);
      r := Slice(cells, n);
      assert cells[..n] == before + xs;
    }
  }

  /** `append([]T{}, s...)`: the same items in a backing array of their own. */
  method CopySlice<T>(s: Slice<T>) returns (r: Slice<T>)
    requires ValidSlice(s)
    ensures ValidSlice(r) && Items(r) == Items(s) && fresh(r.cells)
  {
    var items := s.cells[..s.len];
    var cells := new T[s.len](i requires 0 <= i < s.len => items[i]);
    r := Slice(cells, s.len);
    assert cells[..s.len] == items;
  }

  /** Why a copy is needed: two headers on one backing array with room overwrite each other's appended items. */
  method SharedSlicesInterfere<T>(s: Slice<T>, x: T, y: T) returns (a: Slice<T>, b: Slice<T>)
    requires ValidSlice(s) && s.len < s.cells.Length
    modifies s.cells
    ensures ValidSlice(a) && ValidSlice(b)
    ensures Items(a) == Items(b) == old(Items(s)) + [y]
  {
    a := Append(s, [x]);
    b := Append(s, [y]);
  }

  // ---------------------------------------------------------------- builders as values

  datatype Edge = Groups | Proxy | Parent | Children | UsageLogs | AccountGroups | OfAccount | OfGroup

  /** A predicate, order option or modifier: a function value that builders only carry around. */
  type Term = nat

  datatype Context = Context(fields: seq<string>, limit: Option<int>, offset: Option<int>, unique: Option<bool>)

  /** What no builder method changes: the client's interceptors and the traversal the query comes from. */
  datatype Origin = Origin(inters: seq<Term>, sql: Option<Term>, path: Option<Term>)

  /** What a builder asks for, with its nested builders. */
  datatype Spec = Spec(
    origin: Origin, ctx: Context, order: seq<Term>, predicates: seq<Term>, modifiers: seq<Term>, edges: map<Edge, Spec>)

  function EmptySpec(origin: Origin): Spec {
    Spec(origin, Context([], None, None, None), [], [], [], map[])
  }

  /** A clone does not keep modifiers, at any level. */
  function Unmodified(s: Spec): Spec {
    s.(modifiers := [], edges := map e | e in s.edges :: Unmodified(s.edges[e]))
  }

  /** A clone whose edges in `rest` are still to be cloned. */
  ghost function PartClone(s: Spec, rest: set<Edge>): Spec {
    s.(modifiers := [], edges := map e | e in s.edges && e !in rest :: Unmodified(s.edges[e]))
  }

  lemma PartCloneSteps(s: Spec, rest: set<Edge>, e: Edge)
    requires e in rest && rest <= s.edges.Keys
    ensures var p := PartClone(s, rest);
            p.(edges := p.edges[e := Unmodified(s.edges[e])]) == PartClone(s, rest - {e})
  {
  }

  lemma PartCloneEnds(s: Spec)
    ensures PartClone(s, s.edges.Keys) == s.(modifiers := [], edges := map[])
    ensures PartClone(s, {}) == Unmodified(s)
  {
    assert PartClone(s, {}).edges == Unmodified(s).edges;
  }

  lemma PutBack(s: Spec, e: Edge, nested: Spec)
    ensures (s.edges - {e})[e := nested] == s.edges[e := nested]
  {
  }

  datatype Op =
    | Where(ps: seq<Term>)
    | OrderBy(os: seq<Term>)
    | Limit(n: int)
    | Offset(n: int)
    | Unique(u: bool)
    | Select(fields: seq<string>)
    | Modify(m: Term)
    | With(edge: Edge, inters: seq<Term>)

  function ApplyOwn(s: Spec, op: Op): Spec {
    match op
    case Where(ps) => s.(predicates := s.predicates + ps)
    case OrderBy(os) => s.(order := s.order + os)
    case Limit(n) => s.(ctx := s.ctx.(limit := Some(n)))
    case Offset(n) => s.(ctx := s.ctx.(offset := Some(n)))
    case Unique(u) => s.(ctx := s.ctx.(unique := Some(u)))
    case Select(fields) => s.(ctx := s.ctx.(fields := s.ctx.fields + fields))
    case Modify(m) => s.(modifiers := s.modifiers + [m])
    case With(edge, inters) => s.(edges := s.edges[edge := EmptySpec(Origin(inters, None, None))])
  }

  /** A call on the builder reached through these edges; a missing edge has no builder to call. */
  function ApplyAt(s: Spec, path: seq<Edge>, op: Op): Spec
    decreases |path|
  {
    if path == [] then ApplyOwn(s, op)
    else if path[0] !in s.edges then s
    else s.(edges := s.edges[path[0] := ApplyAt(s.edges[path[0]], path[1..], op)])
  }

  // ---------------------------------------------------------------- builders on the heap

  class QueryContext {
    var fields: seq<string>
    var limit: Option<int>
    var offset: Option<int>
    var unique: Option<bool>

    constructor (c: Context)
      ensures View() == c
    {
      fields, limit, offset, unique := c.fields, c.limit, c.offset, c.unique;
    }

    function View(): Context
      reads this
    {
      Context(fields, limit, offset, unique)
    }
  }

  /** No two of these builders share an object. */
  ghost predicate Apart(bs: map<Edge, Builder>, objects: set<object>)
    requires forall e :: e in bs ==> bs[e] in objects
    reads objects
  {
    forall e, f :: e in bs && f in bs && e != f ==> bs[e].Repr !! bs[f].Repr
  }

  lemma ApartGrows(bs: map<Edge, Builder>, objects: set<object>, e: Edge, b: Builder)
    requires forall f :: f in bs ==> bs[f] in objects && bs[f].Repr <= objects
    requires Apart(bs, objects) && b in b.Repr && b.Repr !! objects
    ensures Apart(bs[e := b], objects + b.Repr)
  {
  }

  class Builder {
    const origin: Origin
    var ctx: QueryContext
    var order: Slice<Term>
    var predicates: Slice<Term>
    var modifiers: seq<Term>
    var edges: map<Edge, Builder>

    /** What the builder asks for, the objects of its nested builders, and all objects it consists of. */
    ghost var spec: Spec
    ghost var inner: set<object>
    ghost var Repr: set<object>

    /** The objects of this builder alone. */
    ghost function Own(): set<object>
      reads this
    {
      {this, ctx, order.cells, predicates.cells}
    }

    /** The fields of this builder alone are those of its spec. */
    ghost predicate OwnValid()
      reads this, ctx, order.cells, predicates.cells
    {
      && ValidSlice(order) && ValidSlice(predicates) && order.cells != predicates.cells
      && spec.origin == origin && spec.ctx == ctx.View() && spec.order == Items(order)
      && spec.predicates == Items(predicates) && spec.modifiers == modifiers
      && spec.edges.Keys == edges.Keys
    }

    /** A tree of builders that share no object with each other, described by `spec`. */
    ghost predicate Valid()
      reads this, Repr
      decreases Repr, 1
    {
      && Repr == Own() + inner && Own() !! inner
      && OwnValid()
      && (forall e :: e in edges ==> Nested(e))
      && Apart(edges, inner)
    }

    /** The nested builder of this edge lies within the inner objects and is described by its part of the spec. */
    ghost predicate Nested(e: Edge)
      requires e in edges && e in spec.edges && this !in inner && inner <= Repr && this in Repr
      reads this, Repr
      decreases Repr, 0
    {
      && edges[e] in inner && edges[e].Repr <= inner
      && edges[e].spec == spec.edges[e] && edges[e].Valid()
    }

    /** A builder that asks for everything, as a client's `Query()` returns it. */
    constructor (origin: Origin)
      ensures Valid() && fresh(Repr) && spec == EmptySpec(origin)
    {
      this.origin := origin;
      var c := new QueryContext(EmptySpec(origin).ctx);
      var a, b := new Term[0], new Term[0];
      ctx, order, predicates, modifiers := c, Slice(a, 0), Slice(b, 0), [];
      edges := map[];
      spec := EmptySpec(origin);
      inner := {};
      Repr := {this, c, a, b};
    }

    /** The struct literal of `Clone`, without its nested builders. */
    constructor CopyOwn(from: Builder)
      requires from.OwnValid()
      ensures Valid() && fresh(Repr)
      ensures edges == map[] && spec == from.spec.(modifiers := [], edges := map[])
    {
      origin := from.origin;
      var c := new QueryContext(from.ctx.View());
      var o := CopySlice(from.order);
      var p := CopySlice(from.predicates);
      ctx, order, predicates, modifiers := c, o, p, [];
      edges := map[];
      spec := from.spec.(modifiers := [], edges := map[]);
      inner := {};
      Repr := {this, c, o.cells, p.cells};
    }

    /** A builder of its own: nothing reachable from the clone is reachable from the original. */
    method Clone() returns (c: Builder)
      requires Valid()
      ensures c.Valid() && fresh(c.Repr) && c.spec == Unmodified(spec)
      decreases Repr
    {
      c := new Builder.CopyOwn(this);
      PartCloneEnds(spec);
      CloneEdges(c);
    }

    /** `c` is a clone of this builder in the making: the edges in `rest` are still to be set. */
    ghost predicate Cloning(c: Builder, rest: set<Edge>)
      reads this, Repr, c, c.Repr
    {
      Valid() && c.Valid() && c.Repr !! Repr && rest <= edges.Keys && c.spec == PartClone(spec, rest)
    }

    /** The `with...` lines of the struct literal of `Clone`. */
    method CloneEdges(c: Builder)
      requires Cloning(c, edges.Keys)
      modifies c
      ensures Cloning(c, {}) && fresh(c.Repr - old(c.Repr))
      decreases Repr, 1
    {
      var rest := edges.Keys;
      while rest != {}
        invariant Cloning(c, rest) && fresh(c.Repr - old(c.Repr))
        decreases rest
      {
        var e :| e in rest;
        CloneEdge(c, rest, e);
        rest := rest - {e};
      }
    }

    /** One of them. */
    method CloneEdge(c: Builder, ghost rest: set<Edge>, e: Edge)
      requires Cloning(c, rest) && e in rest
      modifies c
      ensures Cloning(c, rest - {e}) && fresh(c.Repr - old(c.Repr))
      decreases Repr, 0, 1
    {
      PartCloneSteps(spec, rest, e);
      var nested := CloneNested(e);
      c.Attach(e, nested);
    }

    method CloneNested(e: Edge) returns (nested: Builder)
      requires Valid() && e in edges
      ensures nested.Valid() && fresh(nested.Repr) && nested.spec == Unmodified(spec.edges[e])
      decreases Repr, 0, 0
    {
      assert Nested(e);
      nested := edges[e].Clone();
    }

    /** Sets one of the `with...` fields. */
    method Attach(e: Edge, b: Builder)
      requires Valid() && b.Valid() && Repr !! b.Repr
      modifies this
      ensures Valid() && edges == old(edges)[e := b] && Repr == old(Repr) + b.Repr
      ensures spec == old(spec).(edges := old(spec).edges[e := b.spec])
    {
      NestedInside();
      ApartGrows(edges, inner, e, b);
      edges := edges[e := b];
      spec := spec.(edges := spec.edges[e := b.spec]);
      inner := inner + b.Repr;
      Repr := Repr + b.Repr;
      assert Apart(edges, inner);
      OthersStayNested(e);
    }

    lemma NestedInside()
      requires Valid()
      ensures forall f :: f in edges ==> f in spec.edges && edges[f] in inner && edges[f].Repr <= inner
    {
      assert forall f :: f in edges ==> Nested(f);
    }

    /** After one edge was set, the builders of the other edges are as they were. */
    twostate lemma OthersStayNested(e: Edge)
      requires old(Valid()) && this !in inner && inner <= Repr && this in Repr
      requires forall f :: f in edges ==> f in spec.edges
      requires forall f :: f in edges && f != e ==>
                 f in old(edges) && edges[f] == old(edges[f]) && spec.edges[f] == old(spec.edges[f])
                 && edges[f] in inner && edges[f].Repr <= inner
      requires forall o :: o in old(inner) ==> unchanged(o)
      ensures forall f :: f in edges && f != e ==> Nested(f)
    {
      forall f | f in edges && f != e ensures Nested(f) {
        assert old(Nested(f));
      }
    }

    // ------------------------------------------------------------ the builder methods

    method Where(ps: seq<Term>)
      requires Valid()
      modifies this, predicates.cells
      ensures Valid() && fresh(Repr - old(Repr)) && spec == ApplyOwn(old(spec), Op.Where(ps))
    {
      predicates := Append(predicates, ps);
      spec := ApplyOwn(spec, Op.Where(ps));
      Repr := Own() + inner;
      KeepsNested();
    }

    method OrderBy(os: seq<Term>)
      requires Valid()
      modifies this, order.cells
      ensures Valid() && fresh(Repr - old(Repr)) && spec == ApplyOwn(old(spec), Op.OrderBy(os))
    {
      order := Append(order, os);
      spec := ApplyOwn(spec, Op.OrderBy(os));
      Repr := Own() + inner;
      KeepsNested();
    }

    /** The methods that write the context: Limit, Offset, Unique and Select. */
    method SetContext(op: Op)
      requires Valid() && (op.Limit? || op.Offset? || op.Unique? || op.Select?)
      modifies this, ctx
      ensures Valid() && Repr == old(Repr) && spec == ApplyOwn(old(spec), op)
    {
      match op {
        case Limit(n) => ctx.limit := Some(n);
        case Offset(n) => ctx.offset := Some(n);
        case Unique(u) => ctx.unique := Some(u);
        case Select(fields) => ctx.fields := ctx.fields + fields;
      }
      spec := ApplyOwn(spec, op);
      KeepsNested();
    }

    /** After the builder's own objects changed, the nested builders are what they were. */
    twostate lemma KeepsNested()
      requires old(Valid()) && edges == old(edges) && inner == old(inner) && spec.edges == old(spec.edges)
      requires Repr == Own() + inner && Own() !! inner
      requires forall o :: o in inner ==> unchanged(o)
      ensures forall e :: e in edges ==> Nested(e)
      ensures forall e :: e in edges ==> edges[e] in inner
      ensures Apart(edges, inner)
    {
      assert old(Apart(edges, inner));
      assert forall e :: e in edges ==> old(Nested(e));
    }

    method Modify(m: Term)
      requires Valid()
      modifies this
      ensures Valid() && Repr == old(Repr) && spec == ApplyOwn(old(spec), Op.Modify(m))
    {
      modifiers := modifiers + [m];
      spec := ApplyOwn(spec, Op.Modify(m));
      KeepsNested();
    }

    /** Requests an eager edge: a new builder replaces whatever was configured for it. */
    method With(e: Edge, inters: seq<Term>)
      requires Valid()
      modifies this
      ensures Valid() && fresh(Repr - old(Repr)) && spec == ApplyOwn(old(spec), Op.With(e, inters))
    {
      var b := new Builder(Origin(inters, None, None));
      Attach(e, b);
    }

    /** Any of these calls on this builder. */
    method CallOwn(op: Op)
      requires Valid()
      modifies Repr
      ensures Valid() && fresh(Repr - old(Repr)) && spec == ApplyOwn(old(spec), op)
    {
      match op {
        case Where(ps) => Where(ps);
        case OrderBy(os) => OrderBy(os);
        case Modify(m) => Modify(m);
        case With(e, inters) => With(e, inters);
        case _ => SetContext(op);
      }
    }

    /**
     * Any of these calls on the builder reached through a path of edges. The nested builder is taken out of its field
     * and put back around the call, which leaves the field as it was and keeps both parts valid on their own meanwhile.
     */
    method Call(path: seq<Edge>, op: Op)
      requires Valid()
      modifies Repr
      ensures Valid() && fresh(Repr - old(Repr)) && spec == ApplyAt(old(spec), path, op)
      decreases |path|
    {
      if path == [] {
        CallOwn(op);
      } else if path[0] in edges {
        CallNested(path, op);
      }
    }

    method CallNested(path: seq<Edge>, op: Op)
      requires Valid() && path != [] && path[0] in edges
      modifies Repr
      ensures Valid() && fresh(Repr - old(Repr))
      ensures spec == old(spec).(edges := old(spec).edges[path[0] := ApplyAt(old(spec).edges[path[0]], path[1..], op)])
      decreases |path|, 1
    {
      var nested := CallTaken(path, op);
      PutBack(old(spec), path[0], nested.spec);
      Attach(path[0], nested);
    }

    /** The nested builder, taken out of its field and called. */
    method CallTaken(path: seq<Edge>, op: Op) returns (nested: Builder)
      requires Valid() && path != [] && path[0] in edges
      modifies Repr
      ensures Valid() && nested.Valid() && Repr !! nested.Repr && fresh(Repr + nested.Repr - old(Repr))
      ensures spec == old(spec).(edges := old(spec).edges - {path[0]})
      ensures nested.spec == ApplyAt(old(spec).edges[path[0]], path[1..], op)
      decreases |path|, 0, 1
    {
      nested := TakeOut(path[0]);
      CallDetached(nested, path, op);
    }

    method CallDetached(nested: Builder, path: seq<Edge>, op: Op)
      requires Valid() && nested.Valid() && Repr !! nested.Repr && path != []
      modifies nested.Repr
      ensures Valid() && nested.Valid() && Repr !! nested.Repr && fresh(nested.Repr - old(nested.Repr))
      ensures Repr == old(Repr) && spec == old(spec) && edges == old(edges)
      ensures nested.spec == ApplyAt(old(nested.spec), path[1..], op)
      decreases |path|, 0, 0
    {
      nested.Call(path[1..], op);
    }

    lemma OthersApart(e: Edge)
      requires Valid() && e in edges
      ensures forall f :: f in edges && f != e ==>
                edges[f] in inner - edges[e].Repr && edges[f].Repr <= inner - edges[e].Repr
      ensures Apart(edges - {e}, inner - edges[e].Repr)
    {
      forall f | f in edges && f != e
        ensures edges[f] in inner - edges[e].Repr && edges[f].Repr <= inner - edges[e].Repr
      {
        assert Nested(f) && edges[f].Valid();
      }
    }

    /** Empties one of the `with...` fields and hands out its builder. */
    method TakeOut(e: Edge) returns (b: Builder)
      requires Valid() && e in edges
      modifies this
      ensures Valid() && b.Valid() && Repr !! b.Repr && Repr + b.Repr == old(Repr)
      ensures spec == old(spec).(edges := old(spec).edges - {e}) && b.spec == old(spec).edges[e]
    {
      b := edges[e];
      assert Nested(e);
      Empty(e);
    }

    method Empty(e: Edge)
      requires Valid() && e in edges
      modifies this
      ensures Valid() && Repr == old(Repr) - old(edges[e].Repr)
      ensures spec == old(spec).(edges := old(spec).edges - {e})
    {
      ghost var gone := edges[e].Repr;
      assert Nested(e);
      OthersApart(e);
      assert Own() !! gone;
      edges := edges - {e};
      spec := spec.(edges := spec.edges - {e});
      inner := inner - gone;
      Repr := Repr - gone;
      OthersStayNested(e);
    }
  }

  // ---------------------------------------------------------------- clones do not interfere

  /** One call by a client, on the original tree or on the clone's. */
  datatype Step = Step(onClone: bool, path: seq<Edge>, op: Op)

  /** The effect of a client's calls on one of the two trees: the calls on the other tree do not appear in it. */
  function Play(s: Spec, steps: seq<Step>, onClone: bool): Spec {
    if steps == [] then s else
      var before, last := Play(s, steps[..|steps| - 1], onClone), steps[|steps| - 1];
      if last.onClone == onClone then ApplyAt(before, last.path, last.op) else before
  }

  lemma PlayNext(s: Spec, steps: seq<Step>, i: nat, onClone: bool)
    requires i < |steps|
    ensures Play(s, steps[..i + 1], onClone)
         == if steps[i].onClone == onClone then ApplyAt(Play(s, steps[..i], onClone), steps[i].path, steps[i].op)
            else Play(s, steps[..i], onClone)
  {
    assert steps[..i + 1][..i] == steps[..i];
  }

  /** One call, on one of two builder trees that share no objects. */
  method TakeStep(a: Builder, b: Builder, step: Step)
    requires a.Valid() && b.Valid() && a.Repr !! b.Repr
    modifies a.Repr, b.Repr
    ensures a.Valid() && b.Valid() && a.Repr !! b.Repr
    ensures fresh(a.Repr - old(a.Repr)) && fresh(b.Repr - old(b.Repr))
    ensures a.spec == if step.onClone then old(a.spec) else ApplyAt(old(a.spec), step.path, step.op)
    ensures b.spec == if step.onClone then ApplyAt(old(b.spec), step.path, step.op) else old(b.spec)
  {
    if step.onClone {
      b.Call(step.path, step.op);
    } else {
      a.Call(step.path, step.op);
    }
  }

  /** Calls in any order on two builder trees that share no objects. */
  method Interleave(a: Builder, b: Builder, steps: seq<Step>)
    requires a.Valid() && b.Valid() && a.Repr !! b.Repr
    modifies a.Repr, b.Repr
    ensures a.Valid() && b.Valid() && a.Repr !! b.Repr
    ensures a.spec == Play(old(a.spec), steps, false) && b.spec == Play(old(b.spec), steps, true)
  {
    for i := 0 to |steps|
      invariant a.Valid() && b.Valid() && a.Repr !! b.Repr
      invariant fresh(a.Repr - old(a.Repr)) && fresh(b.Repr - old(b.Repr))
      invariant a.spec == Play(old(a.spec), steps[..i], false) && b.spec == Play(old(b.spec), steps[..i], true)
    {
      PlayNext(old(a.spec), steps, i, false);
      PlayNext(old(b.spec), steps, i, true);
      TakeStep(a, b, steps[i]);
    }
    assert steps[..|steps|] == steps;
  }

  /**
   * Clone a builder, then configure the original and the clone, and the builders nested in them, in any interleaving:
   * each ends up as if the other had never been touched.
   */
  method CloneThenUse(q: Builder, steps: seq<Step>) returns (c: Builder)
    requires q.Valid()
    modifies q.Repr
    ensures q.Valid() && c.Valid() && q.Repr !! c.Repr
    ensures q.spec == Play(old(q.spec), steps, false)
    ensures c.spec == Play(Unmodified(old(q.spec)), steps, true)
  {
    c := q.Clone();
    Interleave(q, c, steps);
  }

  /** No builder of the tree carries modifiers. */
  predicate Plain(s: Spec) {
    s.modifiers == [] && forall e :: e in s.edges ==> Plain(s.edges[e])
  }

  /** Cloning is exact for a tree without modifiers, and only for such a tree; a clone is one. */
  lemma {:induction false} CloneIsExactIff(s: Spec)
    ensures Plain(Unmodified(s))
    ensures Unmodified(s) == s <==> Plain(s)
  {
    forall e | e in s.edges
      ensures Plain(Unmodified(s.edges[e])) && (Unmodified(s.edges[e]) == s.edges[e] <==> Plain(s.edges[e]))
    {
      CloneIsExactIff(s.edges[e]);
    }
    if Plain(s) {
      assert Unmodified(s).edges == s.edges;
    }
    if Unmodified(s) == s {
      forall e | e in s.edges ensures Plain(s.edges[e]) {
        assert Unmodified(s).edges[e] == Unmodified(s.edges[e]);
      }
    }
  }
}
