/**
 * `AccountCreateBulk.Save`: a chain of mutators over shared slices. Each builder's mutator checks, builds its spec,
 * invokes the next builder's mutator, and marks its mutation done on the way back; the last one runs the batch insert.
 * Hooks wrap each mutator.
 */
module BulkCreate {
  import opened Wrappers
  import opened AccountFields

  datatype Error =
    | Validation(column: Column)
    | Database(message: string)
    | Constraint(wrapped: string)
    | Refused(reason: string)

  /** A Go error: None is nil. */
  type Err = Option<Error>

  datatype CreateSpec = CreateSpec(fields: Fields)

  /** A created node: its fields, and its ID, which is zero until the batch assigns one. */
  datatype Node = Node(fields: Fields, id: int)

  /** The database's answer to one batch. An inserted row may or may not come back with an id. */
  datatype BatchReply = Inserted(ids: seq<Option<int>>) | Failed(message: string, constraint: bool)

  /** What a hook does next: hand the mutation, edited, to the next mutator, or edit it a last time and return. */
  datatype Move = Call(fields: Fields) | Return(fields: Fields, err: Err)

  /**
   * A hook that passes the same mutation on. Each time it decides by the mutation as it then stands and by the errors
   * that its calls of next have returned so far; it calls next at most `limit` times.
   */
  datatype Hook = Hook(limit: nat, step: (Fields, seq<Err>) -> Move)

  ghost predicate ValidHook(h: Hook) {
    forall f: Fields, errs: seq<Err> :: |errs| >= h.limit ==> h.step(f, errs).Return?
  }

  datatype Event =
    | Entered(builder: nat, hook: nat)
    | Quit(builder: nat, hook: nat)
    | Checked(builder: nat)
    | Batch(specs: seq<Option<CreateSpec>>, stored: bool)
    | Marked(builder: nat)

  /**
   * What a bulk save is given: the error left by building it, what `defaults` does to a mutation (its own error is
   * discarded), the hooks and check of the builders, and the database, whose reply may depend on what happened before.
   */
  datatype Plan = Plan(
    prior: Err,
    defaults: Fields -> Fields,
    hooks: seq<seq<Hook>>,
    check: Fields -> Err,
    reply: (seq<Event>, seq<Option<CreateSpec>>) -> BatchReply)

  ghost predicate ValidPlan(p: Plan) {
    && (forall i, j :: 0 <= i < |p.hooks| && 0 <= j < |p.hooks[i]| ==> ValidHook(p.hooks[i][j]))
    && forall log, specs :: p.reply(log, specs).Inserted? ==> |p.reply(log, specs).ids| == |specs|
  }

  /** The shared slices, the mutations' fields and flags, and the history of the run. */
  datatype State = State(
    fields: seq<Fields>,
    specs: seq<Option<CreateSpec>>,
    nodes: seq<Option<Node>>,
    ids: seq<Option<int>>,
    done: seq<bool>,
    log: seq<Event>)

  predicate ValidState(p: Plan, s: State) {
    |s.fields| == |s.specs| == |s.nodes| == |s.ids| == |s.done| == |p.hooks|
  }

  function Log(s: State, e: Event): State {
    s.(log := s.log + [e])
  }

  function WrapReply(r: BatchReply): Err
    requires r.Failed?
  {
    Some(if r.constraint then Constraint(r.message) else Database(r.message))
  }

  /** The batch insert: on success every spec carries the id the database returned for it. */
  function RunBatch(p: Plan, s: State): (State, Err)
    requires ValidPlan(p) && ValidState(p, s)
    ensures ValidState(p, RunBatch(p, s).0)
  {
    var r := p.reply(s.log, s.specs);
    match r
    case Inserted(ids) => (Log(s.(ids := ids), Batch(s.specs, true)), None)
    case Failed(_, _) => (Log(s, Batch(s.specs, false)), WrapReply(r))
  }

  /** The way back through builder i after everything below it succeeded. */
  function MarkDone(s: State, i: nat): State
    requires i < |s.nodes| == |s.ids| == |s.done|
  {
    var s1 := if s.ids[i].Some? && s.nodes[i].Some?
              then s.(nodes := s.nodes[i := Some(s.nodes[i].value.(id := s.ids[i].value))]) else s;
    Log(s1.(done := s1.done[i := true]), Marked(i))
  }

  /** Builder i's mutation after a hook edited it. */
  function Edit(s: State, i: nat, f: Fields): State
    requires i < |s.fields|
  {
    s.(fields := s.fields[i := f])
  }

  /** The closure of builder i after its check passed: node and spec are made from the mutation, without ids. */
  function Specify(p: Plan, i: nat, s: State): State
    requires ValidState(p, s) && i < |p.hooks|
  {
    Log(s, Checked(i)).(specs := s.specs[i := Some(CreateSpec(s.fields[i]))],
                        nodes := s.nodes[i := Some(Node(s.fields[i], 0))],
                        ids := s.ids[i := None])
  }

  /** Builder i's mutator from its j-th hook inwards; `j == |hooks|` is the closure of the save itself. */
  function Mutate(p: Plan, i: nat, j: nat, s: State): (r: (State, Err))
    requires ValidPlan(p) && ValidState(p, s) && i < |p.hooks| && j <= |p.hooks[i]|
    ensures ValidState(p, r.0)
    decreases |p.hooks| - i, |p.hooks[i]| - j, 1, 0
  {
    if j < |p.hooks[i]| then Play(p, i, j, Log(s, Entered(i, j)), []) else
      if p.check(s.fields[i]).Some? then (Log(s, Checked(i)), p.check(s.fields[i])) else
        var (s1, err) := Below(p, i, Specify(p, i, s));
        if err.Some? then (s1, err) else (MarkDone(s1, i), None)
  }

  /** What builder i's closure invokes: the next builder's mutator, or the batch insert at the end of the chain. */
  function Below(p: Plan, i: nat, s: State): (r: (State, Err))
    requires ValidPlan(p) && ValidState(p, s) && i < |p.hooks|
    ensures ValidState(p, r.0)
    decreases |p.hooks| - i, 0, 0, 0
  {
    if i + 1 < |p.hooks| then Mutate(p, i + 1, 0, s) else RunBatch(p, s)
  }

  function Remaining(limit: nat, calls: nat): nat {
    if calls < limit then limit - calls else 0
  }

  /** Builder i's hook j at work, from the point where its calls of next have returned `errs`. */
  function Play(p: Plan, i: nat, j: nat, s: State, errs: seq<Err>): (r: (State, Err))
    requires ValidPlan(p) && ValidState(p, s) && i < |p.hooks| && j < |p.hooks[i]|
    ensures ValidState(p, r.0)
    decreases |p.hooks| - i, |p.hooks[i]| - j, 0, Remaining(p.hooks[i][j].limit, |errs|)
  {
    assert ValidHook(p.hooks[i][j]);
    match p.hooks[i][j].step(s.fields[i], errs)
    case Return(f, err) => (Log(Edit(s, i, f), Quit(i, j)), err)
    case Call(f) =>
      var (s1, err) := Mutate(p, i, j + 1, Edit(s, i, f));
      Play(p, i, j, s1, errs + [err])
  }

  /** A hook that calls next at most once: enter, perhaps the rest of the chain, leave. */
  lemma OnceRun(p: Plan, i: nat, j: nat, s: State)
    requires ValidPlan(p) && ValidState(p, s) && i < |p.hooks| && j < |p.hooks[i]| && p.hooks[i][j].limit <= 1
    ensures var h, s1 := p.hooks[i][j], Log(s, Entered(i, j));
            match h.step(s.fields[i], [])
            case Return(f, err) => Mutate(p, i, j, s) == (Log(Edit(s1, i, f), Quit(i, j)), err)
            case Call(f) =>
              var (s2, err) := Mutate(p, i, j + 1, Edit(s1, i, f));
              var last := h.step(s2.fields[i], [err]);
              last.Return? && Mutate(p, i, j, s) == (Log(Edit(s2, i, last.fields), Quit(i, j)), last.err)
  {
    var h, s1 := p.hooks[i][j], Log(s, Entered(i, j));
    assert ValidHook(h);
    var move := h.step(s.fields[i], []);
    if move.Call? {
      var (s2, err) := Mutate(p, i, j + 1, Edit(s1, i, move.fields));
      assert [] + [err] == [err];
      assert Play(p, i, j, s1, []) == Play(p, i, j, s2, [err]);
    }
  }

  /** The slices as `Save` makes them. */
  function Fresh(fields: seq<Fields>): State {
    State(fields,
          seq(|fields|, _ => None), seq(|fields|, _ => None), seq(|fields|, _ => None), seq(|fields|, _ => false), [])
  }

  /** Every builder's defaults are set before the first mutator is invoked. */
  function Defaulted(p: Plan, fields: seq<Fields>): seq<Fields> {
    seq(|fields|, k requires 0 <= k < |fields| => p.defaults(fields[k]))
  }

  function SaveAll(p: Plan, fields: seq<Fields>): (r: (State, Err))
    requires ValidPlan(p) && |fields| == |p.hooks|
    ensures ValidState(p, r.0)
  {
    if p.prior.Some? then (Fresh(fields), p.prior)
    else if |p.hooks| == 0 then (Fresh(fields), None)
    else Mutate(p, 0, 0, Fresh(Defaulted(p, fields)))
  }

  // ---------------------------------------------------------------- how often the batch runs

  function Batches(log: seq<Event>): nat {
    if log == [] then 0 else Batches(log[..|log| - 1]) + if log[|log| - 1].Batch? then 1 else 0
  }

  /** A product, as a sum. */
  function Times(n: nat, each: nat): nat {
    if n == 0 then 0 else each + Times(n - 1, each)
  }

  lemma {:induction false} TimesIsProduct(n: nat, each: nat)
    ensures Times(n, each) == n * each
  {
    if n > 0 {
      TimesIsProduct(n - 1, each);
    }
  }

  /** The product of the call limits of all hooks from hook j of builder i to the end of the chain. */
  function Calls(p: Plan, i: nat, j: nat): nat
    requires i < |p.hooks| && j <= |p.hooks[i]|
    decreases |p.hooks| - i, |p.hooks[i]| - j
  {
    if j < |p.hooks[i]| then Times(p.hooks[i][j].limit, Calls(p, i, j + 1))
    else if i + 1 < |p.hooks| then Calls(p, i + 1, 0)
    else 1
  }

  lemma BatchesLog(s: State, e: Event)
    ensures Batches(Log(s, e).log) == Batches(s.log) + if e.Batch? then 1 else 0
  {
    assert (s.log + [e])[..|s.log|] == s.log;
  }

  /** A closure runs as many batches as what it invokes, and none if its check fails. */
  lemma ClosureBatches(p: Plan, i: nat, s: State)
    requires ValidPlan(p) && ValidState(p, s) && i < |p.hooks|
    ensures var s' := Mutate(p, i, |p.hooks[i]|, s).0;
            && Batches(Specify(p, i, s).log) == Batches(s.log)
            && Batches(s'.log)
               == Batches(if p.check(s.fields[i]).Some? then s.log else Below(p, i, Specify(p, i, s)).0.log)
  {
    BatchesLog(s, Checked(i));
    if p.check(s.fields[i]) == None {
      BatchesLog(Below(p, i, Specify(p, i, s)).0, Marked(i));
    }
  }

  /** However the hooks behave, the batch runs at most as often as the product of the hooks' call limits allows. */
  lemma {:induction false} BatchesAtMost(p: Plan, i: nat, j: nat, s: State)
    requires ValidPlan(p) && ValidState(p, s) && i < |p.hooks| && j <= |p.hooks[i]|
    ensures Batches(Mutate(p, i, j, s).0.log) <= Batches(s.log) + Calls(p, i, j)
    decreases |p.hooks| - i, |p.hooks[i]| - j, 2, 0
  {
    if j < |p.hooks[i]| {
      var s1 := Log(s, Entered(i, j));
      assert Mutate(p, i, j, s) == Play(p, i, j, s1, []);
      BatchesLog(s, Entered(i, j));
      PlayAtMost(p, i, j, s1, []);
    } else {
      ClosureAtMost(p, i, s);
    }
  }

  lemma {:induction false} ClosureAtMost(p: Plan, i: nat, s: State)
    requires ValidPlan(p) && ValidState(p, s) && i < |p.hooks|
    ensures Batches(Mutate(p, i, |p.hooks[i]|, s).0.log) <= Batches(s.log) + Calls(p, i, |p.hooks[i]|)
    decreases |p.hooks| - i, 0, 1, 0
  {
    ClosureBatches(p, i, s);
    if p.check(s.fields[i]) == None {
      BelowAtMost(p, i, Specify(p, i, s));
    }
  }

  lemma {:induction false} BelowAtMost(p: Plan, i: nat, s: State)
    requires ValidPlan(p) && ValidState(p, s) && i < |p.hooks|
    ensures Batches(Below(p, i, s).0.log) <= Batches(s.log) + if i + 1 < |p.hooks| then Calls(p, i + 1, 0) else 1
    decreases |p.hooks| - i, 0, 0, 0
  {
    if i + 1 < |p.hooks| {
      BatchesAtMost(p, i + 1, 0, s);
    } else {
      BatchesLog(s, Batch(s.specs, p.reply(s.log, s.specs).Inserted?));
    }
  }

  lemma {:induction false} PlayAtMost(p: Plan, i: nat, j: nat, s: State, errs: seq<Err>)
    requires ValidPlan(p) && ValidState(p, s) && i < |p.hooks| && j < |p.hooks[i]| && |errs| <= p.hooks[i][j].limit
    ensures Batches(Play(p, i, j, s, errs).0.log)
         <= Batches(s.log) + Times(p.hooks[i][j].limit - |errs|, Calls(p, i, j + 1))
    decreases |p.hooks| - i, |p.hooks[i]| - j, 0, Remaining(p.hooks[i][j].limit, |errs|)
  {
    var h := p.hooks[i][j];
    assert ValidHook(h);
    var move := h.step(s.fields[i], errs);
    if move.Return? {
      BatchesLog(Edit(s, i, move.fields), Quit(i, j));
    } else {
      BatchesAtMost(p, i, j + 1, Edit(s, i, move.fields));
      var (s2, err) := Mutate(p, i, j + 1, Edit(s, i, move.fields));
      PlayAtMost(p, i, j, s2, errs + [err]);
    }
  }

  /** A save runs the batch at most as often as the hooks' call counts multiply to. */
  lemma SaveBatchesAtMost(p: Plan, fields: seq<Fields>)
    requires ValidPlan(p) && |fields| == |p.hooks|
    ensures Batches(SaveAll(p, fields).0.log) <= if |p.hooks| == 0 then 0 else Calls(p, 0, 0)
  {
    if p.prior == None && |p.hooks| > 0 {
      BatchesAtMost(p, 0, 0, Fresh(Defaulted(p, fields)));
    }
  }

  predicate OnceAtMost(p: Plan) {
    forall i, j :: 0 <= i < |p.hooks| && 0 <= j < |p.hooks[i]| ==> p.hooks[i][j].limit <= 1
  }

  /** From hook j of builder i on, every hook calls next and every check passes on the mutation the hooks leave. */
  predicate Reaches(p: Plan, i: nat, j: nat, fields: seq<Fields>)
    requires i < |p.hooks| == |fields| && j <= |p.hooks[i]|
    decreases |p.hooks| - i, |p.hooks[i]| - j
  {
    if j < |p.hooks[i]| then
      var move := p.hooks[i][j].step(fields[i], []);
      move.Call? && Reaches(p, i, j + 1, fields[i := move.fields])
    else
      p.check(fields[i]) == None && (i + 1 < |p.hooks| ==> Reaches(p, i + 1, 0, fields))
  }

  lemma {:induction false} BatchesExactly(p: Plan, i: nat, j: nat, s: State)
    requires ValidPlan(p) && ValidState(p, s) && OnceAtMost(p) && i < |p.hooks| && j <= |p.hooks[i]|
    ensures Batches(Mutate(p, i, j, s).0.log) == Batches(s.log) + if Reaches(p, i, j, s.fields) then 1 else 0
    decreases |p.hooks| - i, |p.hooks[i]| - j, 2
  {
    if j < |p.hooks[i]| {
      var s1 := Log(s, Entered(i, j));
      BatchesLog(s, Entered(i, j));
      OnceRun(p, i, j, s);
      var move := p.hooks[i][j].step(s.fields[i], []);
      if move.Call? {
        BatchesExactly(p, i, j + 1, Edit(s1, i, move.fields));
        var (s2, err) := Mutate(p, i, j + 1, Edit(s1, i, move.fields));
        BatchesLog(Edit(s2, i, p.hooks[i][j].step(s2.fields[i], [err]).fields), Quit(i, j));
      } else {
        BatchesLog(Edit(s1, i, move.fields), Quit(i, j));
      }
    } else {
      ClosureExactly(p, i, s);
    }
  }

  lemma {:induction false} ClosureExactly(p: Plan, i: nat, s: State)
    requires ValidPlan(p) && ValidState(p, s) && OnceAtMost(p) && i < |p.hooks|
    ensures Batches(Mutate(p, i, |p.hooks[i]|, s).0.log)
         == Batches(s.log) + if Reaches(p, i, |p.hooks[i]|, s.fields) then 1 else 0
    decreases |p.hooks| - i, 0, 1
  {
    ClosureBatches(p, i, s);
    if p.check(s.fields[i]) == None {
      BelowExactly(p, i, Specify(p, i, s));
    }
  }

  lemma {:induction false} BelowExactly(p: Plan, i: nat, s: State)
    requires ValidPlan(p) && ValidState(p, s) && OnceAtMost(p) && i < |p.hooks|
    ensures Batches(Below(p, i, s).0.log)
         == Batches(s.log) + if i + 1 < |p.hooks| ==> Reaches(p, i + 1, 0, s.fields) then 1 else 0
    decreases |p.hooks| - i, 0, 0
  {
    if i + 1 < |p.hooks| {
      BatchesExactly(p, i + 1, 0, s);
    } else {
      BatchesLog(s, Batch(s.specs, p.reply(s.log, s.specs).Inserted?));
    }
  }

  /** The mutation these hooks, the first outermost, hand to what they wrap; None if one of them returns instead. */
  function Through(hooks: seq<Hook>, f: Fields): Option<Fields> {
    if hooks == [] then Some(f) else
      match hooks[0].step(f, [])
      case Return(_, _) => None
      case Call(f') => Through(hooks[1..], f')
  }

  /** The hooks let this mutation through, and what they make of it passes the check. */
  predicate Passes(p: Plan, hooks: seq<Hook>, f: Fields) {
    Through(hooks, f).Some? && p.check(Through(hooks, f).value) == None
  }

  lemma {:induction false} ReachesIff(p: Plan, i: nat, j: nat, fields: seq<Fields>)
    requires i < |p.hooks| == |fields| && j <= |p.hooks[i]|
    ensures Reaches(p, i, j, fields) <==>
              && Passes(p, p.hooks[i][j..], fields[i])
              && forall k :: i < k < |p.hooks| ==> Passes(p, p.hooks[k], fields[k])
    decreases |p.hooks| - i, |p.hooks[i]| - j
  {
    var rest := p.hooks[i][j..];
    if j < |p.hooks[i]| {
      assert rest[0] == p.hooks[i][j] && rest[1..] == p.hooks[i][j + 1..];
      var move := p.hooks[i][j].step(fields[i], []);
      if move.Call? {
        ReachesIff(p, i, j + 1, fields[i := move.fields]);
      }
    } else if i + 1 < |p.hooks| {
      ReachesIff(p, i + 1, 0, fields);
      assert p.hooks[i + 1][0..] == p.hooks[i + 1];
      assert (forall k :: i < k < |p.hooks| ==> Passes(p, p.hooks[k], fields[k])) <==>
          && Passes(p, p.hooks[i + 1], fields[i + 1])
          && forall k :: i + 1 < k < |p.hooks| ==> Passes(p, p.hooks[k], fields[k]);
    }
  }

  /**
   * With hooks that call next at most once, a save of one or more builders runs the batch at most once, and runs it
   * exactly when the hooks of every builder let its defaulted mutation through and every check passes on what they made
   * of it.
   */
  lemma BatchRunsIff(p: Plan, fields: seq<Fields>)
    requires ValidPlan(p) && OnceAtMost(p) && |fields| == |p.hooks| && p.prior == None
    ensures Batches(SaveAll(p, fields).0.log)
            == if |p.hooks| > 0 && (forall i :: 0 <= i < |p.hooks| ==> Passes(p, p.hooks[i], p.defaults(fields[i])))
               then 1 else 0
  {
    if |p.hooks| > 0 {
      var made := Defaulted(p, fields);
      BatchesExactly(p, 0, 0, Fresh(made));
      ReachesIff(p, 0, 0, made);
      assert p.hooks[0][0..] == p.hooks[0];
      assert (forall i :: 0 <= i < |p.hooks| ==> Passes(p, p.hooks[i], made[i])) <==>
          Passes(p, p.hooks[0], made[0]) && forall i :: 0 < i < |p.hooks| ==> Passes(p, p.hooks[i], made[i]);
    }
  }

  // ---------------------------------------------------------------- what a batch holds

  predicate CheckedSpec(p: Plan, spec: Option<CreateSpec>) {
    spec.Some? && p.check(spec.value.fields) == None
  }

  /** A batch submits one spec for every builder, each made from fields that passed the check. */
  predicate CheckedBatch(p: Plan, e: Event) {
    e.Batch? ==> |e.specs| == |p.hooks| && forall k :: 0 <= k < |e.specs| ==> CheckedSpec(p, e.specs[k])
  }

  predicate AllChecked(p: Plan, log: seq<Event>) {
    forall n :: 0 <= n < |log| ==> CheckedBatch(p, log[n])
  }

  predicate CheckedBefore(p: Plan, i: nat, s: State) {
    forall k :: 0 <= k < i && k < |s.specs| ==> CheckedSpec(p, s.specs[k])
  }

  /**
   * However the hooks behave, whatever they edit and however often they call next, a batch is only ever submitted
   * with checked specs for all builders: a call of the chain from builder i keeps that, given the specs before i.
   */
  lemma {:induction false} SubmitsChecked(p: Plan, i: nat, j: nat, s: State)
    requires ValidPlan(p) && ValidState(p, s) && i < |p.hooks| && j <= |p.hooks[i]|
    requires AllChecked(p, s.log) && CheckedBefore(p, i, s)
    ensures var s' := Mutate(p, i, j, s).0;
            AllChecked(p, s'.log) && CheckedBefore(p, i, s')
    decreases |p.hooks| - i, |p.hooks[i]| - j, 1, 0
  {
    if j < |p.hooks[i]| {
      PlaySubmitsChecked(p, i, j, Log(s, Entered(i, j)), []);
    } else if p.check(s.fields[i]) == None {
      var s1 := Specify(p, i, s);
      assert CheckedBefore(p, i + 1, s1);
      if i + 1 < |p.hooks| {
        SubmitsChecked(p, i + 1, 0, s1);
      } else {
        assert CheckedBatch(p, Batch(s1.specs, p.reply(s1.log, s1.specs).Inserted?));
      }
    }
  }

  lemma {:induction false} PlaySubmitsChecked(p: Plan, i: nat, j: nat, s: State, errs: seq<Err>)
    requires ValidPlan(p) && ValidState(p, s) && i < |p.hooks| && j < |p.hooks[i]|
    requires AllChecked(p, s.log) && CheckedBefore(p, i, s)
    ensures var s' := Play(p, i, j, s, errs).0;
            AllChecked(p, s'.log) && CheckedBefore(p, i, s')
    decreases |p.hooks| - i, |p.hooks[i]| - j, 0, Remaining(p.hooks[i][j].limit, |errs|)
  {
    assert ValidHook(p.hooks[i][j]);
    var move := p.hooks[i][j].step(s.fields[i], errs);
    if move.Call? {
      SubmitsChecked(p, i, j + 1, Edit(s, i, move.fields));
      var (s1, err) := Mutate(p, i, j + 1, Edit(s, i, move.fields));
      PlaySubmitsChecked(p, i, j, s1, errs + [err]);
    }
  }

  lemma SaveSubmitsChecked(p: Plan, fields: seq<Fields>)
    requires ValidPlan(p) && |fields| == |p.hooks|
    ensures AllChecked(p, SaveAll(p, fields).0.log)
  {
    if p.prior == None && |p.hooks| > 0 {
      SubmitsChecked(p, 0, 0, Fresh(Defaulted(p, fields)));
    }
  }

  /** The hook leaves a mutation that meets the condition meeting it. */
  ghost predicate Keeps(h: Hook, bad: Fields -> bool) {
    forall f: Fields, errs: seq<Err> :: bad(f) ==> bad(h.step(f, errs).fields)
  }

  /** A condition on builder k's mutation that its check rejects and that its hooks cannot get rid of. */
  ghost predicate Stuck(p: Plan, k: nat, bad: Fields -> bool) {
    && k < |p.hooks|
    && (forall f :: bad(f) ==> p.check(f).Some?)
    && (forall j :: 0 <= j < |p.hooks[k]| ==> Keeps(p.hooks[k][j], bad))
  }

  /** A closure leaves the mutations as what it invokes leaves them. */
  lemma ClosureFields(p: Plan, i: nat, s: State)
    requires ValidPlan(p) && ValidState(p, s) && i < |p.hooks|
    ensures Mutate(p, i, |p.hooks[i]|, s).0.fields
         == if p.check(s.fields[i]).Some? then s.fields else Below(p, i, Specify(p, i, s)).0.fields
  {
  }

  /** One builder stuck with a rejected mutation keeps the whole save from running any batch. */
  lemma {:induction false} StuckBlocks(p: Plan, k: nat, bad: Fields -> bool, i: nat, j: nat, s: State)
    requires ValidPlan(p) && ValidState(p, s) && i <= k && Stuck(p, k, bad) && j <= |p.hooks[i]| && bad(s.fields[k])
    ensures var s' := Mutate(p, i, j, s).0;
            bad(s'.fields[k]) && Batches(s'.log) == Batches(s.log)
    decreases |p.hooks| - i, |p.hooks[i]| - j, 1, 0
  {
    if j < |p.hooks[i]| {
      BatchesLog(s, Entered(i, j));
      PlayBlocked(p, k, bad, i, j, Log(s, Entered(i, j)), []);
    } else {
      ClosureBatches(p, i, s);
      ClosureFields(p, i, s);
      if p.check(s.fields[i]) == None {
        assert i != k;
        var s1 := Specify(p, i, s);
        assert s1.fields == s.fields;
        StuckBlocks(p, k, bad, i + 1, 0, s1);
        assert Below(p, i, s1) == Mutate(p, i + 1, 0, s1);
      }
    }
  }

  lemma {:induction false} PlayBlocked(p: Plan, k: nat, bad: Fields -> bool, i: nat, j: nat, s: State, errs: seq<Err>)
    requires ValidPlan(p) && ValidState(p, s) && i <= k && Stuck(p, k, bad) && j < |p.hooks[i]| && bad(s.fields[k])
    ensures var s' := Play(p, i, j, s, errs).0;
            bad(s'.fields[k]) && Batches(s'.log) == Batches(s.log)
    decreases |p.hooks| - i, |p.hooks[i]| - j, 0, Remaining(p.hooks[i][j].limit, |errs|)
  {
    assert ValidHook(p.hooks[i][j]);
    assert i == k ==> Keeps(p.hooks[i][j], bad);
    var move := p.hooks[i][j].step(s.fields[i], errs);
    if move.Call? {
      StuckBlocks(p, k, bad, i, j + 1, Edit(s, i, move.fields));
      var (s1, err) := Mutate(p, i, j + 1, Edit(s, i, move.fields));
      PlayBlocked(p, k, bad, i, j, s1, errs + [err]);
    } else {
      BatchesLog(Edit(s, i, move.fields), Quit(i, j));
    }
  }

  // ---------------------------------------------------------------- all or nothing

  /** The batches the database accepted. */
  function Stored(log: seq<Event>): seq<seq<Option<CreateSpec>>> {
    if log == [] then [] else
      var e := log[|log| - 1];
      Stored(log[..|log| - 1]) + if e.Batch? && e.stored then [e.specs] else []
  }

  lemma StoredLog(s: State, e: Event)
    ensures Stored(Log(s, e).log) == Stored(s.log) + if e.Batch? && e.stored then [e.specs] else []
  {
    assert (s.log + [e])[..|s.log|] == s.log;
  }

  /**
   * The mutation a hook has in hand after its calls of next failed as `env` says: each left this mutation and error.
   */
  function Now(f: Fields, env: seq<(Fields, Error)>): Fields {
    if env == [] then f else env[|env| - 1].0
  }

  function Failures(env: seq<(Fields, Error)>): seq<Err> {
    seq(|env|, k requires 0 <= k < |env| => Some(env[k].1))
  }

  /** Started on f, the hook calls next again after each of these failures but the last. */
  ghost predicate Retries(h: Hook, f: Fields, env: seq<(Fields, Error)>) {
    forall k :: 0 <= k < |env| ==> h.step(Now(f, env[..k]), Failures(env[..k])).Call?
  }

  /**
   * After nothing but failures the hook fails if it returns; if it calls next and that succeeds, it succeeds at once.
   */
  ghost predicate Truthful(h: Hook, f: Fields, errs: seq<Err>) {
    match h.step(f, errs)
    case Return(_, err) => err.Some?
    case Call(_) => forall g: Fields :: h.step(g, errs + [None]).Return? && h.step(g, errs + [None]).err == None
  }

  /**
   * A hook that tells the truth on every mutation: it succeeds exactly when its last call of next did, and calls next
   * again only after failures. It may edit, refuse some mutations, translate errors and try again.
   */
  ghost predicate Honest(h: Hook) {
    && ValidHook(h)
    && forall f: Fields, env: seq<(Fields, Error)> ::
         Retries(h, f, env) ==> Truthful(h, Now(f, env), Failures(env))
  }

  /** A hook that hands the mutation on as it is and tries again, up to n times, while next fails. */
  function Retrier(n: nat): Hook {
    Hook(n + 1, (f: Fields, errs: seq<Err>) =>
      if errs == [] then Call(f)
      else if |errs| <= n && errs[|errs| - 1].Some? then Call(f)
      else Return(f, errs[|errs| - 1]))
  }

  lemma RetrierIsHonest(n: nat)
    ensures Honest(Retrier(n))
  {
    var h := Retrier(n);
    forall f: Fields, env: seq<(Fields, Error)> | Retries(h, f, env) ensures Truthful(h, Now(f, env), Failures(env)) {
      forall g: Fields ensures h.step(g, Failures(env) + [None]) == Return(g, None) {
      }
    }
  }

  ghost predicate AllHonest(p: Plan) {
    forall i, j :: 0 <= i < |p.hooks| && 0 <= j < |p.hooks[i]| ==> Honest(p.hooks[i][j])
  }

  /** The slots of the builders before i are as they were. */
  predicate SameBefore(p: Plan, i: nat, s: State, s': State)
    requires ValidState(p, s) && ValidState(p, s')
  {
    forall k :: 0 <= k < i && k < |p.hooks| ==>
      s'.fields[k] == s.fields[k] && s'.specs[k] == s.specs[k] && s'.nodes[k] == s.nodes[k] && s'.done[k] == s.done[k]
  }

  /** Builder k's spec and node were made from one mutation, its id arrived, and its mutation is marked done. */
  predicate BuilderDone(s: State, k: nat)
    requires k < |s.specs| == |s.nodes| == |s.ids| == |s.done|
  {
    && s.specs[k].Some?
    && s.nodes[k] == Some(Node(s.specs[k].value.fields, if s.ids[k].Some? then s.ids[k].value else 0))
    && s.done[k]
  }

  /** The ids are those that the database returned for a batch of exactly these specs. */
  ghost predicate Answered(p: Plan, s: State) {
    exists k :: 0 <= k < |s.log| && AnsweredAt(p, s, k)
  }

  ghost predicate AnsweredAt(p: Plan, s: State, k: nat)
    requires k < |s.log|
  {
    s.log[k] == Batch(s.specs, true) && p.reply(s.log[..k], s.specs) == Inserted(s.ids)
  }

  lemma AnsweredLog(p: Plan, s: State, s': State, e: Event)
    requires Answered(p, s) && s'.specs == s.specs && s'.ids == s.ids && s'.log == s.log + [e]
    ensures Answered(p, s')
  {
    var k :| 0 <= k < |s.log| && AnsweredAt(p, s, k);
    assert s'.log[..k] == s.log[..k];
    assert AnsweredAt(p, s', k);
  }

  /** Success of the chain from builder i: one more batch stored, of exactly the specs made, and all builders done. */
  ghost predicate ChainOutcome(p: Plan, i: nat, s: State, r: (State, Err))
    requires ValidState(p, s) && ValidState(p, r.0)
  {
    && SameBefore(p, i, s, r.0)
    && (if r.1 == None then
          && Stored(r.0.log) == Stored(s.log) + [r.0.specs] && Answered(p, r.0)
          && forall k :: i <= k < |p.hooks| ==> BuilderDone(r.0, k)
        else
          Stored(r.0.log) == Stored(s.log) && r.0.done == s.done)
  }

  lemma BelowOutcome(p: Plan, i: nat, s: State)
    requires ValidPlan(p) && ValidState(p, s) && i + 1 == |p.hooks|
    ensures ChainOutcome(p, i + 1, s, Below(p, i, s))
  {
    StoredLog(s, Batch(s.specs, p.reply(s.log, s.specs).Inserted?));
    var r := Below(p, i, s).0;
    assert r.log[..|s.log|] == s.log;
    assert p.reply(s.log, s.specs).Inserted? ==> AnsweredAt(p, r, |s.log|);
  }

  lemma DoneOutcome(p: Plan, i: nat, s: State, s1: State)
    requires ValidState(p, s) && ValidState(p, s1) && i < |p.hooks|
    requires s.specs[i] == Some(CreateSpec(s.fields[i])) && s.nodes[i] == Some(Node(s.fields[i], 0))
    requires ChainOutcome(p, i + 1, s, (s1, None))
    ensures ChainOutcome(p, i, s, (MarkDone(s1, i), None))
  {
    var s2 := MarkDone(s1, i);
    StoredLog(s1, Marked(i));
    AnsweredLog(p, s1, s2, Marked(i));
    assert s.specs[i] == s1.specs[i] && s.nodes[i] == s1.nodes[i];
    forall k | i <= k < |p.hooks| ensures BuilderDone(s2, k) {
      if i < k {
        assert BuilderDone(s1, k);
      }
    }
  }

  lemma ClosureOutcome(p: Plan, i: nat, s: State, s1: State, err: Err)
    requires ValidState(p, s) && ValidState(p, s1) && i < |p.hooks|
    requires ChainOutcome(p, i + 1, Specify(p, i, s), (s1, err))
    ensures ChainOutcome(p, i, s, if err.Some? then (s1, err) else (MarkDone(s1, i), None))
  {
    StoredLog(s, Checked(i));
    var made := Specify(p, i, s);
    assert Stored(made.log) == Stored(s.log) && SameBefore(p, i, s, made);
    if err == None {
      DoneOutcome(p, i, made, s1);
    }
  }

  /** A hook's edit of its own mutation, and an event that is no batch, leave a success as it is. */
  lemma EditOutcome(p: Plan, i: nat, s: State, s1: State, f: Fields, e: Event)
    requires ValidState(p, s) && ValidState(p, s1) && i < |p.hooks| && !e.Batch?
    requires ChainOutcome(p, i, s, (s1, None))
    ensures ChainOutcome(p, i, s, (Log(Edit(s1, i, f), e), None))
  {
    var s2 := Log(Edit(s1, i, f), e);
    StoredLog(Edit(s1, i, f), e);
    AnsweredLog(p, s1, s2, e);
    forall k | i <= k < |p.hooks| ensures BuilderDone(s2, k) {
      assert BuilderDone(s1, k);
    }
  }

  /** Outcomes in a row: nothing happened first, then something did or did not. */
  lemma ThenOutcome(p: Plan, i: nat, s: State, s1: State, r: (State, Err))
    requires ValidState(p, s) && ValidState(p, s1) && ValidState(p, r.0)
    requires SameBefore(p, i, s, s1) && Stored(s1.log) == Stored(s.log) && s1.done == s.done
    requires ChainOutcome(p, i, s1, r)
    ensures ChainOutcome(p, i, s, r)
  {
  }

  /** A chain of honest hooks is all or nothing from every point on. */
  lemma {:induction false} HonestChain(p: Plan, i: nat, j: nat, s: State)
    requires ValidPlan(p) && ValidState(p, s) && AllHonest(p) && i < |p.hooks| && j <= |p.hooks[i]|
    ensures ChainOutcome(p, i, s, Mutate(p, i, j, s))
    decreases |p.hooks| - i, |p.hooks[i]| - j, 1, 0
  {
    if j < |p.hooks[i]| {
      var s1 := Log(s, Entered(i, j));
      StoredLog(s, Entered(i, j));
      assert Failures([]) == [];
      HonestPlay(p, i, j, s1, s.fields[i], []);
      ThenOutcome(p, i, s, s1, Mutate(p, i, j, s));
    } else if p.check(s.fields[i]) == None {
      var s1 := Specify(p, i, s);
      if i + 1 < |p.hooks| {
        HonestChain(p, i + 1, 0, s1);
      } else {
        BelowOutcome(p, i, s1);
      }
      ClosureOutcome(p, i, s, Below(p, i, s1).0, Below(p, i, s1).1);
    } else {
      StoredLog(s, Checked(i));
    }
  }

  lemma RetriesMore(h: Hook, f: Fields, env: seq<(Fields, Error)>, next: (Fields, Error))
    requires Retries(h, f, env) && h.step(Now(f, env), Failures(env)).Call?
    ensures Retries(h, f, env + [next]) && Failures(env + [next]) == Failures(env) + [Some(next.1)]
  {
    var more := env + [next];
    forall k | 0 <= k < |more| ensures h.step(Now(f, more[..k]), Failures(more[..k])).Call? {
      if k < |env| {
        assert more[..k] == env[..k];
      } else {
        assert more[..k] == env;
      }
    }
  }

  /** An honest hook at work, after nothing but failures that stored and marked nothing. */
  lemma {:induction false} HonestPlay(p: Plan, i: nat, j: nat, s: State, f: Fields, env: seq<(Fields, Error)>)
    requires ValidPlan(p) && ValidState(p, s) && AllHonest(p) && i < |p.hooks| && j < |p.hooks[i]|
    requires Retries(p.hooks[i][j], f, env) && s.fields[i] == Now(f, env)
    ensures ChainOutcome(p, i, s, Play(p, i, j, s, Failures(env)))
    decreases |p.hooks| - i, |p.hooks[i]| - j, 0, Remaining(p.hooks[i][j].limit, |env|)
  {
    var h, errs := p.hooks[i][j], Failures(env);
    assert Honest(h) && Truthful(h, Now(f, env), errs);
    var move := h.step(s.fields[i], errs);
    if move.Return? {
      StoredLog(Edit(s, i, move.fields), Quit(i, j));
    } else {
      var s0 := Edit(s, i, move.fields);
      var (s1, err) := Mutate(p, i, j + 1, s0);
      HonestChain(p, i, j + 1, s0);
      ThenOutcome(p, i, s, s0, (s1, err));
      if err == None {
        var last := h.step(s1.fields[i], errs + [None]);
        EditOutcome(p, i, s, s1, last.fields, Quit(i, j));
        assert Play(p, i, j, s1, errs + [err]) == (Log(Edit(s1, i, last.fields), Quit(i, j)), None);
      } else {
        var next := (s1.fields[i], err.value);
        RetriesMore(h, f, env, next);
        HonestPlay(p, i, j, s1, f, env + [next]);
        ThenOutcome(p, i, s, s1, Play(p, i, j, s1, errs + [err]));
      }
    }
  }

  /**
   * A save told the truth: on success exactly one batch was stored, with one spec for each builder in builder order,
   * all mutations are done and every node holds its spec's fields and the id the database returned for its row. On
   * failure nothing was stored and no mutation is done. Saving no builders succeeds and stores nothing.
   */
  ghost predicate AllOrNothing(p: Plan, fields: seq<Fields>)
    requires ValidPlan(p) && |fields| == |p.hooks|
  {
    var (s, err) := SaveAll(p, fields);
    if err.Some? then Stored(s.log) == [] && forall k :: 0 <= k < |fields| ==> !s.done[k]
    else if |fields| == 0 then s.log == []
    else Stored(s.log) == [s.specs] && Answered(p, s) && forall k :: 0 <= k < |fields| ==> BuilderDone(s, k)
  }

  lemma HonestIsAllOrNothing(p: Plan, fields: seq<Fields>)
    requires ValidPlan(p) && AllHonest(p) && |fields| == |p.hooks|
    ensures AllOrNothing(p, fields)
  {
    if p.prior == None && |p.hooks| > 0 {
      var s := Fresh(Defaulted(p, fields));
      HonestChain(p, 0, 0, s);
      assert Stored(s.log) + [SaveAll(p, fields).0.specs] == [SaveAll(p, fields).0.specs];
    }
  }

  // ---------------------------------------------------------------- what a successful save stores

  /** An honest hook that may call next once lets a save succeed only by calling it, and only if that succeeded. */
  lemma HonestOnce(p: Plan, i: nat, j: nat, s: State)
    requires ValidPlan(p) && ValidState(p, s) && i < |p.hooks| && j < |p.hooks[i]|
    requires Honest(p.hooks[i][j]) && p.hooks[i][j].limit <= 1 && Mutate(p, i, j, s).1 == None
    ensures var h, s1 := p.hooks[i][j], Log(s, Entered(i, j));
            && h.step(s.fields[i], []).Call?
            && var (s2, err) := Mutate(p, i, j + 1, Edit(s1, i, h.step(s.fields[i], []).fields));
            && err == None
            && Mutate(p, i, j, s).0 == Log(Edit(s2, i, h.step(s2.fields[i], [err]).fields), Quit(i, j))
  {
    var h, s1 := p.hooks[i][j], Log(s, Entered(i, j));
    OnceRun(p, i, j, s);
    assert Failures([]) == [] && Retries(h, s.fields[i], []);
    assert Truthful(h, s.fields[i], []);
    var move := h.step(s.fields[i], []);
    if move.Call? {
      var (s2, err) := Mutate(p, i, j + 1, Edit(s1, i, move.fields));
      assert [] + [err] == [err];
      if err.Some? {
        RetriesMore(h, s.fields[i], [], (s2.fields[i], err.value));
      }
    }
  }

  /** After a success with hooks that call next once, each spec holds what the builder's hooks made of its mutation. */
  lemma {:induction false} OnceContents(p: Plan, i: nat, j: nat, s: State)
    requires ValidPlan(p) && ValidState(p, s) && AllHonest(p) && OnceAtMost(p) && i < |p.hooks| && j <= |p.hooks[i]|
    requires Mutate(p, i, j, s).1 == None
    ensures var s' := Mutate(p, i, j, s).0;
            && SameBefore(p, i, s, s')
            && Holds(s'.specs[i], Through(p.hooks[i][j..], s.fields[i]))
            && forall k :: i < k < |p.hooks| ==> Holds(s'.specs[k], Through(p.hooks[k], s.fields[k]))
    decreases |p.hooks| - i, |p.hooks[i]| - j
  {
    var rest := p.hooks[i][j..];
    if j < |p.hooks[i]| {
      HonestOnce(p, i, j, s);
      assert rest[0] == p.hooks[i][j] && rest[1..] == p.hooks[i][j + 1..];
      OnceContents(p, i, j + 1, Edit(Log(s, Entered(i, j)), i, p.hooks[i][j].step(s.fields[i], []).fields));
    } else if i + 1 < |p.hooks| {
      OnceContents(p, i + 1, 0, Specify(p, i, s));
      assert p.hooks[i + 1][0..] == p.hooks[i + 1];
    }
  }

  predicate Holds(spec: Option<CreateSpec>, f: Option<Fields>) {
    f.Some? && spec == Some(CreateSpec(f.value))
  }

  /** The one batch of a successful save with such hooks, or with none. */
  lemma SavedContents(p: Plan, fields: seq<Fields>, k: nat)
    requires ValidPlan(p) && AllHonest(p) && OnceAtMost(p) && k < |fields| == |p.hooks| && SaveAll(p, fields).1 == None
    ensures Stored(SaveAll(p, fields).0.log) == [SaveAll(p, fields).0.specs]
    ensures Holds(SaveAll(p, fields).0.specs[k], Through(p.hooks[k], p.defaults(fields[k])))
  {
    HonestIsAllOrNothing(p, fields);
    OnceContents(p, 0, 0, Fresh(Defaulted(p, fields)));
    assert p.hooks[0][0..] == p.hooks[0];
  }

  // ---------------------------------------------------------------- honesty is needed

  /** The n-th failure of a database that numbers its failures. */
  function Mark(n: nat): string {
    seq(n, _ => 'x')
  }

  /** A hook that turns the n-th such failure into the n-th entry of `env`, and leaves `g` after a success. */
  function Helper(env: seq<(Fields, Error)>, g: Fields): Hook {
    Hook(1, (f, errs) => if errs == [] then Call(f) else Translate(env, g, f, errs[0]))
  }

  function Translate(env: seq<(Fields, Error)>, g: Fields, f: Fields, err: Err): Move {
    match err
    case None => Return(g, None)
    case Some(Database(m)) => if |m| < |env| then Return(env[|m|].0, Some(env[|m|].1)) else Return(f, err)
    case Some(_) => Return(f, err)
  }

  lemma HelperReturns(env: seq<(Fields, Error)>, g: Fields, f: Fields, errs: seq<Err>)
    requires errs != []
    ensures Helper(env, g).step(f, errs).Return?
  {
  }

  lemma HelperHonest(env: seq<(Fields, Error)>, g: Fields)
    ensures Honest(Helper(env, g))
  {
    var h := Helper(env, g);
    forall f: Fields, past: seq<(Fields, Error)> | Retries(h, f, past)
      ensures Truthful(h, Now(f, past), Failures(past))
    {
      if |past| > 1 {
        HelperReturns(env, g, Now(f, past[..1]), Failures(past[..1]));
      }
    }
  }

  /**
   * One builder, hook h outside the helper, a check that passes, and a database that fails |env| times and then
   * accepts.
   */
  function Witness(h: Hook, env: seq<(Fields, Error)>, g: Fields): Plan {
    Plan(None, f => f, [[h, Helper(env, g)]], _ => None,
         (log, specs) =>
           if Batches(log) < |env| then Failed(Mark(Batches(log)), false) else Inserted(seq(|specs|, _ => None)))
  }

  lemma WitnessValid(h: Hook, env: seq<(Fields, Error)>, g: Fields)
    requires ValidHook(h)
    ensures ValidPlan(Witness(h, env, g))
  {
    HelperHonest(env, g);
  }

  /** The last builder's closure, when its check passes: one batch, stored or not. */
  lemma LastClosure(p: Plan, i: nat, s: State)
    requires ValidPlan(p) && ValidState(p, s) && i + 1 == |p.hooks| && p.check(s.fields[i]) == None
    ensures var made := Specify(p, i, s);
            var reply := p.reply(made.log, made.specs);
            var (s1, err) := Mutate(p, i, |p.hooks[i]|, s);
            && Batches(made.log) == Batches(s.log) && Batches(s1.log) == Batches(s.log) + 1
            && err == (if reply.Inserted? then None else WrapReply(reply))
            && |Stored(s1.log)| == |Stored(s.log)| + if reply.Inserted? then 1 else 0
  {
    QuietLog(s, Checked(i));
    var made := Specify(p, i, s);
    var e := Batch(made.specs, p.reply(made.log, made.specs).Inserted?);
    BatchCounted(made, e);
    QuietLog(Below(p, i, made).0, Marked(i));
  }

  lemma BatchCounted(s: State, e: Event)
    requires e.Batch?
    ensures Batches(Log(s, e).log) == Batches(s.log) + 1
    ensures |Stored(Log(s, e).log)| == |Stored(s.log)| + if e.stored then 1 else 0
  {
    BatchesLog(s, e);
    StoredLog(s, e);
  }

  lemma WitnessClosure(h: Hook, env: seq<(Fields, Error)>, g: Fields, s: State)
    requires ValidHook(h) && ValidPlan(Witness(h, env, g)) && ValidState(Witness(h, env, g), s)
    ensures var n := Batches(s.log);
            var (s1, err) := Mutate(Witness(h, env, g), 0, 2, s);
            && Batches(s1.log) == n + 1
            && err == (if n < |env| then Some(Database(Mark(n))) else None)
            && |Stored(s1.log)| == |Stored(s.log)| + if n < |env| then 0 else 1
  {
    LastClosure(Witness(h, env, g), 0, s);
  }

  lemma TranslateMark(env: seq<(Fields, Error)>, g: Fields, f: Fields, n: nat)
    ensures Translate(env, g, f, if n < |env| then Some(Database(Mark(n))) else None)
         == if n < |env| then Return(env[n].0, Some(env[n].1)) else Return(g, None)
  {
  }

  lemma QuietLog(s: State, e: Event)
    requires !e.Batch?
    ensures Batches(Log(s, e).log) == Batches(s.log) && Stored(Log(s, e).log) == Stored(s.log)
  {
    BatchesLog(s, e);
    StoredLog(s, e);
  }

  /** The helper at work: it hands the mutation on as it is and returns the translation of what it gets back. */
  lemma HelperRun(h: Hook, env: seq<(Fields, Error)>, g: Fields, s: State)
    requires ValidHook(h) && ValidPlan(Witness(h, env, g)) && ValidState(Witness(h, env, g), s)
    ensures var (s2, err) := Mutate(Witness(h, env, g), 0, 2, Edit(Log(s, Entered(0, 1)), 0, s.fields[0]));
            var last := Translate(env, g, s2.fields[0], err);
            Mutate(Witness(h, env, g), 0, 1, s)
            == (Log(Edit(s2, 0, last.fields), Quit(0, 1)), if last.Return? then last.err else None)
  {
    assert Witness(h, env, g).hooks[0][1] == Helper(env, g)
           && Helper(env, g).step(s.fields[0], []) == Call(s.fields[0]);
    OnceRun(Witness(h, env, g), 0, 1, s);
  }

  /** Each call of next by h either fails as the next entry of `env` says, or stores one more batch and leaves g. */
  lemma WitnessCall(h: Hook, env: seq<(Fields, Error)>, g: Fields, s: State)
    requires ValidHook(h) && ValidPlan(Witness(h, env, g)) && ValidState(Witness(h, env, g), s)
    ensures var n := Batches(s.log);
            var (s1, err) := Mutate(Witness(h, env, g), 0, 1, s);
            && Batches(s1.log) == n + 1
            && err == (if n < |env| then Some(env[n].1) else None)
            && s1.fields[0] == (if n < |env| then env[n].0 else g)
            && |Stored(s1.log)| == |Stored(s.log)| + if n < |env| then 0 else 1
  {
    HelperRun(h, env, g, s);
    QuietLog(s, Entered(0, 1));
    var s0 := Edit(Log(s, Entered(0, 1)), 0, s.fields[0]);
    WitnessClosure(h, env, g, s0);
    var (s2, err) := Mutate(Witness(h, env, g), 0, 2, s0);
    TranslateMark(env, g, s2.fields[0], Batches(s.log));
    QuietLog(Edit(s2, 0, Translate(env, g, s2.fields[0], err).fields), Quit(0, 1));
  }

  /**
   * If h would retry after all of `env`, its run comes to the point where all of it has happened and nothing is stored.
   */
  lemma {:induction false} WitnessRetries(h: Hook, f: Fields, env: seq<(Fields, Error)>, g: Fields, n: nat, s: State)
    returns (s': State)
    requires ValidHook(h) && ValidPlan(Witness(h, env, g)) && ValidState(Witness(h, env, g), s)
    requires n <= |env| && Retries(h, f, env)
    requires Batches(s.log) == n && s.fields[0] == Now(f, env[..n]) && Stored(s.log) == []
    ensures ValidState(Witness(h, env, g), s')
    ensures Batches(s'.log) == |env| && s'.fields[0] == Now(f, env) && Stored(s'.log) == []
    ensures Play(Witness(h, env, g), 0, 0, s, Failures(env[..n])) == Play(Witness(h, env, g), 0, 0, s', Failures(env))
    decreases |env| - n
  {
    if n == |env| {
      assert env[..n] == env;
      s' := s;
    } else {
      var s1 := WitnessOneMore(h, f, env, g, n, s);
      s' := WitnessRetries(h, f, env, g, n + 1, s1);
    }
  }

  lemma FailuresNext(f: Fields, env: seq<(Fields, Error)>, n: nat)
    requires n < |env|
    ensures Now(f, env[..n + 1]) == env[n].0
    ensures Failures(env[..n + 1]) == Failures(env[..n]) + [Some(env[n].1)]
  {
  }

  /** One of these calls of next. */
  lemma WitnessOneMore(h: Hook, f: Fields, env: seq<(Fields, Error)>, g: Fields, n: nat, s: State) returns (s1: State)
    requires ValidHook(h) && ValidPlan(Witness(h, env, g)) && ValidState(Witness(h, env, g), s)
    requires n < |env| && Retries(h, f, env)
    requires Batches(s.log) == n && s.fields[0] == Now(f, env[..n]) && Stored(s.log) == []
    ensures ValidState(Witness(h, env, g), s1)
    ensures Batches(s1.log) == n + 1 && s1.fields[0] == Now(f, env[..n + 1]) && Stored(s1.log) == []
    ensures Play(Witness(h, env, g), 0, 0, s, Failures(env[..n]))
            == Play(Witness(h, env, g), 0, 0, s1, Failures(env[..n + 1]))
  {
    var move := h.step(Now(f, env[..n]), Failures(env[..n]));
    assert move.Call?;
    var s0 := Edit(s, 0, move.fields);
    WitnessCall(h, env, g, s0);
    s1 := Mutate(Witness(h, env, g), 0, 1, s0).0;
    FailuresNext(f, env, n);
    assert |Stored(s1.log)| == 0;
  }

  /** From then on the stored batches only grow. */
  lemma {:induction false} WitnessGrows(h: Hook, env: seq<(Fields, Error)>, g: Fields, s: State, errs: seq<Err>)
    requires ValidHook(h) && ValidPlan(Witness(h, env, g)) && ValidState(Witness(h, env, g), s)
             && Batches(s.log) >= |env|
    ensures |Stored(Play(Witness(h, env, g), 0, 0, s, errs).0.log)| >= |Stored(s.log)|
    decreases Remaining(h.limit, |errs|)
  {
    var p, move := Witness(h, env, g), h.step(s.fields[0], errs);
    if move.Return? {
      StoredLog(Edit(s, 0, move.fields), Quit(0, 0));
    } else {
      WitnessCall(h, env, g, Edit(s, 0, move.fields));
      var (s1, err) := Mutate(p, 0, 1, Edit(s, 0, move.fields));
      WitnessGrows(h, env, g, s1, errs + [err]);
    }
  }

  /** The save of the witness, from the point where all of `env` has happened. */
  lemma WitnessReaches(h: Hook, f: Fields, env: seq<(Fields, Error)>, g: Fields) returns (s: State)
    requires ValidHook(h) && ValidPlan(Witness(h, env, g)) && Retries(h, f, env)
    ensures ValidState(Witness(h, env, g), s)
    ensures Batches(s.log) == |env| && s.fields[0] == Now(f, env) && Stored(s.log) == []
    ensures SaveAll(Witness(h, env, g), [f]) == Play(Witness(h, env, g), 0, 0, s, Failures(env))
  {
    var s0 := Fresh([f]);
    assert Defaulted(Witness(h, env, g), [f]) == [f];
    QuietLog(s0, Entered(0, 0));
    assert Failures(env[..0]) == [];
    s := WitnessRetries(h, f, env, g, 0, Log(s0, Entered(0, 0)));
  }

  /** A hook that returns success after nothing but failures: the save succeeds and stored nothing. */
  lemma FalseSuccess(h: Hook, f: Fields, env: seq<(Fields, Error)>, g: Fields)
    requires ValidHook(h) && ValidPlan(Witness(h, env, g)) && Retries(h, f, env)
    requires var move := h.step(Now(f, env), Failures(env)); move.Return? && move.err == None
    ensures !AllOrNothing(Witness(h, env, g), [f])
  {
    var s := WitnessReaches(h, f, env, g);
    QuietLog(Edit(s, 0, h.step(Now(f, env), Failures(env)).fields), Quit(0, 0));
  }

  /**
   * A hook that does not return success at once after a success: its failure hides a batch, its next call repeats one.
   */
  lemma FalseFailure(h: Hook, f: Fields, env: seq<(Fields, Error)>, g: Fields)
    requires ValidHook(h) && ValidPlan(Witness(h, env, g)) && Retries(h, f, env)
    requires h.step(Now(f, env), Failures(env)).Call?
    requires var last := h.step(g, Failures(env) + [None]); last.Call? || last.err.Some?
    ensures !AllOrNothing(Witness(h, env, g), [f])
  {
    var p, errs := Witness(h, env, g), Failures(env);
    var s := WitnessReaches(h, f, env, g);
    var s0 := Edit(s, 0, h.step(Now(f, env), errs).fields);
    WitnessCall(h, env, g, s0);
    var (s1, err) := Mutate(p, 0, 1, s0);
    assert Play(p, 0, 0, s, errs) == Play(p, 0, 0, s1, errs + [err]);
    var last := h.step(g, errs + [None]);
    if last.Return? {
      QuietLog(Edit(s1, 0, last.fields), Quit(0, 0));
    } else {
      var s2 := Edit(s1, 0, last.fields);
      WitnessCall(h, env, g, s2);
      var (s3, err3) := Mutate(p, 0, 1, s2);
      WitnessGrows(h, env, g, s3, errs + [None] + [err3]);
      assert Play(p, 0, 0, s1, errs + [None]) == Play(p, 0, 0, s3, errs + [None] + [err3]);
    }
  }

  /** An untruthful move, once the hook has got that far, breaks the guarantee. */
  lemma UntruthfulBreaks(h: Hook, f: Fields, env: seq<(Fields, Error)>) returns (g: Fields)
    requires ValidHook(h) && Retries(h, f, env) && !Truthful(h, Now(f, env), Failures(env))
    ensures ValidPlan(Witness(h, env, g)) && !AllOrNothing(Witness(h, env, g), [f])
  {
    g := map[];
    if h.step(Now(f, env), Failures(env)).Return? {
      WitnessValid(h, env, g);
      FalseSuccess(h, f, env, g);
    } else {
      g :| !(h.step(g, Failures(env) + [None]).Return? && h.step(g, Failures(env) + [None]).err == None);
      WitnessValid(h, env, g);
      FalseFailure(h, f, env, g);
    }
  }

  /** Every hook of the plan is h or honest. */
  ghost predicate OnlyThisOrHonest(p: Plan, h: Hook) {
    forall i, j :: 0 <= i < |p.hooks| && 0 <= j < |p.hooks[i]| ==> p.hooks[i][j] == h || Honest(p.hooks[i][j])
  }

  /**
   * Honesty is exactly what the guarantee needs: a hook keeps it in every save whose other hooks are honest, wherever
   * it stands, if and only if it is honest itself. A hook that swallows an error or succeeds without calling next makes
   * a save report rows that were never stored; one that fails after next succeeded hides rows that were; one that calls
   * next again after a success stores the rows again.
   */
  lemma HonestIsExact(h: Hook)
    requires ValidHook(h)
    ensures Honest(h) <==>
              forall p: Plan, fields: seq<Fields> ::
                ValidPlan(p) && |fields| == |p.hooks| && OnlyThisOrHonest(p, h) ==> AllOrNothing(p, fields)
  {
    if Honest(h) {
      forall p: Plan, fields: seq<Fields> | ValidPlan(p) && |fields| == |p.hooks| && OnlyThisOrHonest(p, h)
        ensures AllOrNothing(p, fields)
      {
        HonestIsAllOrNothing(p, fields);
      }
    } else {
      var f: Fields, env: seq<(Fields, Error)> :| Retries(h, f, env) && !Truthful(h, Now(f, env), Failures(env));
      var g := UntruthfulBreaks(h, f, env);
      HelperHonest(env, g);
      assert OnlyThisOrHonest(Witness(h, env, g), h);
    }
  }

  // ---------------------------------------------------------------- order of events

  /** The way in: each builder's hooks from the first inwards, then its check, then the next builder. */
  function Down(p: Plan, i: nat, j: nat): seq<Event>
    requires i < |p.hooks| && j <= |p.hooks[i]|
    decreases |p.hooks| - i, |p.hooks[i]| - j
  {
    if j < |p.hooks[i]| then [Entered(i, j)] + Down(p, i, j + 1)
    else [Checked(i)] + if i + 1 < |p.hooks| then Down(p, i + 1, 0) else []
  }

  /** The way back: the last builder first; each is marked done before its innermost hook is left. */
  function Up(p: Plan, i: nat, j: nat): seq<Event>
    requires i < |p.hooks| && j <= |p.hooks[i]|
    decreases |p.hooks| - i, |p.hooks[i]| - j
  {
    if j < |p.hooks[i]| then Up(p, i, j + 1) + [Quit(i, j)]
    else (if i + 1 < |p.hooks| then Up(p, i + 1, 0) else []) + [Marked(i)]
  }

  lemma Regroup(log: seq<Event>, e: Event, down: seq<Event>, batch: Event, up: seq<Event>, e': Event)
    ensures log + [e] + down + [batch] + up + [e'] == log + ([e] + down) + [batch] + (up + [e'])
  {
  }

  /** A success of honest hooks that call next once has one history: all the way in, the batch, all the way back. */
  lemma {:induction false} HonestTrace(p: Plan, i: nat, j: nat, s: State)
    requires ValidPlan(p) && ValidState(p, s) && AllHonest(p) && OnceAtMost(p) && i < |p.hooks| && j <= |p.hooks[i]|
    requires Mutate(p, i, j, s).1 == None
    ensures var s' := Mutate(p, i, j, s).0;
            s'.log == s.log + Down(p, i, j) + [Batch(s'.specs, true)] + Up(p, i, j)
    decreases |p.hooks| - i, |p.hooks[i]| - j
  {
    var s' := Mutate(p, i, j, s).0;
    if j < |p.hooks[i]| {
      HonestOnce(p, i, j, s);
      HonestTrace(p, i, j + 1, Edit(Log(s, Entered(i, j)), i, p.hooks[i][j].step(s.fields[i], []).fields));
      Regroup(s.log, Entered(i, j), Down(p, i, j + 1), Batch(s'.specs, true), Up(p, i, j + 1), Quit(i, j));
    } else if i + 1 < |p.hooks| {
      HonestTrace(p, i + 1, 0, Specify(p, i, s));
      Regroup(s.log, Checked(i), Down(p, i + 1, 0), Batch(s'.specs, true), Up(p, i + 1, 0), Marked(i));
    } else {
      Regroup(s.log, Checked(i), [], Batch(s'.specs, true), [], Marked(i));
      assert s.log + [Checked(i)] + [] == s.log + [Checked(i)];
    }
  }

  /** The history of a whole successful save with such hooks. */
  lemma HonestSave(p: Plan, fields: seq<Fields>)
    requires ValidPlan(p) && AllHonest(p) && OnceAtMost(p) && |fields| == |p.hooks| && SaveAll(p, fields).1 == None
    ensures |p.hooks| > 0 ==>
              SaveAll(p, fields).0.log == Down(p, 0, 0) + [Batch(SaveAll(p, fields).0.specs, true)] + Up(p, 0, 0)
  {
    if |p.hooks| > 0 {
      var s := Fresh(Defaulted(p, fields));
      HonestTrace(p, 0, 0, s);
      assert s.log + Down(p, 0, 0) == Down(p, 0, 0);
    }
  }

  predicate NoHooks(p: Plan) {
    forall i :: 0 <= i < |p.hooks| ==> p.hooks[i] == []
  }

  /** The first builder, from i on, whose check fails; the number of builders if none does. */
  function FirstFailing(p: Plan, i: nat, fields: seq<Fields>): (f: nat)
    requires i <= |p.hooks| == |fields|
    ensures i <= f <= |fields|
    ensures forall k :: i <= k < f ==> p.check(fields[k]) == None
    ensures f < |fields| ==> p.check(fields[f]).Some?
    decreases |p.hooks| - i
  {
    if i == |p.hooks| || p.check(fields[i]).Some? then i else FirstFailing(p, i + 1, fields)
  }

  function SpecsOf(fields: seq<Fields>): seq<Option<CreateSpec>> {
    seq(|fields|, k requires 0 <= k < |fields| => Some(CreateSpec(fields[k])))
  }

  function Checks(i: nat, n: nat): seq<Event>
    requires i <= n
  {
    seq(n - i, k requires 0 <= k < n - i => Checked(i + k))
  }

  function Marks(i: nat, n: nat): seq<Event>
    requires i <= n
  {
    seq(n - i, k requires 0 <= k < n - i => Marked(n - 1 - k))
  }

  lemma ChecksNext(log: seq<Event>, i: nat, n: nat)
    requires i < n
    ensures log + [Checked(i)] + Checks(i + 1, n) == log + Checks(i, n)
  {
  }

  lemma MarksNext(log: seq<Event>, i: nat, n: nat)
    requires i < n
    ensures log + Marks(i + 1, n) + [Marked(i)] == log + Marks(i, n)
  {
  }

  lemma SpecsNext(specs: seq<Option<CreateSpec>>, fields: seq<Fields>, i: nat)
    requires i < |specs| == |fields|
    ensures specs[i := Some(CreateSpec(fields[i]))][..i + 1] + SpecsOf(fields[i + 1..])
            == specs[..i] + SpecsOf(fields[i..])
  {
  }

  /** How the chain ends from builder i on: the first failing check's error, or the database's answer to one batch. */
  ghost predicate PlainOutcome(p: Plan, i: nat, s: State, r: (State, Err))
    requires ValidPlan(p) && ValidState(p, s) && i <= |p.hooks|
  {
    var f := FirstFailing(p, i, s.fields);
    if f < |p.hooks| then
      r.1 == p.check(s.fields[f]) && r.0.log == s.log + Checks(i, f + 1)
    else
      var specs := s.specs[..i] + SpecsOf(s.fields[i..]);
      var reply := p.reply(s.log + Checks(i, f), specs);
      && r.1 == (if reply.Inserted? then None else WrapReply(reply))
      && r.0.log == s.log + Checks(i, f) + [Batch(specs, reply.Inserted?)] + if reply.Inserted? then Marks(i, f) else []
  }

  lemma PlainBatch(p: Plan, s: State)
    requires ValidPlan(p) && ValidState(p, s)
    ensures PlainOutcome(p, |p.hooks|, s, RunBatch(p, s))
  {
    var n := |p.hooks|;
    assert s.specs[..n] + SpecsOf(s.fields[n..]) == s.specs && s.log + Checks(n, n) == s.log;
    assert forall log: seq<Event> :: log + Marks(n, n) == log && log + [] == log;
  }

  lemma PlainStep(p: Plan, i: nat, s: State, s2: State, err: Err)
    requires ValidPlan(p) && ValidState(p, s) && ValidState(p, s2) && i < |p.hooks| && p.check(s.fields[i]) == None
    requires PlainOutcome(p, i + 1, Specify(p, i, s), (s2, err))
    ensures PlainOutcome(p, i, s, if err.Some? then (s2, err) else (MarkDone(s2, i), None))
  {
    var n, f := |p.hooks|, FirstFailing(p, i, s.fields);
    if f < n {
      ChecksNext(s.log, i, f + 1);
    } else {
      SpecsNext(s.specs, s.fields, i);
      ChecksNext(s.log, i, n);
      var specs := s.specs[..i] + SpecsOf(s.fields[i..]);
      MarksNext(s.log + Checks(i, n) + [Batch(specs, true)], i, n);
    }
  }

  /**
   * Without hooks the whole history is determined: checks in builder order up to the first that fails, whose error is
   * returned; otherwise one batch, and if it is accepted, done marks from the last builder to the first.
   */
  lemma {:induction false} PlainTrace(p: Plan, i: nat, s: State)
    requires ValidPlan(p) && ValidState(p, s) && NoHooks(p) && i < |p.hooks|
    ensures PlainOutcome(p, i, s, Mutate(p, i, 0, s))
    decreases |p.hooks| - i
  {
    if p.check(s.fields[i]).Some? {
      assert Checks(i, i + 1) == [Checked(i)];
    } else {
      var s1 := Specify(p, i, s);
      if i + 1 < |p.hooks| {
        PlainTrace(p, i + 1, s1);
      } else {
        PlainBatch(p, s1);
      }
      PlainStep(p, i, s, Below(p, i, s1).0, Below(p, i, s1).1);
    }
  }

  /**
   * The same of a whole save, from the builders' mutations and empty slices. A batch that fails on a constraint makes
   * the save return a constraint error, and any other failure the database's.
   */
  lemma PlainSave(p: Plan, fields: seq<Fields>)
    requires ValidPlan(p) && NoHooks(p) && |fields| == |p.hooks| && p.prior == None
    ensures |p.hooks| > 0 ==>
              var (s, err) := SaveAll(p, fields);
              var (made, n) := (Defaulted(p, fields), |p.hooks|);
              var f := FirstFailing(p, 0, made);
              if f < n then err == p.check(made[f]) && s.log == Checks(0, f + 1)
              else
                var reply := p.reply(Checks(0, n), SpecsOf(made));
                && err == (if reply.Inserted? then None
                           else Some(if reply.constraint then Constraint(reply.message) else Database(reply.message)))
                && s.log == Checks(0, n) + [Batch(SpecsOf(made), reply.Inserted?)]
                            + if reply.Inserted? then Marks(0, n) else []
  {
    if |p.hooks| > 0 {
      var s := Fresh(Defaulted(p, fields));
      PlainTrace(p, 0, s);
      assert s.fields[0..] == s.fields && s.specs[..0] + SpecsOf(s.fields) == SpecsOf(s.fields);
      assert forall log: seq<Event> :: s.log + log == log;
    }
  }

  // ---------------------------------------------------------------- the save as the program runs it

  class AccountCreateBulk {
    const plan: Plan
    const fields: array<Fields>
    const specs: array<Option<CreateSpec>>
    const nodes: array<Option<Node>>
    const ids: array<Option<int>>
    const done: array<bool>
    var log: seq<Event>

    ghost predicate Valid()
      reads this
    {
      && ValidPlan(plan)
      && fields.Length == specs.Length == nodes.Length == ids.Length == done.Length == |plan.hooks|
    }

    /** The slices' contents and the history. */
    ghost function View(): State
      reads this, fields, specs, nodes, ids, done
    {
      State(fields[..], specs[..], nodes[..], ids[..], done[..], log)
    }

    /** The slices of a save over the builders' mutations. */
    constructor (plan: Plan, mutations: seq<Fields>)
      requires ValidPlan(plan) && |mutations| == |plan.hooks|
      ensures Valid() && this.plan == plan && View() == Fresh(mutations)
      ensures fresh(fields) && fresh(specs) && fresh(nodes) && fresh(ids) && fresh(done)
    {
      var n := |mutations|;
      this.plan := plan;
      fields := new Fields[n](i requires 0 <= i < n => mutations[i]);
      specs := new Option<CreateSpec>[n](_ => None);
      nodes := new Option<Node>[n](_ => None);
      ids := new Option<int>[n](_ => None);
      done := new bool[n](_ => false);
      log := [];
      new;
      assert fields[..] == mutations;
      assert specs[..] == Fresh(mutations).specs && nodes[..] == Fresh(mutations).nodes;
      assert ids[..] == Fresh(mutations).ids && done[..] == Fresh(mutations).done;
    }

    method Save() returns (err: Err)
      requires Valid() && View() == Fresh(View().fields)
      modifies this, fields, specs, nodes, ids, done
      ensures Valid() && (View(), err) == SaveAll(plan, old(View().fields))
    {
      ghost var given := View();
      if plan.prior.Some? {
        return plan.prior;
      }
      SetDefaults();
      assert View() == Fresh(Defaulted(plan, given.fields));
      err := None;
      if |plan.hooks| > 0 {
        err := InvokeFrom(0, 0);
      }
    }

    /** The first thing the save does for every builder. */
    method SetDefaults()
      requires Valid()
      modifies fields
      ensures fields[..] == Defaulted(plan, old(fields[..]))
    {
      ghost var given := fields[..];
      for i := 0 to fields.Length
        invariant forall k :: 0 <= k < i ==> fields[k] == plan.defaults(given[k])
        invariant forall k :: i <= k < fields.Length ==> fields[k] == given[k]
      {
        fields[i] := plan.defaults(fields[i]);
      }
    }

    /** Builder i's mutator wrapped in its hooks from the j-th on. */
    method InvokeFrom(i: nat, j: nat) returns (err: Err)
      requires Valid() && i < |plan.hooks| && j <= |plan.hooks[i]|
      modifies this, fields, specs, nodes, ids, done
      ensures Valid() && (View(), err) == Mutate(plan, i, j, old(View()))
      decreases |plan.hooks| - i, |plan.hooks[i]| - j
    {
      ghost var s := View();
      if j == |plan.hooks[i]| {
        err := Closure(i);
        return;
      }
      log := log + [Entered(i, j)];
      ghost var s1 := View();
      assert ValidHook(plan.hooks[i][j]);
      var errs: seq<Err> := [];
      var move := plan.hooks[i][j].step(fields[i], errs);
      while move.Call?
        invariant move == plan.hooks[i][j].step(fields[i], errs)
        invariant Play(plan, i, j, s1, []) == Play(plan, i, j, View(), errs)
        decreases Remaining(plan.hooks[i][j].limit, |errs|)
      {
        ghost var before := View();
        fields[i] := move.fields;
        assert View() == Edit(before, i, move.fields);
        var e := InvokeFrom(i, j + 1);
        errs := errs + [e];
        move := plan.hooks[i][j].step(fields[i], errs);
      }
      ghost var last := View();
      fields[i] := move.fields;
      log := log + [Quit(i, j)];
      assert View() == Log(Edit(last, i, move.fields), Quit(i, j));
      err := move.err;
    }

    /** The function the save builds for builder i. */
    method Closure(i: nat) returns (err: Err)
      requires Valid() && i < |plan.hooks|
      modifies this, fields, specs, nodes, ids, done
      ensures Valid() && (View(), err) == Mutate(plan, i, |plan.hooks[i]|, old(View()))
      decreases |plan.hooks| - i, 0, 0
    {
      ghost var s := View();
      log := log + [Checked(i)];
      var failure := plan.check(fields[i]);
      if failure.Some? {
        return failure;
      }
      nodes[i], specs[i], ids[i] := Some(Node(fields[i], 0)), Some(CreateSpec(fields[i])), None;
      assert View() == Specify(plan, i, s);
      if i < |plan.hooks| - 1 {
        err := InvokeFrom(i + 1, 0);
      } else {
        err := BatchCreate();
      }
      if err.Some? {
        return;
      }
      ghost var s1 := View();
      if ids[i].Some? && nodes[i].Some? {
        nodes[i] := Some(nodes[i].value.(id := ids[i].value));
      }
      done[i] := true;
      log := log + [Marked(i)];
      assert View() == MarkDone(s1, i);
    }

    /** The batch insert over all specs. */
    method BatchCreate() returns (err: Err)
      requires Valid()
      modifies this`log, ids
      ensures Valid() && (View(), err) == RunBatch(plan, old(View()))
    {
      ghost var s := View();
      var all := specs[..];
      var reply := plan.reply(log, all);
      match reply
      case Inserted(returned) =>
        forall k | 0 <= k < ids.Length {
          ids[k] := returned[k];
        }
        assert ids[..] == returned;
        log := log + [Batch(all, true)];
        err := None;
        assert View() == Log(s.(ids := returned), Batch(s.specs, true));
      case Failed(_, _) =>
        log := log + [Batch(all, false)];
        err := WrapReply(reply);
        assert View() == Log(s, Batch(s.specs, false));
    }
  }
}
