/** `AccountCreate`: the defaults and the check of one builder, and what they mean for a bulk save. */
module AccountCreate {
  import opened Wrappers
  import opened AccountFields
  import opened BulkCreate

  /**
   * Package account's variables. A default is present by its value; one whose function is nil is absent, and so is a
   * nil validator. The program's runtime import sets them all.
   */
  datatype Package = Package(defaults: Fields, validators: map<Column, Value -> bool>)

  predicate HasFunction(c: Column) {
    c == CreatedAt || c == UpdatedAt || c == Credentials || c == Extra
  }

  predicate HasConstant(c: Column) {
    || c == Concurrency || c == Priority || c == RateMultiplier || c == Status || c == AutoPauseOnExpired
    || c == Schedulable
    || c == QuotaDimension
  }

  /** The fields with a default. Only functions may be nil. */
  predicate HasDefault(c: Column) {
    HasFunction(c) || HasConstant(c)
  }

  ghost predicate Loaded(pkg: Package) {
    && (forall c: Column :: HasDefault(c) ==> c in pkg.defaults)
    && (forall c: Column :: Validated(c) && c != QuotaDimension ==> c in pkg.validators)
  }

  /** The mutation after one block of `defaults`. */
  function Set(pkg: Package, c: Column, f: Fields): Fields {
    if c !in f && c in pkg.defaults then f[c := pkg.defaults[c]] else f
  }

  predicate Uninitialized(pkg: Package, f: Fields, c: Column) {
    c !in f && c !in pkg.defaults
  }

  function WithNumbers(pkg: Package, f: Fields): Fields {
    Set(pkg, RateMultiplier, Set(pkg, Priority, Set(pkg, Concurrency, f)))
  }

  function WithConstants(pkg: Package, f: Fields): Fields {
    var f1 := WithNumbers(pkg, f);
    Set(pkg, QuotaDimension, Set(pkg, Schedulable, Set(pkg, AutoPauseOnExpired, Set(pkg, Status, f1))))
  }

  /** What `defaults` makes of a mutation; Some names the unset field whose default function is nil. */
  function WithDefaults(pkg: Package, f: Fields): (Fields, Option<Column>) {
    if Uninitialized(pkg, f, CreatedAt) then (f, Some(CreatedAt)) else
      var f1 := Set(pkg, CreatedAt, f);
      if Uninitialized(pkg, f1, UpdatedAt) then (f1, Some(UpdatedAt)) else
        var f2 := Set(pkg, UpdatedAt, f1);
        if Uninitialized(pkg, f2, Credentials) then (f2, Some(Credentials)) else
          var f3 := Set(pkg, Credentials, f2);
          if Uninitialized(pkg, f3, Extra) then (f3, Some(Extra)) else
            (WithConstants(pkg, Set(pkg, Extra, f3)), None)
  }

  // ---------------------------------------------------------------- check

  /** `Crash` is a call of a nil validator. */
  datatype Verdict = Good | Invalid(column: Column) | Crash(column: Column)

  const CheckOrder := [
    CreatedAt, UpdatedAt, Name, Platform, Type, Credentials, Extra, Concurrency, Priority, RateMultiplier, Status,
    AutoPauseOnExpired, Schedulable, SessionWindowStatus, QuotaDimension]

  predicate Validated(c: Column) {
    c == Name || c == Platform || c == Type || c == Status || c == SessionWindowStatus || c == QuotaDimension
  }

  /** The two checks of one field: it is set if it is required, and a set one passes its validator. */
  function FieldVerdict(pkg: Package, f: Fields, c: Column): Verdict {
    if c !in f then if c != SessionWindowStatus then Invalid(c) else Good
    else if !Validated(c) then Good
    else if c == QuotaDimension then if f[c] == Text("global") || f[c] == Text("spark") then Good else Invalid(c)
    else if c !in pkg.validators then Crash(c)
    else if pkg.validators[c](f[c]) then Good else Invalid(c)
  }

  function CheckFrom(pkg: Package, columns: seq<Column>, f: Fields): Verdict {
    if columns == [] then Good
    else if FieldVerdict(pkg, f, columns[0]) != Good then FieldVerdict(pkg, f, columns[0])
    else CheckFrom(pkg, columns[1..], f)
  }

  function Check(pkg: Package, f: Fields): Verdict {
    CheckFrom(pkg, CheckOrder, f)
  }

  // ---------------------------------------------------------------- laws of one builder

  lemma NumbersKeep(pkg: Package, f: Fields, c: Column)
    ensures Cell(WithNumbers(pkg, f), c)
         == if c !in f && (c == Concurrency || c == Priority || c == RateMultiplier) then Cell(pkg.defaults, c)
            else Cell(f, c)
  {
  }

  lemma LastKeep(pkg: Package, f: Fields, c: Column)
    ensures Cell(Set(pkg, QuotaDimension, Set(pkg, Schedulable, Set(pkg, AutoPauseOnExpired, Set(pkg, Status, f)))), c)
         == if c !in f && (c == Status || c == AutoPauseOnExpired || c == Schedulable || c == QuotaDimension)
            then Cell(pkg.defaults, c) else Cell(f, c)
  {
  }

  lemma ConstantsKeep(pkg: Package, f: Fields, c: Column)
    ensures Cell(WithConstants(pkg, f), c) == if c !in f && HasConstant(c) then Cell(pkg.defaults, c) else Cell(f, c)
  {
    NumbersKeep(pkg, f, c);
    LastKeep(pkg, WithNumbers(pkg, f), c);
  }

  lemma FunctionsKeep(pkg: Package, f: Fields, c: Column)
    ensures Cell(Set(pkg, Extra, Set(pkg, Credentials, Set(pkg, UpdatedAt, Set(pkg, CreatedAt, f)))), c)
         == if c !in f && HasFunction(c) then Cell(pkg.defaults, c) else Cell(f, c)
  {
  }

  /** Defaults fail exactly when one of the four fields with a default function is unset and its function nil. */
  lemma DefaultsFail(pkg: Package, f: Fields)
    ensures WithDefaults(pkg, f).1 == None <==> forall c: Column :: HasFunction(c) ==> !Uninitialized(pkg, f, c)
  {
    var err := WithDefaults(pkg, f).1;
    if err.Some? {
      assert Uninitialized(pkg, f, err.value);
    } else {
      assert !Uninitialized(pkg, f, CreatedAt) && !Uninitialized(pkg, f, UpdatedAt);
    }
  }

  /**
   * Defaults never overwrite and write nothing but defaults. When they fail, the field they name stays unset; when
   * they succeed, every unset field with a default gets it.
   */
  lemma DefaultsKeep(pkg: Package, f: Fields, c: Column)
    ensures var (g, err) := WithDefaults(pkg, f);
            && (c in f ==> Cell(g, c) == Cell(f, c))
            && (c in g && c !in f ==> HasDefault(c) && Cell(g, c) == Cell(pkg.defaults, c))
            && (err == None && HasDefault(c) && c !in f ==> Cell(g, c) == Cell(pkg.defaults, c))
            && (err.Some? ==> HasFunction(err.value) && err.value !in g)
  {
    var g := Set(pkg, Extra, Set(pkg, Credentials, Set(pkg, UpdatedAt, Set(pkg, CreatedAt, f))));
    if WithDefaults(pkg, f).1 == None {
      FunctionsKeep(pkg, f, c);
      ConstantsKeep(pkg, g, c);
    }
  }

  /** The verdict is that of the first field, in check order, that is not good; and Good if there is none. */
  lemma {:induction false} FirstBadField(pkg: Package, columns: seq<Column>, f: Fields)
    ensures CheckFrom(pkg, columns, f) == Good
            <==> forall k :: 0 <= k < |columns| ==> FieldVerdict(pkg, f, columns[k]) == Good
    ensures CheckFrom(pkg, columns, f) != Good ==>
              exists k :: 0 <= k < |columns| && CheckFrom(pkg, columns, f) == FieldVerdict(pkg, f, columns[k])
                && forall n :: 0 <= n < k ==> FieldVerdict(pkg, f, columns[n]) == Good
  {
    if columns != [] && FieldVerdict(pkg, f, columns[0]) == Good {
      var rest := columns[1..];
      FirstBadField(pkg, rest, f);
      if CheckFrom(pkg, rest, f) != Good {
        var k :| 0 <= k < |rest| && CheckFrom(pkg, rest, f) == FieldVerdict(pkg, f, rest[k])
          && forall n :: 0 <= n < k ==> FieldVerdict(pkg, f, rest[n]) == Good;
        assert columns[k + 1] == rest[k];
        assert forall n :: 0 < n < k + 1 ==> columns[n] == rest[n - 1];
      } else {
        assert forall n :: 0 < n < |columns| ==> columns[n] == rest[n - 1];
      }
    }
  }

  lemma DefaultsAreChecked(c: Column)
    requires HasDefault(c)
    ensures c in CheckOrder && c != SessionWindowStatus
  {
    var at := match c
      case CreatedAt => 0 case UpdatedAt => 1 case Credentials => 5 case Extra => 6 case Concurrency => 7
      case Priority => 8 case RateMultiplier => 9 case Status => 10 case AutoPauseOnExpired => 11 case Schedulable => 12
      case _ => 14;
    assert CheckOrder[at] == c;
  }

  /** A check of a mutation that lacks a field with a default does not pass. */
  lemma UnsetFailsCheck(pkg: Package, c: Column, f: Fields)
    requires HasDefault(c) && c !in f
    ensures Check(pkg, f) != Good
  {
    DefaultsAreChecked(c);
    var columns := CheckOrder;
    var k :| 0 <= k < |columns| && columns[k] == c;
    FirstBadField(pkg, columns, f);
    assert FieldVerdict(pkg, f, columns[k]) == Invalid(c);
  }

  /** Discarding the error of `defaults` loses nothing: the check of the same mutation then fails as well. */
  lemma FailedDefaultsFailCheck(pkg: Package, f: Fields)
    requires WithDefaults(pkg, f).1.Some?
    ensures Check(pkg, WithDefaults(pkg, f).0) != Good
  {
    var (g, err) := WithDefaults(pkg, f);
    DefaultsKeep(pkg, f, err.value);
    UnsetFailsCheck(pkg, err.value, g);
  }

  /** With the runtime's validators in place a check ends in a verdict on a field, never in a crash. */
  lemma LoadedNeverCrashes(pkg: Package, f: Fields)
    requires Loaded(pkg)
    ensures !Check(pkg, f).Crash?
  {
    FirstBadField(pkg, CheckOrder, f);
  }

  // ---------------------------------------------------------------- the same, field by field

  /** The validator of a set field is there and accepts its value. */
  predicate Accepted(pkg: Package, f: Fields, c: Column)
    requires c in f
  {
    c in pkg.validators && pkg.validators[c](f[c])
  }

  predicate IsRequired(c: Column) {
    match c
    case CreatedAt | UpdatedAt | Name | Platform | Type | Credentials | Extra | Concurrency | Priority => true
    case RateMultiplier | Status | AutoPauseOnExpired | Schedulable | QuotaDimension => true
    case _ => false
  }

  predicate HasValidator(c: Column) {
    c == Name || c == Platform || c == Type || c == Status || c == SessionWindowStatus
  }

  /** Every required field is set, every set field that is validated is accepted, and the quota dimension is known. */
  ghost predicate Acceptable(pkg: Package, f: Fields) {
    && (forall c: Column :: IsRequired(c) ==> c in f)
    && (forall c: Column :: HasValidator(c) && c in f ==> Accepted(pkg, f, c))
    && (f[QuotaDimension] == Text("global") || f[QuotaDimension] == Text("spark"))
  }

  /** Where `check` comes to a field; it has no block for a field at 15. */
  function BlockOf(c: Column): nat {
    match c
    case CreatedAt => 0 case UpdatedAt => 1 case Name => 2 case Platform => 3 case Type => 4 case Credentials => 5
    case Extra => 6 case Concurrency => 7 case Priority => 8 case RateMultiplier => 9 case Status => 10
    case AutoPauseOnExpired => 11 case Schedulable => 12 case SessionWindowStatus => 13 case QuotaDimension => 14
    case _ => 15
  }

  /** What is wrong with a field: it is required and unset, or set and refused. */
  predicate Bad(pkg: Package, f: Fields, c: Column) {
    if c !in f then c != SessionWindowStatus
    else if c == QuotaDimension then f[c] != Text("global") && f[c] != Text("spark")
    else HasValidator(c) && !Accepted(pkg, f, c)
  }

  lemma BlockListed(c: Column)
    requires BlockOf(c) < 15
    ensures BlockOf(c) < |CheckOrder| && CheckOrder[BlockOf(c)] == c
  {
  }

  lemma ListedBlock(k: nat)
    requires k < |CheckOrder|
    ensures BlockOf(CheckOrder[k]) == k < 15
  {
  }

  lemma VerdictBad(pkg: Package, f: Fields, c: Column)
    ensures FieldVerdict(pkg, f, c) == Good <==> !Bad(pkg, f, c)
    ensures Bad(pkg, f, c) ==> FieldVerdict(pkg, f, c).column == c
  {
  }

  predicate QuotaKnown(f: Fields) {
    QuotaDimension in f && (f[QuotaDimension] == Text("global") || f[QuotaDimension] == Text("spark"))
  }

  lemma Blocks(c: Column)
    ensures BlockOf(c) < 15 <==> IsRequired(c) || c == SessionWindowStatus
  {
  }

  lemma NotBadIff(pkg: Package, f: Fields, c: Column)
    ensures (BlockOf(c) < 15 ==> !Bad(pkg, f, c)) <==>
              && (IsRequired(c) ==> c in f)
              && (HasValidator(c) && c in f ==> Accepted(pkg, f, c))
              && (c == QuotaDimension ==> QuotaKnown(f))
  {
    Blocks(c);
    assert HasValidator(c) ==> IsRequired(c) || c == SessionWindowStatus;
  }

  lemma NoneBad(pkg: Package, f: Fields)
    ensures Acceptable(pkg, f) <==> forall c: Column :: BlockOf(c) < 15 ==> !Bad(pkg, f, c)
  {
    if forall c: Column :: BlockOf(c) < 15 ==> !Bad(pkg, f, c) {
      forall c: Column
        ensures IsRequired(c) ==> c in f
        ensures HasValidator(c) && c in f ==> Accepted(pkg, f, c)
      {
        NotBadIff(pkg, f, c);
      }
      NotBadIff(pkg, f, QuotaDimension);
    }
    if Acceptable(pkg, f) {
      assert IsRequired(QuotaDimension);
      forall c: Column | BlockOf(c) < 15 ensures !Bad(pkg, f, c) {
        NotBadIff(pkg, f, c);
      }
    }
  }

  /** A check passes exactly when all required fields are set and all validated ones accepted. */
  lemma CheckIff(pkg: Package, f: Fields)
    ensures Check(pkg, f) == Good <==> Acceptable(pkg, f)
  {
    FirstBadField(pkg, CheckOrder, f);
    NoneBad(pkg, f);
    if Check(pkg, f) == Good {
      forall c: Column | BlockOf(c) < 15 ensures !Bad(pkg, f, c) {
        BlockListed(c);
        VerdictBad(pkg, f, CheckOrder[BlockOf(c)]);
      }
    }
    if Acceptable(pkg, f) {
      forall k | 0 <= k < |CheckOrder| ensures FieldVerdict(pkg, f, CheckOrder[k]) == Good {
        ListedBlock(k);
        VerdictBad(pkg, f, CheckOrder[k]);
      }
    }
  }

  /** A check that does not pass names the bad field that `check` comes to first. */
  lemma CheckNames(pkg: Package, f: Fields)
    requires Check(pkg, f) != Good
    ensures var c := Check(pkg, f).column;
            && BlockOf(c) < 15 && Bad(pkg, f, c)
            && (Check(pkg, f).Crash? <==> c in f && c != QuotaDimension && c !in pkg.validators)
            && forall d: Column :: BlockOf(d) < BlockOf(c) ==> !Bad(pkg, f, d)
  {
    FirstBadField(pkg, CheckOrder, f);
    var columns := CheckOrder;
    var k :| 0 <= k < |columns| && Check(pkg, f) == FieldVerdict(pkg, f, columns[k])
      && forall n :: 0 <= n < k ==> FieldVerdict(pkg, f, columns[n]) == Good;
    ListedBlock(k);
    VerdictBad(pkg, f, columns[k]);
    forall d: Column | BlockOf(d) < k ensures !Bad(pkg, f, d) {
      BlockListed(d);
      VerdictBad(pkg, f, d);
    }
  }

  /** Which fields `defaults` fills, and with what; every other field stays as it was. */
  lemma DefaultsFill(pkg: Package, f: Fields, c: Column)
    requires WithDefaults(pkg, f).1 == None
    ensures Cell(WithDefaults(pkg, f).0, c)
            == if c !in f
                  && c in {CreatedAt, UpdatedAt, Credentials, Extra, Concurrency, Priority, RateMultiplier, Status,
                           AutoPauseOnExpired, Schedulable, QuotaDimension}
               then Cell(pkg.defaults, c) else Cell(f, c)
  {
    DefaultsKeep(pkg, f, c);
  }

  /** The field that stops `defaults` is the first of the four with a function that is unset and has none. */
  lemma DefaultsStop(pkg: Package, f: Fields)
    ensures var stuck := (c: Column) => c !in f && c !in pkg.defaults;
            WithDefaults(pkg, f).1
            == if stuck(CreatedAt) then Some(CreatedAt) else if stuck(UpdatedAt) then Some(UpdatedAt)
               else if stuck(Credentials) then Some(Credentials) else if stuck(Extra) then Some(Extra) else None
  {
  }

  // ---------------------------------------------------------------- a bulk save of accounts

  /** The plan runs these defaults and this check. A check that crashes is not one that passes. */
  ghost predicate SavesAccounts(p: Plan, pkg: Package) {
    && ValidPlan(p)
    && forall f :: p.defaults(f) == WithDefaults(pkg, f).0 && (p.check(f) == None <==> Check(pkg, f) == Good)
  }

  ghost predicate CompleteSpec(pkg: Package, spec: Option<CreateSpec>) {
    spec.Some? && Acceptable(pkg, spec.value.fields)
  }

  /** If it is a batch, it has n specs, all complete. */
  ghost predicate CompleteBatch(pkg: Package, n: nat, e: Event) {
    e.Batch? ==> |e.specs| == n && forall k :: 0 <= k < n ==> CompleteSpec(pkg, e.specs[k])
  }

  /**
   * Whatever the hooks do, every batch a bulk save submits has a complete spec for every builder, although the save
   * discards the error of every `defaults`.
   */
  lemma SubmittedSpecsComplete(p: Plan, pkg: Package, fields: seq<Fields>)
    requires SavesAccounts(p, pkg) && |fields| == |p.hooks|
    ensures forall n :: 0 <= n < |SaveAll(p, fields).0.log| ==>
              CompleteBatch(pkg, |fields|, SaveAll(p, fields).0.log[n])
  {
    SaveSubmitsChecked(p, fields);
    var log := SaveAll(p, fields).0.log;
    forall n | 0 <= n < |log| ensures CompleteBatch(pkg, |fields|, log[n]) {
      assert CheckedBatch(p, log[n]);
      if log[n].Batch? {
        var specs := log[n].specs;
        forall k | 0 <= k < |specs| ensures CompleteSpec(pkg, specs[k]) {
          assert CheckedSpec(p, specs[k]);
          CheckIff(pkg, specs[k].value.fields);
        }
      }
    }
  }

  /**
   * A builder whose `defaults` failed stops the whole save, unless one of its hooks sets the field that was left unset.
   */
  lemma FailedDefaultsStopSave(p: Plan, pkg: Package, fields: seq<Fields>, k: nat)
    requires SavesAccounts(p, pkg) && k < |fields| == |p.hooks| && WithDefaults(pkg, fields[k]).1.Some?
    requires forall j, f, errs :: 0 <= j < |p.hooks[k]| && WithDefaults(pkg, fields[k]).1.value !in f ==>
               WithDefaults(pkg, fields[k]).1.value !in p.hooks[k][j].step(f, errs).fields
    ensures Batches(SaveAll(p, fields).0.log) == 0
  {
    if p.prior == None {
      var c := WithDefaults(pkg, fields[k]).1.value;
      DefaultsKeep(pkg, fields[k], c);
      var bad := (f: Fields) => c !in f;
      forall f | bad(f) ensures p.check(f).Some? {
        UnsetFailsCheck(pkg, c, f);
      }
      forall j | 0 <= j < |p.hooks[k]| ensures Keeps(p.hooks[k][j], bad) {
      }
      StuckBlocks(p, k, bad, 0, 0, Fresh(Defaulted(p, fields)));
    }
  }

  // ---------------------------------------------------------------- the builder

  class AccountCreate {
    const pkg: Package
    var mutation: Fields

    constructor (pkg: Package, mutation: Fields)
      ensures this.pkg == pkg && this.mutation == mutation
    {
      this.pkg, this.mutation := pkg, mutation;
    }

    /** One block of `defaults`. */
    method SetDefault(c: Column) returns (ok: bool)
      modifies this
      ensures ok == !Uninitialized(pkg, old(mutation), c) && mutation == Set(pkg, c, old(mutation))
    {
      ok := true;
      if c !in mutation {
        if c !in pkg.defaults {
          return false;
        }
        mutation := mutation[c := pkg.defaults[c]];
      }
    }

    /** Sets the defaults of the mutation. */
    method Defaults() returns (err: Option<Column>)
      modifies this
      ensures (mutation, err) == WithDefaults(pkg, old(mutation))
    {
      var ok := SetDefault(CreatedAt);
      if !ok { return Some(CreatedAt); }
      ok := SetDefault(UpdatedAt);
      if !ok { return Some(UpdatedAt); }
      ok := SetDefault(Credentials);
      if !ok { return Some(Credentials); }
      ok := SetDefault(Extra);
      if !ok { return Some(Extra); }
      SetConstants();
      err := None;
    }

    method SetConstants()
      modifies this
      ensures mutation == WithConstants(pkg, old(mutation))
    {
      var ok := SetDefault(Concurrency);
      ok := SetDefault(Priority);
      ok := SetDefault(RateMultiplier);
      ok := SetDefault(Status);
      ok := SetDefault(AutoPauseOnExpired);
      ok := SetDefault(Schedulable);
      ok := SetDefault(QuotaDimension);
    }
  }
}
