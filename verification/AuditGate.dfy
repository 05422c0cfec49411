/** The verdict of the audit tool: index the exceptions, check every finding once, exit 0 or 1. */
module AuditGate {
  import opened Wrappers
  import opened Sequences
  import opened ExceptionFile
  import opened AuditReport

  type Key = (string, string)

  /** What the index keeps of an exception. */
  datatype Rule = Rule(severity: string, expires: int)

  datatype GateError =
    | Incomplete(at: Record)
    | BadDate(at: Record)
    | EmptyKey
    | Duplicate(key: Key)
    | NoAdvisory(name: Json, severity: string)
    | SeverityMismatch(key: Key, severity: string, expected: string)

  // ---------------------------------------------------------------- exceptions

  const RequiredFields := ["package", "advisory", "severity", "mitigation", "expires_on"]

  function Field(r: Record, name: string): string {
    if name in r then r[name] else ""
  }

  predicate HasRequiredFields(r: Record) {
    forall k :: 0 <= k < |RequiredFields| ==> Field(r, RequiredFields[k]) != ""
  }

  function KeyOf(py: Python, r: Record): Key {
    (Strip(Field(r, "package")), py.lower(Strip(Field(r, "advisory"))))
  }

  function ReadRule(py: Python, r: Record): Result<Rule, GateError> {
    if !HasRequiredFields(r) then Err(Incomplete(r))
    else if py.isoDate(Field(r, "expires_on")) == None then Err(BadDate(r))
    else if KeyOf(py, r).0 == "" || KeyOf(py, r).1 == "" then Err(EmptyKey)
    else Ok(Rule(py.lower(Strip(Field(r, "severity"))), py.isoDate(Field(r, "expires_on")).value))
  }

  datatype Indexed = Indexed(rules: map<Key, Rule>, errors: seq<GateError>)

  /** The index after reading the records in order: the first record of a key is kept, later ones are errors. */
  function Index(py: Python, rs: seq<Record>): Indexed {
    if rs == [] then Indexed(map[], []) else
      var before, r := Index(py, rs[..|rs| - 1]), rs[|rs| - 1];
      match ReadRule(py, r)
      case Err(e) => before.(errors := before.errors + [e])
      case Ok(rule) =>
        var key := KeyOf(py, r);
        if key in before.rules then before.(errors := before.errors + [Duplicate(key)])
        else before.(rules := before.rules[key := rule])
  }

  method BuildIndex(py: Python, rs: seq<Record>) returns (rules: map<Key, Rule>, errors: seq<GateError>)
    ensures Indexed(rules, errors) == Index(py, rs)
  {
    rules, errors := map[], [];
    for i := 0 to |rs|
      invariant Indexed(rules, errors) == Index(py, rs[..i])
    {
      assert rs[..i + 1][..i] == rs[..i];
      var r := rs[i];
      if exists k :: 0 <= k < |RequiredFields| && Field(r, RequiredFields[k]) == "" {
        errors := errors + [Incomplete(r)];
        continue;
      }
      var severity, key := py.lower(Strip(Field(r, "severity"))), KeyOf(py, r);
      var date := py.isoDate(Field(r, "expires_on"));
      if date == None {
        errors := errors + [BadDate(r)];
        continue;
      }
      if key.0 == "" || key.1 == "" {
        errors := errors + [EmptyKey];
        continue;
      }
      if key in rules {
        errors := errors + [Duplicate(key)];
        continue;
      }
      rules := rules[key := Rule(severity, date.value)];
    }
    assert rs[..|rs|] == rs;
  }

  // ---------------------------------------------------------------- findings

  /** A missing or empty severity counts as the empty text; a truthy value that is no string cannot be stripped. */
  function SeverityOf(py: Python, f: Finding): Result<string, Crash> {
    if !Truthy(f.severity) then Ok(py.lower(""))
    else if f.severity.Str? then Ok(py.lower(Strip(f.severity.s)))
    else Err(Crash)
  }

  /** A severity that cannot be stripped. */
  predicate BadSeverity(f: Finding) {
    Truthy(f.severity) && !f.severity.Str?
  }

  predicate High(severity: string) {
    severity == "high" || severity == "critical"
  }

  function Normal(py: Python, v: Json): string {
    if v.Null? then "" else Strip(Text(py, v))
  }

  function FindingKey(py: Python, f: Finding): Key {
    (Normal(py, f.name), if f.advisory.Null? then "" else py.lower(Normal(py, f.advisory)))
  }

  /** The loop's variables. `missing` and `expired` hold the findings reported under those headings. */
  datatype Tally = Tally(seen: set<Key>, errors: seq<GateError>, missing: seq<Finding>, expired: seq<Finding>)

  const Empty := Tally({}, [], [], [])

  predicate Clean(t: Tally) {
    t.errors == [] && t.missing == [] && t.expired == []
  }

  function Judge(py: Python, rules: map<Key, Rule>, today: int, t: Tally, f: Finding): Result<Tally, Crash> {
    match SeverityOf(py, f)
    case Err(e) => Err(e)
    case Ok(sev) =>
      var key := FindingKey(py, f);
      if !High(sev) || !Truthy(f.name) then Ok(t)
      else if key.1 == "" then Ok(t.(errors := t.errors + [NoAdvisory(f.name, sev)]))
      else if key in t.seen then Ok(t)
      else if key !in rules then Ok(t.(seen := t.seen + {key}, missing := t.missing + [f]))
      else
        var rule := rules[key];
        Ok(Tally(t.seen + {key},
                 if rule.severity != "" && rule.severity != sev
                 then t.errors + [SeverityMismatch(key, sev, rule.severity)] else t.errors,
                 t.missing,
                 if rule.expires < today then t.expired + [f] else t.expired))
  }

  function Check(py: Python, rules: map<Key, Rule>, today: int, fs: seq<Finding>): Result<Tally, Crash> {
    if fs == [] then Ok(Empty) else
      match Check(py, rules, today, fs[..|fs| - 1])
      case Err(e) => Err(e)
      case Ok(t) => Judge(py, rules, today, t, fs[|fs| - 1])
  }

  method CheckFindings(py: Python, rules: map<Key, Rule>, today: int, fs: seq<Finding>)
    returns (r: Result<Tally, Crash>)
    ensures r == Check(py, rules, today, fs)
  {
    var seen: set<Key> := {};
    var errors: seq<GateError>, missing: seq<Finding>, expired: seq<Finding> := [], [], [];
    for i := 0 to |fs|
      invariant Check(py, rules, today, fs[..i]) == Ok(Tally(seen, errors, missing, expired))
    {
      var f := fs[i];
      CheckNext(py, rules, today, fs, i);
      var sev := SeverityOf(py, f);
      if sev.Err? {
        CheckStaysCrashed(py, rules, today, fs[..i + 1], fs);
        return Err(Check(py, rules, today, fs).error);
      }
      if !High(sev.value) || !Truthy(f.name) {
        continue;
      }
      var key := FindingKey(py, f);
      if key.1 == "" {
        errors := errors + [NoAdvisory(f.name, sev.value)];
        continue;
      }
      if key in seen {
        continue;
      }
      seen := seen + {key};
      if key !in rules {
        missing := missing + [f];
        continue;
      }
      var rule := rules[key];
      if rule.severity != "" && rule.severity != sev.value {
        errors := errors + [SeverityMismatch(key, sev.value, rule.severity)];
      }
      if rule.expires < today {
        expired := expired + [f];
      }
    }
    assert fs[..|fs|] == fs;
    r := Ok(Tally(seen, errors, missing, expired));
  }

  lemma CheckNext(py: Python, rules: map<Key, Rule>, today: int, fs: seq<Finding>, i: nat)
    requires i < |fs| && Check(py, rules, today, fs[..i]).Ok?
    ensures Check(py, rules, today, fs[..i + 1])
            == Judge(py, rules, today, Check(py, rules, today, fs[..i]).value, fs[i])
  {
    assert fs[..i + 1][..i] == fs[..i];
  }

  lemma {:induction false} CheckStaysCrashed(py: Python, rules: map<Key, Rule>, today: int, fs: seq<Finding>,
                                             more: seq<Finding>)
    requires fs <= more && Check(py, rules, today, fs).Err?
    ensures Check(py, rules, today, more).Err?
    decreases |more|
  {
    if fs != more {
      assert fs <= more[..|more| - 1];
      CheckStaysCrashed(py, rules, today, fs, more[..|more| - 1]);
    }
  }

  /** The pass over the findings crashes exactly on a severity that is truthy and no string. */
  lemma {:induction false} CheckCrashes(py: Python, rules: map<Key, Rule>, today: int, fs: seq<Finding>)
    ensures Check(py, rules, today, fs).Err? <==> exists i :: 0 <= i < |fs| && BadSeverity(fs[i])
  {
    if fs != [] {
      CheckCrashes(py, rules, today, fs[..|fs| - 1]);
      BadSeverityLast(fs);
    }
  }

  lemma BadSeverityLast(fs: seq<Finding>)
    requires fs != []
    ensures var n := |fs| - 1;
            (exists i :: 0 <= i < |fs| && BadSeverity(fs[i]))
            <==> (exists i :: 0 <= i < n && BadSeverity(fs[..n][i])) || BadSeverity(fs[n])
  {
    var n := |fs| - 1;
    assert forall i :: 0 <= i < n ==> fs[i] == fs[..n][i];
  }

  // ---------------------------------------------------------------- the tool

  /** How a run ends. An uncaught Python error also makes the process exit with a non-zero status. */
  datatype Ending = Validated | Rejected(errors: seq<GateError>, missing: seq<Finding>, expired: seq<Finding>) | Aborted

  /** An uncaught error ends the run: in the exception list, in the report's structure, or in a finding's severity. */
  predicate Aborts(parsed: Result<seq<Record>, ParseError>, found: Result<seq<Finding>, Crash>) {
    || parsed.Err?
    || found.Err?
    || exists i :: 0 <= i < |found.value| && BadSeverity(found.value[i])
  }

  method RunGate(py: Python, exceptionsText: string, audit: Json, today: int) returns (ending: Ending)
    ensures ending.Aborted? <==> Aborts(Parse(exceptionsText), Findings(py, audit))
    ensures ending.Validated? <==> Passes(py, Parse(exceptionsText), Findings(py, audit), today)
    ensures ending.Rejected? ==>
              && Parse(exceptionsText).Ok? && Findings(py, audit).Ok?
              && var index := Index(py, Parse(exceptionsText).value);
              && var tally := Check(py, index.rules, today, Findings(py, audit).value);
              && tally.Ok?
              && ending == Rejected(index.errors + tally.value.errors, tally.value.missing, tally.value.expired)
  {
    var parsed := ParseExceptions(exceptionsText);
    if parsed.Err? {
      return Aborted;
    }
    var rules, errors := BuildIndex(py, parsed.value);
    var found := IterVulns(py, audit);
    if found.Err? {
      return Aborted;
    }
    var tally := CheckFindings(py, rules, today, found.value);
    ExactVerdict(py, parsed.value, found.value, today);
    CheckCrashes(py, rules, today, found.value);
    if tally.Err? {
      return Aborted;
    }
    errors := errors + tally.value.errors;
    if errors != [] || tally.value.missing != [] || tally.value.expired != [] {
      return Rejected(errors, tally.value.missing, tally.value.expired);
    }
    ending := Validated;
  }

  // ---------------------------------------------------------------- what a pass means

  /** A finding the gate must account for. */
  predicate Serious(py: Python, f: Finding) {
    SeverityOf(py, f).Ok? && High(SeverityOf(py, f).value) && Truthy(f.name)
  }

  predicate FirstOfKey(py: Python, fs: seq<Finding>, i: nat)
    requires i < |fs|
  {
    forall j :: 0 <= j < i && Serious(py, fs[j]) ==> FindingKey(py, fs[j]) != FindingKey(py, fs[i])
  }

  predicate GoodExceptions(py: Python, rs: seq<Record>) {
    && (forall i :: 0 <= i < |rs| ==> ReadRule(py, rs[i]).Ok?)
    && (forall i, j :: 0 <= i < j < |rs| ==> KeyOf(py, rs[i]) != KeyOf(py, rs[j]))
  }

  /** Record r is a valid exception for this key that has not run out. */
  predicate Covers(py: Python, r: Record, key: Key, today: int) {
    ReadRule(py, r).Ok? && KeyOf(py, r) == key && today <= ReadRule(py, r).value.expires
  }

  predicate Covered(py: Python, rs: seq<Record>, f: Finding, today: int) {
    FindingKey(py, f).1 != "" && exists i :: 0 <= i < |rs| && Covers(py, rs[i], FindingKey(py, f), today)
  }

  /** No exception for the finding's key names another severity. */
  predicate SeverityAgrees(py: Python, rs: seq<Record>, f: Finding) {
    forall i :: 0 <= i < |rs| && ReadRule(py, rs[i]).Ok? && KeyOf(py, rs[i]) == FindingKey(py, f) ==>
      var named := ReadRule(py, rs[i]).value.severity;
      named == "" || Ok(named) == SeverityOf(py, f)
  }

  predicate Accounted(py: Python, rs: seq<Record>, fs: seq<Finding>, today: int, i: nat)
    requires i < |fs|
  {
    && SeverityOf(py, fs[i]).Ok?
    && (Serious(py, fs[i]) ==>
          && Covered(py, rs, fs[i], today)
          && (FirstOfKey(py, fs, i) ==> SeverityAgrees(py, rs, fs[i])))
  }

  predicate Accepts(py: Python, rs: seq<Record>, fs: seq<Finding>, today: int) {
    GoodExceptions(py, rs) && forall i :: 0 <= i < |fs| ==> Accounted(py, rs, fs, today, i)
  }

  predicate Passes(py: Python, parsed: Result<seq<Record>, ParseError>, found: Result<seq<Finding>, Crash>,
                   today: int)
  {
    parsed.Ok? && found.Ok? && Accepts(py, parsed.value, found.value, today)
  }

  // ---------------------------------------------------------------- proof of the verdict

  /** Every valid record's key is in the index. */
  lemma {:induction false} IndexHasKeys(py: Python, rs: seq<Record>)
    ensures forall i :: 0 <= i < |rs| && ReadRule(py, rs[i]).Ok? ==> KeyOf(py, rs[i]) in Index(py, rs).rules
  {
    if rs != [] {
      var front := rs[..|rs| - 1];
      IndexHasKeys(py, front);
      assert forall i :: 0 <= i < |front| ==> front[i] == rs[i];
    }
  }

  /** Every rule in the index was read from some record of its key. */
  lemma {:induction false} IndexSource(py: Python, rs: seq<Record>, key: Key) returns (i: nat)
    requires key in Index(py, rs).rules
    ensures i < |rs| && ReadRule(py, rs[i]) == Ok(Index(py, rs).rules[key]) && KeyOf(py, rs[i]) == key
  {
    var front := rs[..|rs| - 1];
    if key in Index(py, front).rules {
      i := IndexSource(py, front, key);
    } else {
      i := |rs| - 1;
    }
  }

  lemma GoodExceptionsLast(py: Python, rs: seq<Record>, r: Record)
    ensures GoodExceptions(py, rs + [r]) <==>
              && GoodExceptions(py, rs)
              && ReadRule(py, r).Ok?
              && forall i :: 0 <= i < |rs| ==> KeyOf(py, rs[i]) != KeyOf(py, r)
  {
    var all := rs + [r];
    assert all[|rs|] == r && forall i :: 0 <= i < |rs| ==> all[i] == rs[i];
  }

  lemma KeyFree(py: Python, rs: seq<Record>, key: Key)
    requires GoodExceptions(py, rs)
    ensures key !in Index(py, rs).rules <==> forall i :: 0 <= i < |rs| ==> KeyOf(py, rs[i]) != key
  {
    IndexHasKeys(py, rs);
    if key in Index(py, rs).rules {
      var i := IndexSource(py, rs, key);
    }
  }

  /** Building the index reports nothing exactly when all records are valid and their keys distinct. */
  lemma {:induction false} IndexErrors(py: Python, rs: seq<Record>)
    ensures Index(py, rs).errors == [] <==> GoodExceptions(py, rs)
  {
    if rs != [] {
      var front, r := rs[..|rs| - 1], rs[|rs| - 1];
      FrontLast(rs);
      IndexErrors(py, front);
      GoodExceptionsLast(py, front, r);
      if GoodExceptions(py, front) {
        KeyFree(py, front, KeyOf(py, r));
      }
    }
  }

  /** The finding passes the index: found, not run out, severity not contradicted when the key is new. */
  predicate Fits(py: Python, rules: map<Key, Rule>, today: int, f: Finding) {
    FindingKey(py, f).1 != "" && FindingKey(py, f) in rules && today <= rules[FindingKey(py, f)].expires
  }

  predicate FitsSeverity(py: Python, rules: map<Key, Rule>, f: Finding)
    requires FindingKey(py, f) in rules
  {
    rules[FindingKey(py, f)].severity == "" || Ok(rules[FindingKey(py, f)].severity) == SeverityOf(py, f)
  }

  predicate FitsAt(py: Python, rules: map<Key, Rule>, today: int, fs: seq<Finding>, i: nat)
    requires i < |fs|
  {
    && SeverityOf(py, fs[i]).Ok?
    && (Serious(py, fs[i]) ==>
          && Fits(py, rules, today, fs[i])
          && (FirstOfKey(py, fs, i) ==> FitsSeverity(py, rules, fs[i])))
  }

  predicate AllFit(py: Python, rules: map<Key, Rule>, today: int, fs: seq<Finding>) {
    forall i :: 0 <= i < |fs| ==> FitsAt(py, rules, today, fs, i)
  }

  predicate KeyOccurs(py: Python, fs: seq<Finding>, key: Key) {
    exists i :: 0 <= i < |fs| && Serious(py, fs[i]) && FindingKey(py, fs[i]) == key
  }

  lemma KeyOccursLast(py: Python, fs: seq<Finding>, f: Finding, key: Key)
    ensures KeyOccurs(py, fs + [f], key) <==> KeyOccurs(py, fs, key) || (Serious(py, f) && FindingKey(py, f) == key)
  {
    if KeyOccurs(py, fs, key) {
      var i :| 0 <= i < |fs| && Serious(py, fs[i]) && FindingKey(py, fs[i]) == key;
      assert (fs + [f])[i] == fs[i];
    }
    assert (fs + [f])[|fs|] == f;
  }

  lemma JudgeSees(py: Python, rules: map<Key, Rule>, today: int, t: Tally, f: Finding)
    requires Judge(py, rules, today, t, f).Ok?
    ensures Judge(py, rules, today, t, f).value.seen
            == t.seen + if Serious(py, f) && FindingKey(py, f).1 != "" then {FindingKey(py, f)} else {}
  {
  }

  /** `seen` holds exactly the keys of the serious findings that have one. */
  lemma {:induction false} SeenKeys(py: Python, rules: map<Key, Rule>, today: int, fs: seq<Finding>, key: Key)
    requires Check(py, rules, today, fs).Ok?
    ensures key in Check(py, rules, today, fs).value.seen <==> key.1 != "" && KeyOccurs(py, fs, key)
  {
    if fs != [] {
      var front, f := fs[..|fs| - 1], fs[|fs| - 1];
      SeenKeys(py, rules, today, front, key);
      KeyOccursLast(py, front, f, key);
      FrontLast(fs);
      JudgeSees(py, rules, today, Check(py, rules, today, front).value, f);
    }
  }

  /** One step keeps a clean tally clean exactly when its finding is unserious, fits, or repeats a seen key. */
  lemma JudgeClean(py: Python, rules: map<Key, Rule>, today: int, t: Tally, f: Finding)
    ensures var r := Judge(py, rules, today, t, f);
            r.Ok? && Clean(r.value) <==>
              && Clean(t)
              && SeverityOf(py, f).Ok?
              && (Serious(py, f) ==> FindingKey(py, f).1 != "")
              && (Serious(py, f) && FindingKey(py, f) !in t.seen ==>
                    Fits(py, rules, today, f) && FitsSeverity(py, rules, f))
  {
  }

  lemma FirstOfKeyLast(py: Python, fs: seq<Finding>, f: Finding)
    ensures forall i :: 0 <= i < |fs| ==> (FirstOfKey(py, fs + [f], i) <==> FirstOfKey(py, fs, i))
    ensures FirstOfKey(py, fs + [f], |fs|) <==> !KeyOccurs(py, fs, FindingKey(py, f))
  {
    var all := fs + [f];
    assert all[|fs|] == f && forall i :: 0 <= i < |fs| ==> all[i] == fs[i];
  }

  lemma AllFitLast(py: Python, rules: map<Key, Rule>, today: int, fs: seq<Finding>, f: Finding)
    ensures AllFit(py, rules, today, fs + [f]) <==>
              && AllFit(py, rules, today, fs)
              && SeverityOf(py, f).Ok?
              && (Serious(py, f) ==> Fits(py, rules, today, f))
              && (Serious(py, f) && !KeyOccurs(py, fs, FindingKey(py, f)) ==> FitsSeverity(py, rules, f))
  {
    var all := fs + [f];
    FirstOfKeyLast(py, fs, f);
    assert all[|fs|] == f && forall i :: 0 <= i < |fs| ==> all[i] == fs[i];
    assert forall i :: 0 <= i < |fs| ==> (FitsAt(py, rules, today, all, i) <==> FitsAt(py, rules, today, fs, i));
    assert AllFit(py, rules, today, all) <==> AllFit(py, rules, today, fs) && FitsAt(py, rules, today, all, |fs|);
  }

  lemma {:induction false} CleanIffAllFit(py: Python, rules: map<Key, Rule>, today: int, fs: seq<Finding>)
    ensures (Check(py, rules, today, fs).Ok? && Clean(Check(py, rules, today, fs).value))
            <==> AllFit(py, rules, today, fs)
  {
    if fs != [] {
      var front, f := fs[..|fs| - 1], fs[|fs| - 1];
      FrontLast(fs);
      CleanIffAllFit(py, rules, today, front);
      AllFitLast(py, rules, today, front, f);
      if Check(py, rules, today, front).Ok? {
        var t, key := Check(py, rules, today, front).value, FindingKey(py, f);
        JudgeClean(py, rules, today, t, f);
        SeenKeys(py, rules, today, front, key);
        if AllFit(py, rules, today, front) && KeyOccurs(py, front, key) {
          var i :| 0 <= i < |front| && Serious(py, front[i]) && FindingKey(py, front[i]) == key;
          assert FitsAt(py, rules, today, front, i);
        }
      }
    }
  }

  /** With a clean index, fitting the index and being accepted are the same. */
  lemma IndexDecides(py: Python, rs: seq<Record>, f: Finding, today: int)
    requires GoodExceptions(py, rs)
    ensures Fits(py, Index(py, rs).rules, today, f) <==> Covered(py, rs, f, today)
    ensures Covered(py, rs, f, today) ==>
              (FitsSeverity(py, Index(py, rs).rules, f) <==> SeverityAgrees(py, rs, f))
  {
    IndexHasKeys(py, rs);
    var rules, key := Index(py, rs).rules, FindingKey(py, f);
    if key in rules {
      var i := IndexSource(py, rs, key);
      assert forall j :: 0 <= j < |rs| && KeyOf(py, rs[j]) == key ==> j == i;
      assert Covers(py, rs[i], key, today) <==> today <= rules[key].expires;
    }
  }

  /**
   * The verdict, stated without the loops: the two passes end clean exactly when all exceptions are complete, validly
   * dated and have distinct non-empty keys, every serious finding is covered by an exception still in force, and the
   * first serious finding of each key is not contradicted on severity.
   */
  lemma ExactVerdict(py: Python, rs: seq<Record>, fs: seq<Finding>, today: int)
    ensures Accepts(py, rs, fs, today) <==>
              && Index(py, rs).errors == []
              && Check(py, Index(py, rs).rules, today, fs).Ok?
              && Clean(Check(py, Index(py, rs).rules, today, fs).value)
  {
    var rules := Index(py, rs).rules;
    IndexErrors(py, rs);
    CleanIffAllFit(py, rules, today, fs);
    if GoodExceptions(py, rs) {
      forall i | 0 <= i < |fs|
        ensures FitsAt(py, rules, today, fs, i) <==> Accounted(py, rs, fs, today, i)
      {
        IndexDecides(py, rs, fs[i], today);
      }
    }
  }

  // ---------------------------------------------------------------- each problem is reported once

  predicate Reports(py: Python, listed: seq<Finding>, key: Key) {
    exists a :: 0 <= a < |listed| && FindingKey(py, listed[a]) == key
  }

  predicate ReportedApart(py: Python, listed: seq<Finding>) {
    forall a, b :: 0 <= a < b < |listed| ==> FindingKey(py, listed[a]) != FindingKey(py, listed[b])
  }

  lemma ReportsLast(py: Python, listed: seq<Finding>, f: Finding, key: Key)
    ensures Reports(py, listed + [f], key) <==> Reports(py, listed, key) || FindingKey(py, f) == key
  {
    if Reports(py, listed, key) {
      var a :| 0 <= a < |listed| && FindingKey(py, listed[a]) == key;
      assert (listed + [f])[a] == listed[a];
    }
    assert (listed + [f])[|listed|] == f;
  }

  /** One step adds a finding to a headed list exactly when its key is new and uncovered, or covered but run out. */
  lemma JudgeReports(py: Python, rules: map<Key, Rule>, today: int, t: Tally, f: Finding, key: Key)
    requires Judge(py, rules, today, t, f).Ok?
    ensures var t' := Judge(py, rules, today, t, f).value;
            var isNew := Serious(py, f) && FindingKey(py, f) == key && key.1 != "" && key !in t.seen;
            && (Reports(py, t'.missing, key) <==> Reports(py, t.missing, key) || (isNew && key !in rules))
            && (Reports(py, t'.expired, key)
                <==> Reports(py, t.expired, key) || (isNew && key in rules && rules[key].expires < today))
  {
    ReportsLast(py, t.missing, f, key);
    ReportsLast(py, t.expired, f, key);
  }

  /** The two headed lists name each uncovered, or run out, key of a serious finding exactly once. */
  lemma {:induction false} ReportedOnce(py: Python, rules: map<Key, Rule>, today: int, fs: seq<Finding>, key: Key)
    requires Check(py, rules, today, fs).Ok?
    ensures var t := Check(py, rules, today, fs).value;
            && (Reports(py, t.missing, key) <==> key.1 != "" && KeyOccurs(py, fs, key) && key !in rules)
            && (Reports(py, t.expired, key) <==>
                  key.1 != "" && KeyOccurs(py, fs, key) && key in rules && rules[key].expires < today)
  {
    if fs != [] {
      var front, f := fs[..|fs| - 1], fs[|fs| - 1];
      FrontLast(fs);
      ReportedOnce(py, rules, today, front, key);
      KeyOccursLast(py, front, f, key);
      var t := Check(py, rules, today, front).value;
      SeenKeys(py, rules, today, front, key);
      JudgeReports(py, rules, today, t, f, key);
    }
  }

  lemma {:induction false} ReportedDistinct(py: Python, rules: map<Key, Rule>, today: int, fs: seq<Finding>)
    requires Check(py, rules, today, fs).Ok?
    ensures ReportedApart(py, Check(py, rules, today, fs).value.missing)
    ensures ReportedApart(py, Check(py, rules, today, fs).value.expired)
  {
    if fs != [] {
      var front, f := fs[..|fs| - 1], fs[|fs| - 1];
      ReportedDistinct(py, rules, today, front);
      var t, key := Check(py, rules, today, front).value, FindingKey(py, f);
      SeenKeys(py, rules, today, front, key);
      ReportedOnce(py, rules, today, front, key);
    }
  }

  // ---------------------------------------------------------------- what is reported

  /** What the pass reports at one finding: no advisory text, or a first finding of its key contradicted on severity. */
  predicate ReportsAt(py: Python, rules: map<Key, Rule>, fs: seq<Finding>, i: nat, e: GateError)
    requires i < |fs|
  {
    var f, key := fs[i], FindingKey(py, fs[i]);
    && Serious(py, f)
    && var sev := SeverityOf(py, f).value;
       if key.1 == "" then e == NoAdvisory(f.name, sev)
       else
         && FirstOfKey(py, fs, i) && key in rules && rules[key].severity != "" && rules[key].severity != sev
         && e == SeverityMismatch(key, sev, rules[key].severity)
  }

  predicate ReportsSome(py: Python, rules: map<Key, Rule>, fs: seq<Finding>, e: GateError) {
    exists i :: 0 <= i < |fs| && ReportsAt(py, rules, fs, i, e)
  }

  lemma ReportsAtFront(py: Python, rules: map<Key, Rule>, fs: seq<Finding>, f: Finding, i: nat, e: GateError)
    requires i < |fs|
    ensures ReportsAt(py, rules, fs + [f], i, e) <==> ReportsAt(py, rules, fs, i, e)
  {
    FirstOfKeyLast(py, fs, f);
  }

  lemma ReportsSomeLast(py: Python, rules: map<Key, Rule>, fs: seq<Finding>, f: Finding, e: GateError)
    ensures ReportsSome(py, rules, fs + [f], e) <==>
              ReportsSome(py, rules, fs, e) || ReportsAt(py, rules, fs + [f], |fs|, e)
  {
    if i :| 0 <= i < |fs| && ReportsAt(py, rules, fs, i, e) {
      ReportsAtFront(py, rules, fs, f, i, e);
    } else if i :| 0 <= i < |fs| && ReportsAt(py, rules, fs + [f], i, e) {
      ReportsAtFront(py, rules, fs, f, i, e);
    }
  }

  /** The errors of the pass over the findings are exactly these. */
  lemma {:induction false} PassErrors(py: Python, rules: map<Key, Rule>, today: int, fs: seq<Finding>, e: GateError)
    requires Check(py, rules, today, fs).Ok?
    ensures e in Check(py, rules, today, fs).value.errors <==> ReportsSome(py, rules, fs, e)
  {
    if fs != [] {
      var front, f := fs[..|fs| - 1], fs[|fs| - 1];
      FrontLast(fs);
      PassErrors(py, rules, today, front, e);
      ReportsSomeLast(py, rules, front, f, e);
      SeenKeys(py, rules, today, front, FindingKey(py, f));
      FirstOfKeyLast(py, front, f);
    }
  }

  /** What indexing reports at one record: why it is not valid, or that an earlier valid one has its key. */
  predicate RefusedAt(py: Python, rs: seq<Record>, i: nat, e: GateError)
    requires i < |rs|
  {
    if ReadRule(py, rs[i]).Err? then ReadRule(py, rs[i]) == Err(e)
    else
      && e == Duplicate(KeyOf(py, rs[i]))
      && exists j :: 0 <= j < i && ReadRule(py, rs[j]).Ok? && KeyOf(py, rs[j]) == KeyOf(py, rs[i])
  }

  predicate RefusedSome(py: Python, rs: seq<Record>, e: GateError) {
    exists i :: 0 <= i < |rs| && RefusedAt(py, rs, i, e)
  }

  lemma RefusedSomeLast(py: Python, rs: seq<Record>, r: Record, e: GateError)
    ensures RefusedSome(py, rs + [r], e) <==> RefusedSome(py, rs, e) || RefusedAt(py, rs + [r], |rs|, e)
  {
    var all := rs + [r];
    assert forall j :: 0 <= j < |rs| ==> all[j] == rs[j];
    assert forall i :: 0 <= i < |rs| ==> (RefusedAt(py, all, i, e) <==> RefusedAt(py, rs, i, e));
    if RefusedSome(py, rs, e) {
      var i :| 0 <= i < |rs| && RefusedAt(py, rs, i, e);
      assert RefusedAt(py, all, i, e);
    }
  }

  lemma IndexedBefore(py: Python, rs: seq<Record>, key: Key)
    ensures key in Index(py, rs).rules <==>
              exists j :: 0 <= j < |rs| && ReadRule(py, rs[j]).Ok? && KeyOf(py, rs[j]) == key
  {
    IndexHasKeys(py, rs);
    if key in Index(py, rs).rules {
      var j := IndexSource(py, rs, key);
    }
  }

  /** The errors of the index are exactly these. */
  lemma {:induction false} IndexReports(py: Python, rs: seq<Record>, e: GateError)
    ensures e in Index(py, rs).errors <==> RefusedSome(py, rs, e)
  {
    if rs != [] {
      var front, r := rs[..|rs| - 1], rs[|rs| - 1];
      FrontLast(rs);
      IndexReports(py, front, e);
      RefusedSomeLast(py, front, r, e);
      IndexedBefore(py, front, KeyOf(py, r));
      assert forall j :: 0 <= j < |front| ==> front[j] == rs[j];
    }
  }

  // ---------------------------------------------------------------- the gate in terms of the texts

  predicate Complete(r: Record) {
    && "package" in r && r["package"] != "" && "advisory" in r && r["advisory"] != ""
    && "severity" in r && r["severity"] != "" && "mitigation" in r && r["mitigation"] != ""
    && "expires_on" in r && r["expires_on"] != ""
  }

  /** A complete exception with a date, and with a package and an advisory that are more than white space. */
  predicate WellFormed(py: Python, r: Record) {
    && Complete(r) && py.isoDate(r["expires_on"]).Some?
    && Strip(r["package"]) != "" && py.lower(Strip(r["advisory"])) != ""
  }

  lemma CompleteIff(r: Record)
    ensures HasRequiredFields(r) <==> Complete(r)
  {
    var names := RequiredFields;
    assert names[0] == "package" && names[1] == "advisory" && names[2] == "severity" && names[3] == "mitigation";
    assert names[4] == "expires_on";
  }

  /** Which exceptions are valid, what a valid one says, and what is reported of the others. */
  lemma RuleIff(py: Python, r: Record)
    ensures ReadRule(py, r)
         == if !Complete(r) then Err(Incomplete(r))
            else if py.isoDate(r["expires_on"]) == None then Err(BadDate(r))
            else if !WellFormed(py, r) then Err(EmptyKey)
            else Ok(Rule(py.lower(Strip(r["severity"])), py.isoDate(r["expires_on"]).value))
  {
    CompleteIff(r);
  }

  /** A JSON value that is read as this text. */
  predicate ReadsAs(v: Json, text: string) {
    v == Str(text) || (v.Number? && v.text == text)
  }

  /**
   * A finding and an exception have the same key exactly when their packages are the same text once stripped, and their
   * advisories once stripped and lower-cased. An advisory or name that is a number is compared by its text.
   */
  lemma KeysAgree(py: Python, r: Record, f: Finding, name: string, advisory: string)
    requires "package" in r && "advisory" in r && ReadsAs(f.name, name) && ReadsAs(f.advisory, advisory)
    ensures KeyOf(py, r) == FindingKey(py, f) <==>
              && Strip(r["package"]) == Strip(name)
              && py.lower(Strip(r["advisory"])) == py.lower(Strip(advisory))
  {
  }

  /** The severity texts the gate looks at. */
  predicate Grave(py: Python, severity: string) {
    py.lower(Strip(severity)) == "high" || py.lower(Strip(severity)) == "critical"
  }

  /** An exception that lets a finding of these texts pass on this day. */
  predicate Excuses(py: Python, r: Record, name: string, severity: string, advisory: string, today: int)
    requires WellFormed(py, r)
  {
    && Strip(r["package"]) == Strip(name)
    && py.lower(Strip(r["advisory"])) == py.lower(Strip(advisory))
    && (py.lower(Strip(r["severity"])) == "" || py.lower(Strip(r["severity"])) == py.lower(Strip(severity)))
    && today <= py.isoDate(r["expires_on"]).value
  }

  lemma GraveIff(py: Python, f: Finding, severity: string)
    requires f.severity == Str(severity) && Truthy(f.name)
    ensures SeverityOf(py, f) == Ok(py.lower(Strip(severity))) && (Serious(py, f) <==> Grave(py, severity))
  {
  }

  /** Without exceptions one finding passes exactly when its severity is not grave. */
  lemma NoExceptionGate(py: Python, f: Finding, severity: string, today: int)
    requires f.severity == Str(severity) && Truthy(f.name)
    ensures Accepts(py, [], [f], today) <==> !Grave(py, severity)
  {
    GraveIff(py, f, severity);
    assert Accepts(py, [], [f], today) <==> Accounted(py, [], [f], today, 0);
  }

  /**
   * With one exception it passes exactly when that is well-formed and excuses the finding, if its severity is grave.
   */
  lemma OneExceptionGate(
      py: Python, r: Record, f: Finding, name: string, severity: string, advisory: string, today: int)
    requires f.severity == Str(severity) && Truthy(f.name) && ReadsAs(f.name, name) && ReadsAs(f.advisory, advisory)
    ensures Accepts(py, [r], [f], today) <==>
              WellFormed(py, r) && (Grave(py, severity) ==> Excuses(py, r, name, severity, advisory, today))
  {
    RuleIff(py, r);
    GraveIff(py, f, severity);
    assert [r][0] == r && [f][0] == f;
    assert GoodExceptions(py, [r]) <==> WellFormed(py, r);
    assert Accepts(py, [r], [f], today) <==> WellFormed(py, r) && Accounted(py, [r], [f], today, 0);
    if WellFormed(py, r) {
      KeysAgree(py, r, f, name, advisory);
      OneCovers(py, r, f, today);
    }
  }

  lemma OneCovers(py: Python, r: Record, f: Finding, today: int)
    requires ReadRule(py, r).Ok?
    ensures Covered(py, [r], f, today) <==> FindingKey(py, f).1 != "" && Covers(py, r, FindingKey(py, f), today)
    ensures SeverityAgrees(py, [r], f) <==>
              (KeyOf(py, r) == FindingKey(py, f) ==>
                 ReadRule(py, r).value.severity == "" || Ok(ReadRule(py, r).value.severity) == SeverityOf(py, f))
    ensures FirstOfKey(py, [f], 0)
  {
    assert [r][0] == r;
  }

  /** An advisory's members as texts. */
  predicate SaysOfAdvisory(a: seq<(string, Json)>, name: string, severity: string, advisory: string) {
    && name != "" && Get(a, "module_name") == Str(name) && Get(a, "severity") == Str(severity)
    && advisory != "" && Get(a, "github_advisory_id") == Str(advisory)
  }

  /** From the report's members: what a report of one advisory needs to be validated. */
  lemma ReportGate(py: Python, id: string, a: seq<(string, Json)>, name: string, severity: string, advisory: string,
                   r: Record, today: int)
    requires SaysOfAdvisory(a, name, severity, advisory)
    ensures Passes(py, Ok([]), Findings(py, OneAdvisory(id, a)), today) <==> !Grave(py, severity)
    ensures Passes(py, Ok([r]), Findings(py, OneAdvisory(id, a)), today) <==>
              WellFormed(py, r) && (Grave(py, severity) ==> Excuses(py, r, name, severity, advisory, today))
  {
    OneAdvisoryYields(py, id, a);
    AdvisoryYields(py, a);
    var f := AdvisoryFinding(py, Object(a)).value;
    assert f == Finding(Str(name), Str(severity), Str(advisory));
    NoExceptionGate(py, f, severity, today);
    OneExceptionGate(py, r, f, name, severity, advisory, today);
  }

  /** The same of an advisory that is known by a number only. */
  lemma NumberGate(py: Python, id: string, a: seq<(string, Json)>, name: string, severity: string, text: string,
                   r: Record, today: int)
    requires name != "" && Get(a, "module_name") == Str(name) && Get(a, "severity") == Str(severity)
    requires Get(a, "github_advisory_id") == Null && Get(a, "url") == Null && Get(a, "cves") == Null
    requires Get(a, "id").Number? && Get(a, "id").text == text != ""
    ensures Passes(py, Ok([r]), Findings(py, OneAdvisory(id, a)), today) <==>
              WellFormed(py, r) && (Grave(py, severity) ==> Excuses(py, r, name, severity, text, today))
  {
    OneAdvisoryYields(py, id, a);
    AdvisoryYields(py, a);
    AdvisoryIdIs(py, a);
    var f := AdvisoryFinding(py, Object(a)).value;
    assert f == Finding(Str(name), Str(severity), Str(text));
    OneExceptionGate(py, r, f, name, severity, text, today);
  }

  /** The same of a package whose one `via` object is known by a numeric source and has a title. */
  lemma SourceGate(py: Python, name: string, vuln: seq<(string, Json)>, item: seq<(string, Json)>, severity: string,
                   r: Record, today: int)
    requires name != "" && Get(vuln, "severity") == Str(severity)
    requires Has(vuln, "via") && Get(vuln, "via") == List([Object(item)])
    requires Get(item, "github_advisory_id") == Null && Get(item, "url") == Null
    requires Get(item, "source").Number? && !Get(item, "source").zero
    requires Get(item, "title").Str? && Get(item, "title") != Str("")
    ensures Passes(py, Ok([r]), Findings(py, OnePackage(name, vuln)), today) <==>
              && WellFormed(py, r)
              && (Grave(py, severity) ==> Excuses(py, r, name, severity, Get(item, "source").text, today))
  {
    OneItemYields(py, name, vuln, item);
    ViaPrecedence(item);
    var f := Finding(Str(name), Str(severity), Get(item, "source"));
    OneExceptionGate(py, r, f, name, severity, Get(item, "source").text, today);
  }

  /** From the written list and the report: one exception, written in any style, and one advisory. */
  lemma WrittenGate(py: Python, e: Entry, term: string, id: string, a: seq<(string, Json)>,
                    name: string, severity: string, advisory: string, today: int)
    requires Printable(e) && LineEnd(term) && SaysOfAdvisory(a, name, severity, advisory)
    ensures Passes(py, Parse(PrintFile([e], term)), Findings(py, OneAdvisory(id, a)), today) <==>
              && WellFormed(py, ToRecord(e))
              && (Grave(py, severity) ==> Excuses(py, ToRecord(e), name, severity, advisory, today))
    ensures Passes(py, Parse(PrintFile([], term)), Findings(py, OneAdvisory(id, a)), today) <==> !Grave(py, severity)
  {
    RoundTrip([e], term);
    RoundTrip([], term);
    assert ToRecords([e]) == [ToRecord(e)] && ToRecords([]) == [];
    ReportGate(py, id, a, name, severity, advisory, ToRecord(e), today);
  }

  // ---------------------------------------------------------------- monotonicity

  /** More findings never turn a failure into a pass. */
  lemma MoreFindings(py: Python, rs: seq<Record>, fs: seq<Finding>, more: seq<Finding>, today: int)
    requires Accepts(py, rs, fs + more, today)
    ensures Accepts(py, rs, fs, today)
  {
    var all := fs + more;
    assert forall i :: 0 <= i < |fs| ==> all[i] == fs[i];
    forall i | 0 <= i < |fs| ensures Accounted(py, rs, fs, today, i) {
      assert Accounted(py, rs, all, today, i);
      assert FirstOfKey(py, all, i) <==> FirstOfKey(py, fs, i);
    }
  }

  predicate FreshKey(py: Python, rs: seq<Record>, key: Key) {
    forall i :: 0 <= i < |rs| ==> KeyOf(py, rs[i]) != key
  }

  /** Inserting a record leaves the others where they were, the later ones moved up by one. */
  lemma Inserted(before: seq<Record>, r: Record, after: seq<Record>, i: nat)
    requires i < |before| + 1 + |after|
    ensures (before + [r] + after)[i]
            == if i < |before| then (before + after)[i] else if i == |before| then r else (before + after)[i - 1]
  {
  }

  lemma FreshIsGood(py: Python, before: seq<Record>, r: Record, after: seq<Record>)
    requires GoodExceptions(py, before + after) && ReadRule(py, r).Ok? && FreshKey(py, before + after, KeyOf(py, r))
    ensures GoodExceptions(py, before + [r] + after)
  {
    var rs, rs', n := before + after, before + [r] + after, |before|;
    forall i | 0 <= i < |rs'| ensures ReadRule(py, rs'[i]).Ok? {
      Inserted(before, r, after, i);
    }
    forall i, j | 0 <= i < j < |rs'| ensures KeyOf(py, rs'[i]) != KeyOf(py, rs'[j]) {
      Inserted(before, r, after, i);
      Inserted(before, r, after, j);
    }
  }

  lemma StaysCovered(py: Python, before: seq<Record>, r: Record, after: seq<Record>, f: Finding, today: int)
    requires Covered(py, before + after, f, today)
    ensures Covered(py, before + [r] + after, f, today)
  {
    var key := FindingKey(py, f);
    var m :| 0 <= m < |before + after| && Covers(py, (before + after)[m], key, today);
    var m' := if m < |before| then m else m + 1;
    Inserted(before, r, after, m');
    assert Covers(py, (before + [r] + after)[m'], key, today);
  }

  lemma StaysAgreed(py: Python, before: seq<Record>, r: Record, after: seq<Record>, f: Finding)
    requires SeverityAgrees(py, before + after, f) && KeyOf(py, r) != FindingKey(py, f)
    ensures SeverityAgrees(py, before + [r] + after, f)
  {
    var rs' := before + [r] + after;
    forall k | 0 <= k < |rs'| && ReadRule(py, rs'[k]).Ok? && KeyOf(py, rs'[k]) == FindingKey(py, f)
      ensures var named := ReadRule(py, rs'[k]).value.severity;
              named == "" || Ok(named) == SeverityOf(py, f)
    {
      Inserted(before, r, after, k);
    }
  }

  lemma CoveredNotFresh(py: Python, rs: seq<Record>, r: Record, f: Finding, today: int)
    requires Covered(py, rs, f, today) && FreshKey(py, rs, KeyOf(py, r))
    ensures KeyOf(py, r) != FindingKey(py, f)
  {
  }

  lemma FreshAccounts(py: Python, before: seq<Record>, r: Record, after: seq<Record>, fs: seq<Finding>, today: int,
                      i: nat)
    requires i < |fs| && Accounted(py, before + after, fs, today, i) && FreshKey(py, before + after, KeyOf(py, r))
    ensures Accounted(py, before + [r] + after, fs, today, i)
  {
    if Serious(py, fs[i]) {
      StaysCovered(py, before, r, after, fs[i], today);
      CoveredNotFresh(py, before + after, r, fs[i], today);
      if SeverityAgrees(py, before + after, fs[i]) {
        StaysAgreed(py, before, r, after, fs[i]);
      }
    }
  }

  /** A well-formed exception with a fresh key, put anywhere in the list, never turns a pass into a failure. */
  lemma FreshException(py: Python, before: seq<Record>, r: Record, after: seq<Record>, fs: seq<Finding>, today: int)
    requires Accepts(py, before + after, fs, today)
    requires ReadRule(py, r).Ok? && FreshKey(py, before + after, KeyOf(py, r))
    ensures Accepts(py, before + [r] + after, fs, today)
  {
    FreshIsGood(py, before, r, after);
    forall i | 0 <= i < |fs| ensures Accounted(py, before + [r] + after, fs, today, i) {
      FreshAccounts(py, before, r, after, fs, today, i);
    }
  }

  /** A pass on some day is a pass on every earlier day. */
  lemma EarlierDay(py: Python, rs: seq<Record>, fs: seq<Finding>, today: int, earlier: int)
    requires Accepts(py, rs, fs, today) && earlier <= today
    ensures Accepts(py, rs, fs, earlier)
  {
    forall i | 0 <= i < |fs| ensures Accounted(py, rs, fs, earlier, i) {
      assert Accounted(py, rs, fs, today, i);
      if Serious(py, fs[i]) {
        var m :| 0 <= m < |rs| && Covers(py, rs[m], FindingKey(py, fs[i]), today);
        assert Covers(py, rs[m], FindingKey(py, fs[i]), earlier);
      }
    }
  }

  // ---------------------------------------------------------------- order of the findings

  /** Findings of one key always carry one severity. */
  predicate OneSeverityPerKey(py: Python, fs: seq<Finding>) {
    forall i, j | 0 <= i < |fs| && 0 <= j < |fs| && Serious(py, fs[i]) && Serious(py, fs[j]) ::
      FindingKey(py, fs[i]) == FindingKey(py, fs[j]) ==> SeverityOf(py, fs[i]) == SeverityOf(py, fs[j])
  }

  lemma FirstExists(py: Python, fs: seq<Finding>, i: nat) returns (j: nat)
    requires i < |fs| && Serious(py, fs[i])
    ensures j <= i && Serious(py, fs[j]) && FindingKey(py, fs[j]) == FindingKey(py, fs[i]) && FirstOfKey(py, fs, j)
  {
    j := i;
    if !FirstOfKey(py, fs, i) {
      var k :| 0 <= k < i && Serious(py, fs[k]) && FindingKey(py, fs[k]) == FindingKey(py, fs[i]);
      j := FirstExists(py, fs, k);
    }
  }

  predicate AllAgree(py: Python, rs: seq<Record>, fs: seq<Finding>) {
    forall i :: 0 <= i < |fs| && Serious(py, fs[i]) ==> SeverityAgrees(py, rs, fs[i])
  }

  /** When no serious finding is contradicted on severity, neither the order of the findings nor repeats matter. */
  lemma AgreeingInAnyOrder(py: Python, rs: seq<Record>, fs: seq<Finding>, gs: seq<Finding>, today: int)
    requires Accepts(py, rs, fs, today) && AllAgree(py, rs, fs) && forall g :: g in gs ==> g in fs
    ensures Accepts(py, rs, gs, today)
  {
    forall i | 0 <= i < |gs| ensures Accounted(py, rs, gs, today, i) {
      assert gs[i] in fs;
      var k :| 0 <= k < |fs| && fs[k] == gs[i];
      assert Accounted(py, rs, fs, today, k);
    }
  }

  /** The findings with the i-th moved to the front. */
  function MovedFirst(fs: seq<Finding>, i: nat): (gs: seq<Finding>)
    requires i < |fs|
    ensures multiset(gs) == multiset(fs) && |gs| > 0 && gs[0] == fs[i]
  {
    assert fs == fs[..i] + [fs[i]] + fs[i + 1..];
    [fs[i]] + fs[..i] + fs[i + 1..]
  }

  /** What comes first must agree. */
  lemma FirstAgrees(py: Python, rs: seq<Record>, gs: seq<Finding>, today: int)
    requires gs != [] && Accepts(py, rs, gs, today) && Serious(py, gs[0])
    ensures SeverityAgrees(py, rs, gs[0])
  {
    assert FirstOfKey(py, gs, 0);
    assert Accounted(py, rs, gs, today, 0);
  }

  ghost predicate AcceptsAnyOrder(py: Python, rs: seq<Record>, fs: seq<Finding>, today: int) {
    forall gs: seq<Finding> :: multiset(gs) == multiset(fs) ==> Accepts(py, rs, gs, today)
  }

  lemma AgreeingIsOrderFree(py: Python, rs: seq<Record>, fs: seq<Finding>, today: int)
    requires Accepts(py, rs, fs, today) && AllAgree(py, rs, fs)
    ensures AcceptsAnyOrder(py, rs, fs, today)
  {
    forall gs: seq<Finding> | multiset(gs) == multiset(fs) ensures Accepts(py, rs, gs, today) {
      forall g | g in gs ensures g in fs {
        assert g in multiset(gs);
      }
      AgreeingInAnyOrder(py, rs, fs, gs, today);
    }
  }

  lemma OrderFreeAgrees(py: Python, rs: seq<Record>, fs: seq<Finding>, today: int)
    requires AcceptsAnyOrder(py, rs, fs, today)
    ensures AllAgree(py, rs, fs)
  {
    forall i | 0 <= i < |fs| && Serious(py, fs[i]) ensures SeverityAgrees(py, rs, fs[i]) {
      FirstAgrees(py, rs, MovedFirst(fs, i), today);
    }
  }

  /**
   * A pass is independent of the order of the report exactly when no serious finding, first of its key or not, is
   * contradicted on severity by an exception of its key.
   */
  lemma OrderIrrelevantIff(py: Python, rs: seq<Record>, fs: seq<Finding>, today: int)
    requires Accepts(py, rs, fs, today)
    ensures AcceptsAnyOrder(py, rs, fs, today) <==> AllAgree(py, rs, fs)
  {
    if AllAgree(py, rs, fs) {
      AgreeingIsOrderFree(py, rs, fs, today);
    }
    if AcceptsAnyOrder(py, rs, fs, today) {
      OrderFreeAgrees(py, rs, fs, today);
    }
  }

  /** A condition on the report alone that is enough for it: findings of one key carry one severity. */
  lemma ReorderSafe(py: Python, rs: seq<Record>, fs: seq<Finding>, gs: seq<Finding>, today: int)
    requires OneSeverityPerKey(py, fs) && forall f :: f in fs <==> f in gs
    requires Accepts(py, rs, fs, today)
    ensures AllAgree(py, rs, fs) && Accepts(py, rs, gs, today)
  {
    forall i | 0 <= i < |fs| && Serious(py, fs[i]) ensures SeverityAgrees(py, rs, fs[i]) {
      var j := FirstExists(py, fs, i);
      assert Accounted(py, rs, fs, today, j);
      assert SeverityAgrees(py, rs, fs[j]);
    }
    AgreeingInAnyOrder(py, rs, fs, gs, today);
  }

  /**
   * An order that decides: when an exception covers a key and names one of two severities reported for it, the report
   * passes if the agreeing finding comes first and fails if the other does.
   */
  lemma OrderDecides(py: Python, r: Record, agreeing: Finding, other: Finding, today: int)
    requires Covers(py, r, FindingKey(py, agreeing), today) && FindingKey(py, other) == FindingKey(py, agreeing)
    requires Serious(py, agreeing) && Serious(py, other)
    requires SeverityOf(py, agreeing) == Ok(ReadRule(py, r).value.severity) != SeverityOf(py, other)
    ensures Accepts(py, [r], [agreeing, other], today) && !Accepts(py, [r], [other, agreeing], today)
  {
    var fs, gs := [agreeing, other], [other, agreeing];
    assert Covers(py, [r][0], FindingKey(py, agreeing), today);
    assert Accounted(py, [r], fs, today, 0);
    assert !FirstOfKey(py, fs, 1) && Accounted(py, [r], fs, today, 1);
    assert FirstOfKey(py, gs, 0);
    assert !SeverityAgrees(py, [r], other) by {
      assert [r][0] == r;
    }
    assert !Accounted(py, [r], gs, today, 0);
  }
}
