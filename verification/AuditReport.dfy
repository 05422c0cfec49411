/** The audit report: JSON values as the tool reads them, and the stream of findings `iter_vulns` yields. */
module AuditReport {
  import opened Wrappers
  import opened Sequences

  /** A decoded JSON value. A number keeps the text `str()` gives it, because that is what ids are compared by. */
  datatype Json =
    | Null
    | Bool(b: bool)
    | Number(text: string, zero: bool)
    | Str(s: string)
    | List(items: seq<Json>)
    | Object(fields: seq<(string, Json)>)

  /** The Python library behaviour the tool relies on, left open: any lower-casing, date parser and printing will do. */
  datatype Python = Python(lower: string -> string, isoDate: string -> Option<int>, repr: Json -> string)

  /** An uncaught AttributeError, TypeError or KeyError. */
  datatype Crash = Crash

  /** One yielded tuple: name, severity, advisory id (Null for Python's None). Titles only reach the messages. */
  datatype Finding = Finding(name: Json, severity: Json, advisory: Json)

  predicate Truthy(v: Json) {
    match v
    case Null => false
    case Bool(b) => b
    case Number(_, zero) => !zero
    case Str(s) => s != ""
    case List(items) => items != []
    case Object(fields) => fields != []
  }

  function Get(fields: seq<(string, Json)>, key: string): Json {
    if fields == [] then Null
    else if fields[0].0 == key then fields[0].1
    else Get(fields[1..], key)
  }

  predicate Has(fields: seq<(string, Json)>, key: string) {
    fields != [] && (fields[0].0 == key || Has(fields[1..], key))
  }

  /** What a chain of `or` gives: the first truthy value, or the last one if there is none. */
  function FirstTruthy(values: seq<Json>): (r: Json)
    requires values != []
    ensures Truthy(r) ==>
              exists k :: 0 <= k < |values| && r == values[k] && forall j :: 0 <= j < k ==> !Truthy(values[j])
    ensures !Truthy(r) ==> r == values[|values| - 1] && forall j :: 0 <= j < |values| ==> !Truthy(values[j])
  {
    if |values| == 1 || Truthy(values[0]) then values[0] else
      assert forall j :: 1 <= j < |values| ==> values[j] == values[1..][j - 1];
      FirstTruthy(values[1..])
  }

  lemma {:induction false} OrLast(values: seq<Json>, last: Json)
    requires values != []
    ensures FirstTruthy(values + [last]) == if Truthy(FirstTruthy(values)) then FirstTruthy(values) else last
  {
    if |values| == 1 {
      assert (values + [last])[1..] == [last];
    } else {
      assert (values + [last])[1..] == values[1..] + [last];
      OrLast(values[1..], last);
    }
  }

  function Text(py: Python, v: Json): string {
    match v
    case Str(s) => s
    case Number(text, _) => text
    case _ => py.repr(v)
  }

  /** The first entry of a list of CVE ids, or the first character of a text; nothing if there is none. */
  function FirstCve(cves: Json): Result<Json, Crash> {
    if !Truthy(cves) then Ok(Null)
    else match cves
      case List(items) => Ok(items[0])
      case Str(s) => Ok(Str(s[..1]))
      case _ => Err(Crash)
  }

  /** The id's text, if there is an id. */
  function IdText(py: Python, id: Json): Json {
    if id.Null? then Null else Str(Text(py, id))
  }

  /** The CVE ids are looked at only when there is neither a GHSA id nor a url. */
  function PickAdvisoryId(py: Python, a: seq<(string, Json)>): Result<Json, Crash> {
    if Truthy(Get(a, "github_advisory_id")) then Ok(Get(a, "github_advisory_id"))
    else if Truthy(Get(a, "url")) then Ok(Get(a, "url"))
    else match FirstCve(Get(a, "cves"))
      case Err(e) => Err(e)
      case Ok(cve) =>
        Ok(FirstTruthy([cve, IdText(py, Get(a, "id")), Get(a, "title"), Get(a, "advisory"), Get(a, "overview")]))
  }

  function AdvisoryFinding(py: Python, advisory: Json): Result<Finding, Crash> {
    if !advisory.Object? then Err(Crash) else
      var fields := advisory.fields;
      match PickAdvisoryId(py, fields)
      case Err(e) => Err(e)
      case Ok(id) =>
        Ok(Finding(FirstTruthy([Get(fields, "module_name"), Get(fields, "name")]), Get(fields, "severity"), id))
  }

  /** The id of a `via` object. */
  function ViaId(item: seq<(string, Json)>): Json {
    FirstTruthy([Get(item, "github_advisory_id"), Get(item, "url"), Get(item, "source"), Get(item, "title"),
                 Get(item, "name")])
  }

  /** The title of a `via` object. */
  function TitleOf(item: seq<(string, Json)>): Json {
    FirstTruthy([Get(item, "title"), Get(item, "url"), Get(item, "advisory"), Get(item, "source")])
  }

  /** A text is one item; anything else that is no list has none. */
  function ViaOf(fields: seq<(string, Json)>): seq<Json> {
    if !Has(fields, "via") then [] else
      match Get(fields, "via")
      case List(items) => items
      case Str(s) => [Str(s)]
      case _ => []
  }

  /** The advisory id one item of `via` reports, if it reports one. */
  function ItemId(item: Json): Option<Json> {
    match item
    case Object(fields) => if Truthy(ViaId(fields)) then Some(ViaId(fields)) else None
    case Str(s) => if s != "" then Some(item) else None
    case _ => None
  }

  /** Joining the titles needs a kept title to be a text. */
  predicate TitleJoins(item: Json) {
    item.Object? && Truthy(TitleOf(item.fields)) ==> TitleOf(item.fields).Str?
  }

  function KeptFindings(name: Json, severity: Json, items: seq<Json>): seq<Finding> {
    if items == [] then [] else
      var n := |items| - 1;
      KeptFindings(name, severity, items[..n])
      + if ItemId(items[n]).Some? then [Finding(name, severity, ItemId(items[n]).value)] else []
  }

  predicate PackageCrashes(vuln: Json) {
    !vuln.Object? || exists k :: 0 <= k < |ViaOf(vuln.fields)| && !TitleJoins(ViaOf(vuln.fields)[k])
  }

  function PackageFindings(name: string, vuln: Json): seq<Finding> {
    if vuln.Object? then KeptFindings(Str(name), Get(vuln.fields, "severity"), ViaOf(vuln.fields)) else []
  }

  function AdvisoryFindings(py: Python, members: seq<(string, Json)>): seq<Finding> {
    if members == [] then [] else
      var n := |members| - 1;
      var last := AdvisoryFinding(py, members[n].1);
      AdvisoryFindings(py, members[..n]) + if last.Ok? then [last.value] else []
  }

  function AllPackageFindings(members: seq<(string, Json)>): seq<Finding> {
    if members == [] then [] else
      var n := |members| - 1;
      AllPackageFindings(members[..n]) + PackageFindings(members[n].0, members[n].1)
  }

  /** The members of a section of the report; a section that is no object is skipped. */
  function Section(data: Json, name: string): seq<(string, Json)> {
    if data.Object? && Get(data.fields, name).Object? then Get(data.fields, name).fields else []
  }

  /** The report is no object, an advisory is malformed, or a package is. */
  predicate ReportCrashes(py: Python, data: Json) {
    || !data.Object?
    || (exists m ::
          0 <= m < |Section(data, "advisories")| && AdvisoryFinding(py, Section(data, "advisories")[m].1).Err?)
    || (exists m ::
          0 <= m < |Section(data, "vulnerabilities")| && PackageCrashes(Section(data, "vulnerabilities")[m].1))
  }

  /** Everything the generator yields, or the crash that ends the run: both exit paths of the tool see only this. */
  function Findings(py: Python, data: Json): Result<seq<Finding>, Crash> {
    if ReportCrashes(py, data) then Err(Crash)
    else Ok(AdvisoryFindings(py, Section(data, "advisories")) + AllPackageFindings(Section(data, "vulnerabilities")))
  }

  // ---------------------------------------------------------------- the generator

  /** `iter_vulns` collected. */
  method IterVulns(py: Python, data: Json) returns (r: Result<seq<Finding>, Crash>)
    ensures r == Findings(py, data)
  {
    if !data.Object? {
      return Err(Crash);
    }
    var found := AdvisoryLoop(py, Section(data, "advisories"));
    if found.Err? {
      return Err(Crash);
    }
    var more := PackageLoop(Section(data, "vulnerabilities"));
    if more.Err? {
      return Err(Crash);
    }
    r := Ok(found.value + more.value);
  }

  /** Its first loop. */
  method AdvisoryLoop(py: Python, members: seq<(string, Json)>) returns (r: Result<seq<Finding>, Crash>)
    ensures r.Err? <==> exists m :: 0 <= m < |members| && AdvisoryFinding(py, members[m].1).Err?
    ensures r.Ok? ==> r.value == AdvisoryFindings(py, members)
  {
    var found: seq<Finding> := [];
    for i := 0 to |members|
      invariant found == AdvisoryFindings(py, members[..i])
      invariant forall m :: 0 <= m < i ==> AdvisoryFinding(py, members[m].1).Ok?
    {
      var f := AdvisoryFinding(py, members[i].1);
      if f.Err? {
        return Err(Crash);
      }
      PrefixNext(members, i);
      found := found + [f.value];
    }
    TakeAll(members);
    r := Ok(found);
  }

  /** Its second loop. */
  method PackageLoop(members: seq<(string, Json)>) returns (r: Result<seq<Finding>, Crash>)
    ensures r.Err? <==> exists m :: 0 <= m < |members| && PackageCrashes(members[m].1)
    ensures r.Ok? ==> r.value == AllPackageFindings(members)
  {
    var found: seq<Finding> := [];
    for i := 0 to |members|
      invariant found == AllPackageFindings(members[..i])
      invariant forall m :: 0 <= m < i ==> !PackageCrashes(members[m].1)
    {
      var (name, vuln) := members[i];
      if !vuln.Object? {
        return Err(Crash);
      }
      var own := VulnerabilityLoop(name, vuln.fields);
      if own.Err? {
        return Err(Crash);
      }
      PrefixNext(members, i);
      found := found + own.value;
    }
    TakeAll(members);
    r := Ok(found);
  }

  /** What the first loop over `via` collects, item by item. */
  function ViaIds(items: seq<Json>): seq<Json> {
    if items == [] then [] else
      var n := |items| - 1;
      ViaIds(items[..n]) + match items[n] case Object(fields) => [ViaId(fields)] case Str(_) => [items[n]] case _ => []
  }

  function ViaTitles(items: seq<Json>): seq<Json> {
    if items == [] then [] else
      var n := |items| - 1;
      ViaTitles(items[..n])
      + match items[n] case Object(fields) => [TitleOf(fields)] case Str(_) => [items[n]] case _ => []
  }

  predicate Joinable(titles: seq<Json>) {
    forall k :: 0 <= k < |titles| && Truthy(titles[k]) ==> titles[k].Str?
  }

  lemma {:induction false} JoinableIff(items: seq<Json>)
    ensures Joinable(ViaTitles(items)) <==> forall k :: 0 <= k < |items| ==> TitleJoins(items[k])
  {
    if items != [] {
      var n := |items| - 1;
      var before, titles := ViaTitles(items[..n]), ViaTitles(items);
      JoinableIff(items[..n]);
      assert forall k :: 0 <= k < n ==> items[..n][k] == items[k];
      assert forall k :: 0 <= k < |before| ==> titles[k] == before[k];
      assert items[n].Object? || items[n].Str? ==>
               titles[|before|] == if items[n].Object? then TitleOf(items[n].fields) else items[n];
      assert Joinable(titles) <==> Joinable(before) && TitleJoins(items[n]);
    }
  }

  /** The findings of the ids that are kept. */
  function KeptIds(name: Json, severity: Json, ids: seq<Json>): seq<Finding> {
    if ids == [] then [] else
      var n := |ids| - 1;
      KeptIds(name, severity, ids[..n]) + if Truthy(ids[n]) then [Finding(name, severity, ids[n])] else []
  }

  lemma {:induction false} KeptIdsAre(name: Json, severity: Json, items: seq<Json>)
    ensures KeptIds(name, severity, ViaIds(items)) == KeptFindings(name, severity, items)
  {
    if items != [] {
      var n := |items| - 1;
      var before, ids := ViaIds(items[..n]), ViaIds(items);
      KeptIdsAre(name, severity, items[..n]);
      if items[n].Object? || items[n].Str? {
        assert ids[..|before|] == before;
      } else {
        assert ids == before;
      }
    }
  }

  /** The loops over one package: ids and titles are collected, the titles joined, and the kept ids yielded. */
  method VulnerabilityLoop(name: string, fields: seq<(string, Json)>) returns (r: Result<seq<Finding>, Crash>)
    ensures r == if PackageCrashes(Object(fields)) then Err(Crash) else Ok(PackageFindings(name, Object(fields)))
  {
    var severity := Get(fields, "severity");
    var titles, advisories := CollectVia(fields);
    JoinableIff(ViaOf(fields));
    for k := 0 to |titles|
      invariant forall m :: 0 <= m < k && Truthy(titles[m]) ==> titles[m].Str?
    {
      if Truthy(titles[k]) && !titles[k].Str? {
        return Err(Crash);
      }
    }
    var own := KeepIds(Str(name), severity, advisories);
    KeptIdsAre(Str(name), severity, ViaOf(fields));
    r := Ok(own);
  }

  method CollectVia(fields: seq<(string, Json)>) returns (titles: seq<Json>, advisories: seq<Json>)
    ensures titles == ViaTitles(ViaOf(fields)) && advisories == ViaIds(ViaOf(fields))
  {
    var via := if Has(fields, "via") then Get(fields, "via") else List([]);
    titles, advisories := [], [];
    if via.List? {
      for k := 0 to |via.items|
        invariant advisories == ViaIds(via.items[..k]) && titles == ViaTitles(via.items[..k])
      {
        var item := via.items[k];
        PrefixNext(via.items, k);
        if item.Object? {
          advisories := advisories + [ViaId(item.fields)];
          titles := titles + [TitleOf(item.fields)];
        } else if item.Str? {
          advisories := advisories + [item];
          titles := titles + [item];
        }
      }
      TakeAll(via.items);
    } else if via.Str? {
      advisories := advisories + [via];
      titles := titles + [via];
      OneText([via]);
    }
  }

  lemma OneText(items: seq<Json>)
    requires |items| == 1 && items[0].Str?
    ensures ViaIds(items) == items && ViaTitles(items) == items
  {
    assert items[..0] == [] && items == [items[0]];
  }

  method KeepIds(name: Json, severity: Json, advisories: seq<Json>) returns (own: seq<Finding>)
    ensures own == KeptIds(name, severity, advisories)
  {
    own := [];
    for k := 0 to |advisories|
      invariant own == KeptIds(name, severity, advisories[..k])
    {
      PrefixNext(advisories, k);
      if Truthy(advisories[k]) {
        own := own + [Finding(name, severity, advisories[k])];
      }
    }
    TakeAll(advisories);
  }

  // ---------------------------------------------------------------- what is yielded, and in which order

  /** A place of the report a finding can come from: an advisory, or an item of a package's `via`. */
  datatype Origin = FromAdvisory(member: nat) | FromVia(member: nat, item: nat)

  /** Advisories come before packages, members in the order of their section, items in list order. */
  predicate Before(a: Origin, b: Origin) {
    match (a, b)
    case (FromAdvisory(m), FromAdvisory(n)) => m < n
    case (FromAdvisory(_), FromVia(_, _)) => true
    case (FromVia(_, _), FromAdvisory(_)) => false
    case (FromVia(m, j), FromVia(n, k)) => m < n || (m == n && j < k)
  }

  function ViaYield(members: seq<(string, Json)>, m: nat, k: nat): Option<Finding> {
    if m < |members| && members[m].1.Object? && k < |ViaOf(members[m].1.fields)| then
      var fields := members[m].1.fields;
      var id := ItemId(ViaOf(fields)[k]);
      if id.Some? then Some(Finding(Str(members[m].0), Get(fields, "severity"), id.value)) else None
    else None
  }

  function AdvisoryYield(py: Python, members: seq<(string, Json)>, m: nat): Option<Finding> {
    if m < |members| && AdvisoryFinding(py, members[m].1).Ok? then Some(AdvisoryFinding(py, members[m].1).value)
    else None
  }

  /** The finding that comes from this place, if one does. */
  function YieldAt(py: Python, data: Json, o: Origin): Option<Finding> {
    match o
    case FromAdvisory(m) => AdvisoryYield(py, Section(data, "advisories"), m)
    case FromVia(m, k) => ViaYield(Section(data, "vulnerabilities"), m, k)
  }

  ghost predicate Ascending(origins: seq<Origin>) {
    forall a, b :: 0 <= a < b < |origins| ==> Before(origins[a], origins[b])
  }

  /** These are the places of the first m members' advisories that yield, with what they yield. */
  ghost predicate AdvisoriesListed(py: Python, members: seq<(string, Json)>, m: nat, origins: seq<Origin>,
                                   fs: seq<Finding>)
  {
    && |origins| == |fs| && Ascending(origins)
    && (forall n :: 0 <= n < |fs| ==>
          origins[n].FromAdvisory? && origins[n].member < m
          && AdvisoryYield(py, members, origins[n].member) == Some(fs[n]))
    && (forall k :: 0 <= k < m && AdvisoryYield(py, members, k).Some? ==> FromAdvisory(k) in origins)
  }

  lemma {:induction false} ListAdvisories(py: Python, members: seq<(string, Json)>, m: nat)
    returns (origins: seq<Origin>)
    requires m <= |members|
    ensures AdvisoriesListed(py, members, m, origins, AdvisoryFindings(py, members[..m]))
  {
    if m == 0 {
      origins := [];
    } else {
      var before := ListAdvisories(py, members, m - 1);
      PrefixNext(members, m - 1);
      origins := before + if AdvisoryFinding(py, members[m - 1].1).Ok? then [FromAdvisory(m - 1)] else [];
    }
  }

  /** These are the items of member m that yield, up to the k-th, with what they yield. */
  ghost predicate ItemsListed(members: seq<(string, Json)>, m: nat, k: nat, origins: seq<Origin>, fs: seq<Finding>) {
    && |origins| == |fs| && Ascending(origins)
    && (forall n :: 0 <= n < |fs| ==>
          origins[n].FromVia? && origins[n].member == m && origins[n].item < k
          && ViaYield(members, m, origins[n].item) == Some(fs[n]))
    && (forall j :: 0 <= j < k && ViaYield(members, m, j).Some? ==> FromVia(m, j) in origins)
  }

  lemma MoreItems(members: seq<(string, Json)>, m: nat, k: nat, before: seq<Origin>, fs: seq<Finding>)
    requires ItemsListed(members, m, k, before, fs)
    ensures var last := ViaYield(members, m, k);
            if last.Some? then ItemsListed(members, m, k + 1, before + [FromVia(m, k)], fs + [last.value])
            else ItemsListed(members, m, k + 1, before, fs)
  {
  }

  lemma {:induction false} ListItems(members: seq<(string, Json)>, m: nat, k: nat) returns (origins: seq<Origin>)
    requires m < |members| && members[m].1.Object? && k <= |ViaOf(members[m].1.fields)|
    ensures ItemsListed(members, m, k, origins,
              KeptFindings(Str(members[m].0), Get(members[m].1.fields, "severity"), ViaOf(members[m].1.fields)[..k]))
  {
    if k == 0 {
      origins := [];
    } else {
      var items := ViaOf(members[m].1.fields);
      var before := ListItems(members, m, k - 1);
      PrefixNext(items, k - 1);
      var fs := KeptFindings(Str(members[m].0), Get(members[m].1.fields, "severity"), items[..k - 1]);
      MoreItems(members, m, k - 1, before, fs);
      origins := if ItemId(items[k - 1]).Some? then before + [FromVia(m, k - 1)] else before;
      assert fs + [] == fs;
    }
  }

  /** These are the items of the first m members that yield, with what they yield. */
  ghost predicate PackagesListed(members: seq<(string, Json)>, m: nat, origins: seq<Origin>, fs: seq<Finding>) {
    && |origins| == |fs| && Ascending(origins)
    && (forall n :: 0 <= n < |fs| ==>
          origins[n].FromVia? && origins[n].member < m
          && ViaYield(members, origins[n].member, origins[n].item) == Some(fs[n]))
    && (forall i, j :: 0 <= i < m && 0 <= j && ViaYield(members, i, j).Some? ==> FromVia(i, j) in origins)
  }

  lemma AscendingBoth(a: seq<Origin>, b: seq<Origin>)
    requires Ascending(a) && Ascending(b) && forall i, j :: 0 <= i < |a| && 0 <= j < |b| ==> Before(a[i], b[j])
    ensures Ascending(a + b)
  {
  }

  lemma MorePackages(members: seq<(string, Json)>, m: nat, before: seq<Origin>, fs: seq<Finding>, own: seq<Origin>,
                     gs: seq<Finding>, k: nat)
    requires PackagesListed(members, m, before, fs) && ItemsListed(members, m, k, own, gs)
    requires forall j :: j >= k ==> ViaYield(members, m, j).None?
    ensures PackagesListed(members, m + 1, before + own, fs + gs)
  {
    var all := before + own;
    AscendingBoth(before, own);
    forall n | 0 <= n < |all|
      ensures all[n].FromVia? && all[n].member < m + 1
      ensures ViaYield(members, all[n].member, all[n].item) == Some((fs + gs)[n])
    {
      assert n >= |before| ==> all[n] == own[n - |before|] && (fs + gs)[n] == gs[n - |before|];
    }
    forall i, j | 0 <= i < m + 1 && 0 <= j && ViaYield(members, i, j).Some? ensures FromVia(i, j) in all {
      assert i < m ==> FromVia(i, j) in before;
      assert i == m ==> FromVia(i, j) in own;
    }
  }

  lemma {:induction false} ListPackages(members: seq<(string, Json)>, m: nat) returns (origins: seq<Origin>)
    requires m <= |members|
    ensures PackagesListed(members, m, origins, AllPackageFindings(members[..m]))
  {
    if m == 0 {
      origins := [];
    } else {
      var before := ListPackages(members, m - 1);
      PrefixNext(members, m - 1);
      var vuln := members[m - 1].1;
      var fs := AllPackageFindings(members[..m - 1]);
      if vuln.Object? {
        var k := |ViaOf(vuln.fields)|;
        var own := ListItems(members, m - 1, k);
        TakeAll(ViaOf(vuln.fields));
        MorePackages(members, m - 1, before, fs, own, PackageFindings(members[m - 1].0, vuln), k);
        origins := before + own;
      } else {
        MorePackages(members, m - 1, before, fs, [], [], 0);
        origins := before + [];
      }
    }
  }

  /** The places the findings come from, in the order in which they are yielded. */
  ghost predicate Yielded(py: Python, data: Json, origins: seq<Origin>, fs: seq<Finding>) {
    && |origins| == |fs| && Ascending(origins)
    && (forall n :: 0 <= n < |fs| ==> YieldAt(py, data, origins[n]) == Some(fs[n]))
    && (forall o: Origin :: YieldAt(py, data, o).Some? ==> o in origins)
  }

  /**
   * The findings are what the places that yield do yield, each place once and in the order of the report: advisories
   * before packages, members in order, items of `via` in order. Nothing else is yielded and nothing is left out.
   */
  lemma FindingsInOrder(py: Python, data: Json) returns (origins: seq<Origin>)
    requires Findings(py, data).Ok?
    ensures Yielded(py, data, origins, Findings(py, data).value)
  {
    var advisories, packages := Section(data, "advisories"), Section(data, "vulnerabilities");
    var a := ListAdvisories(py, advisories, |advisories|);
    var b := ListPackages(packages, |packages|);
    TakeAll(advisories);
    TakeAll(packages);
    origins := a + b;
    forall o: Origin | YieldAt(py, data, o).Some? ensures o in origins {
      assert o.FromAdvisory? ==> o in a;
      assert o.FromVia? ==> FromVia(o.member, o.item) in b;
    }
  }

  /** The order of precedence of an advisory's ids. */
  lemma AdvisoryIdPrecedence(py: Python, a: seq<(string, Json)>)
    requires FirstCve(Get(a, "cves")).Ok?
    ensures PickAdvisoryId(py, a) == Ok(FirstTruthy([
              Get(a, "github_advisory_id"), Get(a, "url"), FirstCve(Get(a, "cves")).value, IdText(py, Get(a, "id")),
              Get(a, "title"), Get(a, "advisory"), Get(a, "overview")]))
  {
    var rest := [FirstCve(Get(a, "cves")).value, IdText(py, Get(a, "id")), Get(a, "title"), Get(a, "advisory"),
                 Get(a, "overview")];
    var fromUrl := [Get(a, "url")] + rest;
    var all := [Get(a, "github_advisory_id")] + fromUrl;
    assert all[1..] == fromUrl && fromUrl[1..] == rest;
    assert all == [Get(a, "github_advisory_id"), Get(a, "url"), FirstCve(Get(a, "cves")).value,
                   IdText(py, Get(a, "id")),
                   Get(a, "title"), Get(a, "advisory"), Get(a, "overview")];
  }

  /** Python's truth: only None, false, zero and the empty text, list and object are falsy. */
  lemma Falsy(v: Json)
    ensures !Truthy(v) <==>
              || v == Null || v == Bool(false) || v == Str("") || v == List([]) || v == Object([])
              || (v.Number? && v.zero)
  {
  }

  /** The keys of a decoded object are distinct. */
  predicate DistinctMembers(fields: seq<(string, Json)>) {
    forall i, j :: 0 <= i < j < |fields| ==> fields[i].0 != fields[j].0
  }

  /** `get` finds the member with the key, and nothing if there is none. */
  lemma {:induction false} GetMember(fields: seq<(string, Json)>, key: string)
    requires DistinctMembers(fields)
    ensures forall k :: 0 <= k < |fields| && fields[k].0 == key ==> Get(fields, key) == fields[k].1
    ensures (forall k :: 0 <= k < |fields| ==> fields[k].0 != key) ==> Get(fields, key) == Null
    ensures Has(fields, key) <==> exists k :: 0 <= k < |fields| && fields[k].0 == key
  {
    if fields != [] {
      GetMember(fields[1..], key);
      assert forall k :: 1 <= k < |fields| ==> fields[k] == fields[1..][k - 1];
      if fields[0].0 == key {
        assert forall k :: 1 <= k < |fields| ==> fields[k].0 != key;
      }
    }
  }

  /** What an advisory yields: its module name or else its name, its severity, and the id that precedence picks. */
  lemma AdvisoryYields(py: Python, a: seq<(string, Json)>)
    requires AdvisoryFinding(py, Object(a)).Ok?
    ensures var f := AdvisoryFinding(py, Object(a)).value;
            && f.name == (if Truthy(Get(a, "module_name")) then Get(a, "module_name") else Get(a, "name"))
            && f.severity == Get(a, "severity")
            && Ok(f.advisory) == PickAdvisoryId(py, a)
  {
    var names := [Get(a, "module_name"), Get(a, "name")];
    assert names[1..] == [Get(a, "name")];
  }

  /** The order of precedence of an advisory's ids, value by value; of CVE ids the first counts. */
  lemma AdvisoryIdIs(py: Python, a: seq<(string, Json)>)
    requires FirstCve(Get(a, "cves")).Ok?
    ensures PickAdvisoryId(py, a) == Ok(
              if Truthy(Get(a, "github_advisory_id")) then Get(a, "github_advisory_id")
              else if Truthy(Get(a, "url")) then Get(a, "url")
              else if Get(a, "cves").List? && Get(a, "cves").items != [] && Truthy(Get(a, "cves").items[0])
              then Get(a, "cves").items[0]
              else if Get(a, "cves").Str? && Get(a, "cves").s != "" then Str(Get(a, "cves").s[..1])
              else if !Get(a, "id").Null? && Text(py, Get(a, "id")) != "" then Str(Text(py, Get(a, "id")))
              else if Truthy(Get(a, "title")) then Get(a, "title")
              else if Truthy(Get(a, "advisory")) then Get(a, "advisory") else Get(a, "overview"))
  {
    var cve, id := FirstCve(Get(a, "cves")).value, IdText(py, Get(a, "id"));
    var title, advisory, overview := Get(a, "title"), Get(a, "advisory"), Get(a, "overview");
    FirstOfFive(cve, id, title, advisory, overview);
  }

  lemma FirstOr(a: Json, rest: seq<Json>)
    requires rest != []
    ensures FirstTruthy([a] + rest) == if Truthy(a) then a else FirstTruthy(rest)
  {
    assert ([a] + rest)[1..] == rest;
  }

  lemma FirstOfFour(a: Json, b: Json, c: Json, d: Json)
    ensures FirstTruthy([a, b, c, d]) == if Truthy(a) then a else if Truthy(b) then b else if Truthy(c) then c else d
  {
    FirstOr(a, [b, c, d]);
    FirstOr(b, [c, d]);
    FirstOr(c, [d]);
    assert [a, b, c, d] == [a] + [b, c, d] && [b, c, d] == [b] + [c, d] && [c, d] == [c] + [d];
  }

  lemma FirstOfFive(a: Json, b: Json, c: Json, d: Json, e: Json)
    ensures FirstTruthy([a, b, c, d, e])
         == if Truthy(a) then a else if Truthy(b) then b else if Truthy(c) then c else if Truthy(d) then d else e
  {
    FirstOr(a, [b, c, d, e]);
    FirstOfFour(b, c, d, e);
    assert [a, b, c, d, e] == [a] + [b, c, d, e];
  }

  /** The order of precedence of a `via` object's ids, and of its titles. */
  lemma ViaPrecedence(item: seq<(string, Json)>)
    ensures ViaId(item)
         == if Truthy(Get(item, "github_advisory_id")) then Get(item, "github_advisory_id")
            else if Truthy(Get(item, "url")) then Get(item, "url")
            else if Truthy(Get(item, "source")) then Get(item, "source")
            else if Truthy(Get(item, "title")) then Get(item, "title") else Get(item, "name")
    ensures TitleOf(item)
         == if Truthy(Get(item, "title")) then Get(item, "title")
            else if Truthy(Get(item, "url")) then Get(item, "url")
            else if Truthy(Get(item, "advisory")) then Get(item, "advisory") else Get(item, "source")
  {
    FirstOfFive(Get(item, "github_advisory_id"), Get(item, "url"), Get(item, "source"), Get(item, "title"),
                Get(item, "name"));
    FirstOfFour(Get(item, "title"), Get(item, "url"), Get(item, "advisory"), Get(item, "source"));
  }

  /** What a package's `via` yields at one place: the package's name and severity, with an object's or a text's id. */
  lemma ViaYields(name: string, vuln: seq<(string, Json)>, items: seq<Json>, k: nat)
    requires Get(vuln, "via") == List(items) && Has(vuln, "via") && k < |items|
    ensures ViaYield([(name, Object(vuln))], 0, k)
         == match items[k]
            case Object(item) =>
              if Truthy(ViaId(item)) then Some(Finding(Str(name), Get(vuln, "severity"), ViaId(item))) else None
            case Str(s) => if s != "" then Some(Finding(Str(name), Get(vuln, "severity"), Str(s))) else None
            case _ => None
  {
  }

  /** A report with one advisory, and nothing else. */
  function OneAdvisory(id: string, a: seq<(string, Json)>): Json {
    Object([("advisories", Object([(id, Object(a))]))])
  }

  /** A report with one vulnerable package, and nothing else. */
  function OnePackage(name: string, vuln: seq<(string, Json)>): Json {
    Object([("vulnerabilities", Object([(name, Object(vuln))]))])
  }

  /** A report with one advisory yields what the advisory does. */
  lemma OneAdvisoryYields(py: Python, id: string, a: seq<(string, Json)>)
    ensures Findings(py, OneAdvisory(id, a))
         == match AdvisoryFinding(py, Object(a)) case Ok(f) => Ok([f]) case Err(e) => Err(e)
  {
    var data, members := OneAdvisory(id, a), [(id, Object(a))];
    OneMember("advisories", "vulnerabilities", members);
    assert Section(data, "advisories") == members && Section(data, "vulnerabilities") == [];
    assert AdvisoryFinding(py, members[0].1) == AdvisoryFinding(py, Object(a));
    assert ReportCrashes(py, data) <==> AdvisoryFinding(py, Object(a)).Err?;
    assert members[..0] == [] && AllPackageFindings([]) == [] && AdvisoryFindings(py, members[..0]) == [];
    var found := AdvisoryFinding(py, Object(a));
    if found.Ok? {
      assert AdvisoryFindings(py, members) == [found.value];
      assert [found.value] + [] == [found.value];
    }
  }

  lemma OneMember(there: string, other: string, members: seq<(string, Json)>)
    requires there != other
    ensures var data := Object([(there, Object(members))]);
            Section(data, there) == members && Section(data, other) == []
  {
    var fields := [(there, Object(members))];
    assert fields[0].0 == there && fields[1..] == [] && Get(fields, other) == Null;
  }

  /** A package whose `via` is one text yields that text under the package's name and severity; an empty one nothing. */
  lemma OneTextYields(py: Python, name: string, vuln: seq<(string, Json)>, s: string)
    requires Has(vuln, "via") && Get(vuln, "via") == Str(s)
    ensures Findings(py, OnePackage(name, vuln))
         == Ok(if s != "" then [Finding(Str(name), Get(vuln, "severity"), Str(s))] else [])
  {
    OnePackageYields(py, name, vuln, Str(s));
  }

  /** A package with one `via` object yields the object's id, if it has one, or crashes on a title that is no text. */
  lemma OneItemYields(py: Python, name: string, vuln: seq<(string, Json)>, item: seq<(string, Json)>)
    requires Has(vuln, "via") && Get(vuln, "via") == List([Object(item)])
    ensures Findings(py, OnePackage(name, vuln))
         == if Truthy(TitleOf(item)) && !TitleOf(item).Str? then Err(Crash)
            else Ok(if Truthy(ViaId(item)) then [Finding(Str(name), Get(vuln, "severity"), ViaId(item))] else [])
  {
    OnePackageYields(py, name, vuln, Object(item));
  }

  lemma OnePackageYields(py: Python, name: string, vuln: seq<(string, Json)>, item: Json)
    requires ViaOf(vuln) == [item]
    ensures Findings(py, OnePackage(name, vuln))
         == if !TitleJoins(item) then Err(Crash)
            else Ok(if ItemId(item).Some? then [Finding(Str(name), Get(vuln, "severity"), ItemId(item).value)] else [])
  {
    var data, members := OnePackage(name, vuln), [(name, Object(vuln))];
    OneMember("vulnerabilities", "advisories", members);
    assert Section(data, "vulnerabilities") == members && Section(data, "advisories") == [];
    assert members[0].1 == Object(vuln) && ViaOf(vuln)[0] == item;
    assert PackageCrashes(Object(vuln)) <==> !TitleJoins(item);
    assert ReportCrashes(py, data) <==> PackageCrashes(members[0].1);
    assert members[..0] == [] && AllPackageFindings(members[..0]) == [] && AdvisoryFindings(py, []) == [];
    KeptOne(Str(name), Get(vuln, "severity"), item);
  }

  lemma KeptOne(name: Json, severity: Json, item: Json)
    ensures KeptFindings(name, severity, [item])
         == if ItemId(item).Some? then [Finding(name, severity, ItemId(item).value)] else []
  {
    var items := [item];
    assert items[..0] == [] && KeptFindings(name, severity, items[..0]) == [];
  }

  // ---------------------------------------------------------------- crashes

  /**
   * An advisory aborts the run exactly when it is no object, or has only CVE ids to go by and they are no list or text.
   */
  lemma AdvisoryCrashIff(py: Python, advisory: Json)
    ensures AdvisoryFinding(py, advisory).Err? <==>
              !advisory.Object?
              || (&& !Truthy(Get(advisory.fields, "github_advisory_id")) && !Truthy(Get(advisory.fields, "url"))
                  && Truthy(Get(advisory.fields, "cves"))
                  && !Get(advisory.fields, "cves").List? && !Get(advisory.fields, "cves").Str?)
  {
  }

  /**
   * An item with a numeric source that is not zero always has an id to report. Its title joins exactly when the first
   * truthy one of title, url and advisory exists and is a text; otherwise its package, and with it the run, crashes.
   */
  lemma NumericSource(py: Python, data: Json, m: nat, k: nat)
    requires m < |Section(data, "vulnerabilities")| && Section(data, "vulnerabilities")[m].1.Object?
    requires var items := ViaOf(Section(data, "vulnerabilities")[m].1.fields);
             k < |items| && items[k].Object? && Get(items[k].fields, "source").Number?
             && !Get(items[k].fields, "source").zero
    ensures var item := ViaOf(Section(data, "vulnerabilities")[m].1.fields)[k].fields;
            var title := FirstTruthy([Get(item, "title"), Get(item, "url"), Get(item, "advisory")]);
            && ItemId(Object(item)).Some?
            && (TitleJoins(Object(item)) <==> Truthy(title) && title.Str?)
            && (!(Truthy(title) && title.Str?) ==> Findings(py, data).Err?)
  {
    var item := ViaOf(Section(data, "vulnerabilities")[m].1.fields)[k].fields;
    var titles := [Get(item, "title"), Get(item, "url"), Get(item, "advisory")];
    OrLast(titles, Get(item, "source"));
    assert titles + [Get(item, "source")]
           == [Get(item, "title"), Get(item, "url"), Get(item, "advisory"), Get(item, "source")];
    SourceIsId(item);
    if !TitleJoins(Object(item)) {
      assert PackageCrashes(Section(data, "vulnerabilities")[m].1);
    }
  }

  lemma SourceIsId(item: seq<(string, Json)>)
    requires Truthy(Get(item, "source"))
    ensures Truthy(ViaId(item))
  {
    var values := [Get(item, "github_advisory_id"), Get(item, "url"), Get(item, "source"), Get(item, "title"),
                   Get(item, "name")];
    assert Truthy(values[2]);
  }
}
