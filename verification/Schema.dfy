/** Rows, query specs and column projection of the accounts / account_groups / groups tables. */
module Schema {
  import opened Wrappers
  import opened AccountFields

  /** `rest` stands for the columns that no edge depends on; filters may still look at them. */
  datatype AccountRow = AccountRow(id: int, parentId: Option<int>, rest: map<string, string>)

  /** A row of the join table. Its key is the pair of ids. */
  datatype LinkRow = LinkRow(accountId: int, groupId: int, rest: map<string, string>)

  /** `numbers` are its other integer columns. */
  datatype GroupRow = GroupRow(id: int, numbers: map<string, int>, rest: map<string, string>)

  datatype Snapshot = Snapshot(accounts: seq<AccountRow>, links: seq<LinkRow>, groups: seq<GroupRow>)

  datatype AccountPred = IDIn(ids: seq<int>) | ParentIn(ids: seq<int>) | AccountFilter(test: AccountRow -> bool)

  datatype LinkPred = AccountIn(ids: seq<int>) | LinkFilter(test: LinkRow -> bool)

  datatype GroupPred = GroupIDIn(ids: seq<int>) | GroupFilter(test: GroupRow -> bool)

  /**
   * An AccountQuery as far as loading depends on it; an edge is requested when its sub-query is present. Of
   * the proxy edge only the key column matters here, which a requested one adds.
   */
  datatype AccountSpec = AccountSpec(
    fields: seq<Column>,
    where: seq<AccountPred>,
    withProxy: bool,
    groups: Option<GroupSpec>,
    parent: Option<AccountSpec>,
    children: Option<AccountSpec>,
    links: Option<LinkSpec>)

  datatype LinkSpec = LinkSpec(
    fields: seq<LinkColumn>,
    where: seq<LinkPred>,
    account: Option<AccountSpec>,
    group: Option<GroupSpec>)

  /**
   * `joins` are the account ids of the join closures that earlier runs of the loader left on the builder; a query that
   * was not run before has none.
   */
  datatype GroupSpec = GroupSpec(fields: seq<GroupColumn>, where: seq<GroupPred>, joins: seq<seq<int>>)

  // ---------------------------------------------------------------- which rows a query selects

  predicate AccountHolds(p: AccountPred, r: AccountRow) {
    match p
    case IDIn(ids) => r.id in ids
    case ParentIn(ids) => r.parentId.Some? && r.parentId.value in ids
    case AccountFilter(test) => test(r)
  }

  predicate LinkHolds(p: LinkPred, r: LinkRow) {
    match p
    case AccountIn(ids) => r.accountId in ids
    case LinkFilter(test) => test(r)
  }

  predicate GroupHolds(p: GroupPred, r: GroupRow) {
    match p
    case GroupIDIn(ids) => r.id in ids
    case GroupFilter(test) => test(r)
  }

  function KeepAccount(where: seq<AccountPred>): AccountRow -> bool {
    r => forall k :: 0 <= k < |where| ==> AccountHolds(where[k], r)
  }

  function KeepLink(where: seq<LinkPred>): LinkRow -> bool {
    r => forall k :: 0 <= k < |where| ==> LinkHolds(where[k], r)
  }

  function KeepGroup(where: seq<GroupPred>): GroupRow -> bool {
    r => forall k :: 0 <= k < |where| ==> GroupHolds(where[k], r)
  }

  /** Conditions that a client set, each a test of the row. */
  predicate OnlyTests(where: seq<AccountPred>) {
    forall k :: 0 <= k < |where| ==> where[k].AccountFilter?
  }

  predicate OnlyLinkTests(where: seq<LinkPred>) {
    forall k :: 0 <= k < |where| ==> where[k].LinkFilter?
  }

  predicate OnlyGroupTests(where: seq<GroupPred>) {
    forall k :: 0 <= k < |where| ==> where[k].GroupFilter?
  }

  /** The rows that pass, in table order. */
  function Filter<R>(rows: seq<R>, keep: R -> bool): seq<R> {
    if rows == [] then []
    else (if keep(rows[0]) then [rows[0]] else []) + Filter(rows[1..], keep)
  }

  // ---------------------------------------------------------------- which columns a query reads

  /** The columns of the join table. */
  datatype LinkColumn = AccountID | GroupID | JoinPriority | JoinCreatedAt | OtherJoin(name: string)

  const LinkColumns := [AccountID, GroupID, JoinPriority, JoinCreatedAt]

  /** A column of a group query: its id, another integer column, one of another type, or none that a group has. */
  datatype GroupColumn = GroupKey | IntegerField(name: string) | OtherField(name: string) | Foreign(name: string)

  const GroupColumns := [GroupKey] + GroupFields

  const GroupFields := [
    OtherField("created_at"), OtherField("updated_at"), OtherField("deleted_at"), OtherField("name"),
    OtherField("description"), OtherField("rate_multiplier"), OtherField("peak_rate_enabled"),
    OtherField("peak_start"), OtherField("peak_end"), OtherField("peak_rate_multiplier"), OtherField("is_exclusive"),
    OtherField("status"), OtherField("duplicate_operation_id"), OtherField("platform"),
    OtherField("subscription_type"), OtherField("daily_limit_usd"), OtherField("weekly_limit_usd"),
    OtherField("monthly_limit_usd"), IntegerField("default_validity_days"), OtherField("allow_image_generation"),
    OtherField("allow_batch_image_generation"), OtherField("image_rate_independent"),
    OtherField("image_rate_multiplier"), OtherField("image_price_1k"), OtherField("image_price_2k"),
    OtherField("image_price_4k"), OtherField("batch_image_discount_multiplier"),
    OtherField("batch_image_hold_multiplier"), OtherField("video_rate_independent"),
    OtherField("video_rate_multiplier"), OtherField("video_price_480p"), OtherField("video_price_720p"),
    OtherField("video_price_1080p"), OtherField("web_search_price_per_call"), OtherField("claude_code_only"),
    IntegerField("fallback_group_id"), IntegerField("fallback_group_id_on_invalid_request"),
    OtherField("model_routing"), OtherField("model_routing_enabled"), OtherField("mcp_xml_inject"),
    OtherField("supported_model_scopes"), IntegerField("sort_order"), OtherField("allow_messages_dispatch"),
    OtherField("allow_live"), OtherField("require_oauth_only"), OtherField("require_privacy_set"),
    OtherField("default_mapped_model"), OtherField("messages_dispatch_model_config"),
    OtherField("models_list_config"), IntegerField("rpm_limit"), OtherField("max_reasoning_effort"),
    OtherField("reasoning_effort_mappings")]

  function Without<C(==)>(fields: seq<C>, name: C): seq<C> {
    if fields == [] then []
    else (if fields[0] == name then [] else [fields[0]]) + Without(fields[1..], name)
  }

  function AddOnce<C(==)>(columns: seq<C>, name: C): seq<C> {
    if name in columns then columns else columns + [name]
  }

  /** `AppendFieldOnce`, applied only when a selection is active: an empty selection reads all columns. */
  function WithKey<C(==)>(fields: seq<C>, key: C): seq<C> {
    if fields == [] then fields else AddOnce(fields, key)
  }

  /**
   * The columns of an account query: the id first, then the selection, then the keys of a requested proxy and parent.
   */
  function AccountRead(fields: seq<Column>, withProxy: bool, withParent: bool): seq<Column> {
    if fields == [] then AllColumns
    else
      var c1 := [ID] + Without(fields, ID);
      var c2 := if withProxy then AddOnce(c1, ProxyID) else c1;
      if withParent then AddOnce(c2, ParentAccountID) else c2
  }

  /** The columns of a join-row query, which has no id column; the keys of requested edges are added. */
  function LinkRead(fields: seq<LinkColumn>, withAccount: bool, withGroup: bool): seq<LinkColumn> {
    if fields == [] then LinkColumns
    else
      var c1 := if withAccount then AddOnce(fields, AccountID) else fields;
      if withGroup then AddOnce(c1, GroupID) else c1
  }

  /** The columns of a group query: the id first, then the selection. */
  function GroupRead(fields: seq<GroupColumn>): seq<GroupColumn> {
    if fields == [] then GroupColumns else [GroupKey] + Without(fields, GroupKey)
  }

  /** A scanned account: the struct fields loading looks at. A column that was not read leaves the zero value. */
  datatype AccountNode = AccountNode(id: int, parentId: Option<int>)

  datatype LinkNode = LinkNode(accountId: int, groupId: int)

  function ScanAccount(columns: seq<Column>, r: AccountRow): AccountNode {
    AccountNode(if ID in columns then r.id else 0, if ParentAccountID in columns then r.parentId else None)
  }

  function ScanLink(columns: seq<LinkColumn>, r: LinkRow): LinkNode {
    LinkNode(if AccountID in columns then r.accountId else 0, if GroupID in columns then r.groupId else 0)
  }

  /**
   * A scan destination of a row, as far as it matters: a null integer, read as zero when it is NULL, or another type.
   */
  datatype GroupSlot = IntegerSlot(n: int) | OtherSlot

  function ScanGroupColumn(c: GroupColumn, r: GroupRow): GroupSlot {
    match c
    case GroupKey => IntegerSlot(r.id)
    case IntegerField(name) => IntegerSlot(if name in r.numbers then r.numbers[name] else 0)
    case OtherField(_) | Foreign(_) => OtherSlot
  }

  /** The id a scanned group node gets. */
  function ScanGroup(columns: seq<GroupColumn>, r: GroupRow): int {
    if GroupKey in columns then r.id else 0
  }

  /** What the closure of one run does to the selected columns: the join table's account id goes in front of them. */
  function JoinSelect(selected: seq<GroupColumn>): seq<GroupColumn> {
    [Foreign("account_id")] + selected
  }

  /** The selected columns once the closures of this many runs have been applied. */
  function Selection(runs: nat, base: seq<GroupColumn>): seq<GroupColumn> {
    if runs == 0 then base else JoinSelect(Selection(runs - 1, base))
  }

  /** The scan destinations of a joined row: an integer for the first column, then what a group makes of the others. */
  function JoinedSlots(selected: seq<GroupColumn>, accountId: int, r: GroupRow): seq<GroupSlot>
    requires selected != []
  {
    [IntegerSlot(accountId)]
    + seq(|selected| - 1, k requires 0 <= k < |selected| - 1 => ScanGroupColumn(selected[k + 1], r))
  }

  /** What the loader reads by position: the account id, then the group id; None where that column is no integer. */
  function ReadJoined(selected: seq<GroupColumn>, accountId: int, r: GroupRow): Option<(int, int)>
    requires selected != []
  {
    var slots := JoinedSlots(selected, accountId, r);
    if |slots| > 1 && slots[0].IntegerSlot? && slots[1].IntegerSlot? then Some((slots[0].n, slots[1].n)) else None
  }

  /**
   * Whatever is selected, the first run reads the account's id and the group's id, and the node gets the group's id.
   */
  lemma FirstRunReads(fields: seq<GroupColumn>, accountId: int, r: GroupRow)
    ensures var selected := Selection(1, GroupRead(fields));
            && |selected| > 1 && selected[1..] == GroupRead(fields)
            && ReadJoined(selected, accountId, r) == Some((accountId, r.id))
            && ScanGroup(selected[1..], r) == r.id
  {
    assert GroupColumns == [GroupKey] + GroupFields;
    var base := GroupRead(fields);
    var selected := Selection(1, base);
    assert Selection(0, base) == base && selected == [Foreign("account_id")] + base;
    assert base[0] == GroupKey && selected[1] == GroupKey;
    assert JoinedSlots(selected, accountId, r)[1] == ScanGroupColumn(selected[1], r);
  }

  /** From the second run on, the second column is an account id, which a group cannot scan. */
  lemma LaterRunsRead(runs: nat, base: seq<GroupColumn>, accountId: int, r: GroupRow)
    requires runs > 1
    ensures Selection(runs, base) != [] && ReadJoined(Selection(runs, base), accountId, r) == None
  {
    var selected := Selection(runs, base);
    assert selected == JoinSelect(Selection(runs - 1, base));
    assert Selection(runs - 1, base) == JoinSelect(Selection(runs - 2, base));
    assert selected[1] == Foreign("account_id");
    assert JoinedSlots(selected, accountId, r)[1] == ScanGroupColumn(selected[1], r);
  }

  /** The parent key a mutation sets. */
  function ParentOf(m: Fields): Option<int> {
    if ParentAccountID in m && m[ParentAccountID].Int? then Some(m[ParentAccountID].n) else None
  }

  lemma ParentCell(m: Fields)
    requires TypedMutation(m)
    ensures Cell(CreatedNode(m), ParentAccountID) == if ParentOf(m).Some? then Some(Int(ParentOf(m).value)) else None
  {
    if ParentAccountID in m {
      assert HasGoType(ParentAccountID, m[ParentAccountID]);
    }
  }

  /**
   * `ScanAccount` is what scanning and assigning an inserted row gives, seen through the two fields loading looks at.
   */
  lemma ScanAccountIsAssigned(codec: Codec, m: Fields, row: AccountRow, columns: seq<Column>)
    requires RoundTrips(codec) && TypedMutation(m) && row.parentId == ParentOf(m)
    ensures var slots := ScanRow(InsertedRow(codec, m, row.id), columns);
            && slots.Some?
            && var fields := AssignFrom(codec, columns, slots.value, 0, Struct(map[], map[])).0.fields;
            var node := ScanAccount(columns, row);
            && Cell(fields, ID) == (if ID in columns then Some(Int(node.id)) else None)
            && Cell(fields, ParentAccountID) == (if node.parentId.Some? then Some(Int(node.parentId.value)) else None)
  {
    RowReadsBack(codec, m, row.id, columns);
    ParentCell(m);
    assert Cell(CreatedNode(m)[ID := Int(row.id)], ParentAccountID) == Cell(CreatedNode(m), ParentAccountID);
  }

  lemma {:induction false} WithoutKeeps<C>(fields: seq<C>, name: C, other: C)
    requires other != name
    ensures other in Without(fields, name) <==> other in fields
  {
    if fields != [] {
      WithoutKeeps(fields[1..], name, other);
      assert fields == [fields[0]] + fields[1..];
    }
  }

  /** Whatever is selected, an account query reads the id in first place, and each key whenever it is needed. */
  lemma AccountReadHasKeys(fields: seq<Column>, withProxy: bool, withParent: bool)
    ensures |AccountRead(fields, withProxy, withParent)| > 0 && AccountRead(fields, withProxy, withParent)[0] == ID
    ensures withProxy ==> ProxyID in AccountRead(fields, withProxy, withParent)
    ensures withParent ==> ParentAccountID in AccountRead(fields, withProxy, withParent)
    ensures ParentAccountID in AccountRead(WithKey(fields, ParentAccountID), withProxy, withParent)
  {
    assert AllColumns[0] == ID && AllColumns[10] == ProxyID && AllColumns[30] == ParentAccountID;
    var keyed := WithKey(fields, ParentAccountID);
    WithoutKeeps(keyed, ID, ParentAccountID);
  }

  /** With a selection, an account query reads the id, the selected columns and the keys of requested edges. */
  lemma AccountReadExactly(fields: seq<Column>, withProxy: bool, withParent: bool, c: Column)
    requires fields != []
    ensures c in AccountRead(fields, withProxy, withParent)
            <==> c == ID || c in fields || (withProxy && c == ProxyID) || (withParent && c == ParentAccountID)
  {
    if c != ID {
      WithoutKeeps(fields, ID, c);
    }
  }

  /** A join-row query reads the selected columns and the keys of requested edges; all four without a selection. */
  lemma LinkReadExactly(fields: seq<LinkColumn>, withAccount: bool, withGroup: bool, c: LinkColumn)
    ensures c in LinkRead(fields, withAccount, withGroup)
            <==> if fields == [] then !c.OtherJoin?
                 else c in fields || (withAccount && c == AccountID) || (withGroup && c == GroupID)
  {
    assert LinkColumns[0] == AccountID && LinkColumns[1] == GroupID;
    assert LinkColumns[2] == JoinPriority && LinkColumns[3] == JoinCreatedAt;
  }

  /** With a selection, a group query reads the id and the selected columns. */
  lemma GroupReadExactly(fields: seq<GroupColumn>, c: GroupColumn)
    requires fields != []
    ensures c in GroupRead(fields) <==> c == GroupKey || c in fields
  {
    if c != GroupKey {
      WithoutKeeps(fields, GroupKey, c);
    }
  }

  /** A query without a selection reads every column, so the node of an inserted row comes back whole. */
  lemma UnselectedReadsAll(codec: Codec, m: Fields, id: int, withProxy: bool, withParent: bool)
    requires RoundTrips(codec) && TypedMutation(m)
    ensures var columns := AccountRead([], withProxy, withParent);
            var slots := ScanRow(InsertedRow(codec, m, id), columns);
            && slots.Some?
            && AssignFrom(codec, columns, slots.value, 0, Struct(map[], map[]))
               == (Struct(m[ID := Int(id)], map[]), None)
  {
    var columns := AccountRead([], withProxy, withParent);
    assert ListsAll(columns) by {
      AllColumnsListed();
    }
    NodeReadsBack(codec, m, id, columns);
  }

  lemma LinkReadHasKeys(fields: seq<LinkColumn>, withAccount: bool, withGroup: bool)
    ensures withAccount ==> AccountID in LinkRead(fields, withAccount, withGroup)
    ensures withGroup ==> GroupID in LinkRead(fields, withAccount, withGroup)
    ensures AccountID in LinkRead(WithKey(fields, AccountID), withAccount, withGroup)
  {
    assert LinkColumns[0] == AccountID && LinkColumns[1] == GroupID;
  }

  // ---------------------------------------------------------------- keys

  predicate DistinctAccounts(rows: seq<AccountRow>) {
    forall i, j :: 0 <= i < j < |rows| ==> rows[i].id != rows[j].id
  }

  predicate DistinctGroups(rows: seq<GroupRow>) {
    forall i, j :: 0 <= i < j < |rows| ==> rows[i].id != rows[j].id
  }

  predicate DistinctLinks(rows: seq<LinkRow>) {
    forall i, j :: 0 <= i < j < |rows| ==> rows[i].accountId != rows[j].accountId || rows[i].groupId != rows[j].groupId
  }

  /** The primary keys hold. Nothing is assumed about foreign keys: they may dangle. */
  predicate ValidSnapshot(db: Snapshot) {
    DistinctAccounts(db.accounts) && DistinctGroups(db.groups) && DistinctLinks(db.links)
  }

  lemma {:induction false} FilterMember<R>(rows: seq<R>, keep: R -> bool, r: R)
    ensures r in Filter(rows, keep) <==> r in rows && keep(r)
  {
    if rows != [] {
      FilterMember(rows[1..], keep, r);
      assert rows == [rows[0]] + rows[1..];
    }
  }

  /** Filtering keeps the order: positions in the result come from increasing positions of the table. */
  lemma {:induction false} FilterOrigin<R>(rows: seq<R>, keep: R -> bool, i: nat, j: nat) returns (a: nat, b: nat)
    requires i < j < |Filter(rows, keep)|
    ensures a < b < |rows| && rows[a] == Filter(rows, keep)[i] && rows[b] == Filter(rows, keep)[j]
  {
    var rest := Filter(rows[1..], keep);
    if keep(rows[0]) {
      assert Filter(rows, keep) == [rows[0]] + rest;
      if i == 0 {
        assert rest[j - 1] in rest;
        FilterMember(rows[1..], keep, rest[j - 1]);
        var k :| 0 <= k < |rows[1..]| && rows[1..][k] == rest[j - 1];
        a, b := 0, k + 1;
      } else {
        a, b := FilterOrigin(rows[1..], keep, i - 1, j - 1);
        a, b := a + 1, b + 1;
      }
    } else {
      assert Filter(rows, keep) == rest;
      a, b := FilterOrigin(rows[1..], keep, i, j);
      a, b := a + 1, b + 1;
    }
  }

  lemma FilteredAccountsDistinct(rows: seq<AccountRow>, keep: AccountRow -> bool)
    requires DistinctAccounts(rows)
    ensures DistinctAccounts(Filter(rows, keep))
  {
    forall i, j | 0 <= i < j < |Filter(rows, keep)| ensures Filter(rows, keep)[i].id != Filter(rows, keep)[j].id {
      var a, b := FilterOrigin(rows, keep, i, j);
    }
  }

  lemma FilteredGroupsDistinct(rows: seq<GroupRow>, keep: GroupRow -> bool)
    requires DistinctGroups(rows)
    ensures DistinctGroups(Filter(rows, keep))
  {
    forall i, j | 0 <= i < j < |Filter(rows, keep)| ensures Filter(rows, keep)[i].id != Filter(rows, keep)[j].id {
      var a, b := FilterOrigin(rows, keep, i, j);
    }
  }

  lemma FilteredLinksDistinct(rows: seq<LinkRow>, keep: LinkRow -> bool)
    requires DistinctLinks(rows)
    ensures DistinctLinks(Filter(rows, keep))
  {
    var out := Filter(rows, keep);
    forall i, j | 0 <= i < j < |out| ensures out[i].accountId != out[j].accountId || out[i].groupId != out[j].groupId {
      var a, b := FilterOrigin(rows, keep, i, j);
    }
  }
}
