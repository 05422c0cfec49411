/**
 * Eager loading of whole query trees, at any depth: the batched, column-projected loader against the plain relational
 * lookup of each row's neighbours.
 */
module EagerTree {
  import opened Wrappers
  import opened Sequences
  import opened AccountFields
  import opened Schema
  import opened BatchJoin
  import opened Tables

  /**
   * A returned node. `row` is the table row it was scanned from, which identifies it; an edge is Some once requested. A
   * list edge is kept as a multiset, because its order is the database's. Groups are compared as sets here; their order
   * and uniqueness are `BatchJoin.LinkedExactly` and its neighbours.
   */
  datatype AccountTree = AccountTree(
    row: AccountRow,
    groups: Option<set<GroupRow>>,
    parent: Option<Option<AccountTree>>,
    children: Option<multiset<AccountTree>>,
    links: Option<multiset<LinkTree>>)

  datatype LinkTree = LinkTree(row: LinkRow, account: Option<Option<AccountTree>>, group: Option<Option<GroupRow>>)

  /** `BadColumn` is the failed type assertion on a joined row's columns, which ends the program. */
  datatype LoadError = UnexpectedKey | NilKey | UnexpectedOwner | BadColumn

  /** The order in which the database answers each query. */
  datatype Orders = Orders(
    accounts: (AccountSpec, seq<AccountRow>) -> seq<AccountRow>,
    links: (LinkSpec, seq<LinkRow>) -> seq<LinkRow>,
    groups: (GroupSpec, seq<GroupRow>) -> seq<GroupRow>,
    joined: (GroupSpec, seq<JoinRow>) -> seq<JoinRow>)

  ghost predicate ValidOrders(o: Orders) {
    && (forall q, rows :: multiset(o.accounts(q, rows)) == multiset(rows))
    && (forall q, rows :: multiset(o.links(q, rows)) == multiset(rows))
    && (forall q, rows :: multiset(o.groups(q, rows)) == multiset(rows))
    && (forall q, rows :: multiset(o.joined(q, rows)) == multiset(rows))
  }

  // ---------------------------------------------------------------- the reference: one lookup per node and edge

  /** A join row links one of these accounts to the group. */
  predicate Linked(db: Snapshot, ids: seq<int>, groupId: int) {
    exists l :: l in db.links && l.accountId in ids && l.groupId == groupId
  }

  /** The join closures of earlier runs still apply: the group must be linked to an account of each. */
  predicate JoinsHold(db: Snapshot, q: GroupSpec, groupId: int) {
    forall k :: 0 <= k < |q.joins| ==> Linked(db, q.joins[k], groupId)
  }

  /** The groups of an account: those that pass the edge query's filter and that a join row links it to. */
  function GroupsOf(db: Snapshot, q: GroupSpec, accountId: int): set<GroupRow> {
    set g | g in Filter(db.groups, KeepGroup(q.where)) && JoinsHold(db, q, g.id) && Linked(db, [accountId], g.id)
  }

  /** One node with the requested edges, each looked up for this node alone, from the full row. */
  function Lookup(db: Snapshot, q: AccountSpec, row: AccountRow): AccountTree
    decreases q, 0
  {
    AccountTree(
      row,
      if q.groups == None then None else Some(GroupsOf(db, q.groups.value, row.id)),
      if q.parent == None then None else Some(LookupKey(db, q.parent.value, row.parentId)),
      if q.children == None then None else Some(ChildrenOf(db, q.children.value, row.id)),
      if q.links == None then None else Some(LinksOf(db, q.links.value, row.id)))
  }

  /** The single lookup of one foreign key: nil if the key is, or if no row that passes the edge's filter has it. */
  function LookupKey(db: Snapshot, q: AccountSpec, key: Option<int>): Option<AccountTree>
    decreases q, 1
  {
    if key == None then None
    else match FindAccount(Filter(db.accounts, KeepAccount(q.where)), key.value)
      case None => None
      case Some(r) => Some(Lookup(db, q, r))
  }

  function ChildrenOf(db: Snapshot, q: AccountSpec, id: int): multiset<AccountTree>
    decreases q, 2
  {
    multiset(LookupAll(db, q, Filter(Filter(db.accounts, KeepAccount(q.where)), ChildOf(id))))
  }

  function LookupAll(db: Snapshot, q: AccountSpec, rows: seq<AccountRow>): (ts: seq<AccountTree>)
    ensures |ts| == |rows| && forall k :: 0 <= k < |rows| ==> ts[k] == Lookup(db, q, rows[k])
    decreases q, 1, |rows|
  {
    if rows == [] then [] else [Lookup(db, q, rows[0])] + LookupAll(db, q, rows[1..])
  }

  function LookupLink(db: Snapshot, q: LinkSpec, row: LinkRow): LinkTree
    decreases q, 0
  {
    LinkTree(
      row,
      if q.account == None then None else Some(LookupKey(db, q.account.value, Some(row.accountId))),
      if q.group == None then None else Some(FindKey(db, q.group.value, Some(row.groupId))))
  }

  function FindKey(db: Snapshot, q: GroupSpec, key: Option<int>): Option<GroupRow> {
    if key == None then None else FindGroup(Filter(db.groups, KeepGroup(q.where)), key.value)
  }

  function LinksOf(db: Snapshot, q: LinkSpec, id: int): multiset<LinkTree>
    decreases q, 2
  {
    multiset(LookupLinks(db, q, Filter(Filter(db.links, KeepLink(q.where)), LinkOf(id))))
  }

  function LookupLinks(db: Snapshot, q: LinkSpec, rows: seq<LinkRow>): (ts: seq<LinkTree>)
    ensures |ts| == |rows| && forall k :: 0 <= k < |rows| ==> ts[k] == LookupLink(db, q, rows[k])
    decreases q, 1, |rows|
  {
    if rows == [] then [] else [LookupLink(db, q, rows[0])] + LookupLinks(db, q, rows[1..])
  }

  // ---------------------------------------------------------------- where a query cannot go on

  /** The rows of a query as a set: loading depends on their order only where a list is returned. */
  function Elems<R>(rows: seq<R>): set<R> {
    set r | r in rows
  }

  function IdSet(rows: set<AccountRow>): set<int> {
    set r | r in rows :: r.id
  }

  function ParentSet(rows: set<AccountRow>): set<int> {
    set r | r in rows && r.parentId.Some? :: r.parentId.value
  }

  function OwnerSet(rows: set<LinkRow>): set<int> {
    set r | r in rows :: r.accountId
  }

  function KeyedRows(db: Snapshot, q: AccountSpec, ids: set<int>): set<AccountRow> {
    set r | r in db.accounts && KeepAccount(q.where)(r) && r.id in ids
  }

  function ChildRowsOf(db: Snapshot, q: AccountSpec, ids: set<int>): set<AccountRow> {
    set r | r in db.accounts && KeepAccount(q.where)(r) && r.parentId.Some? && r.parentId.value in ids
  }

  function LinkRowsOf(db: Snapshot, q: LinkSpec, ids: set<int>): set<LinkRow> {
    set r | r in db.links && KeepLink(q.where)(r) && r.accountId in ids
  }

  /** The joined query of a groups edge finds a row for one of these accounts. */
  predicate FindsGroups(db: Snapshot, q: GroupSpec, ids: set<int>) {
    exists id | id in ids :: GroupsOf(db, q, id) != {}
  }

  /**
   * Loading the edges of these rows makes some groups edge of the tree read a joined row; with `again`, one whose query
   * was run before.
   */
  predicate ReadsGroups(db: Snapshot, q: AccountSpec, rows: set<AccountRow>, again: bool)
    decreases q, 1
  {
    && rows != {}
    && (|| EdgeFindsGroups(db, q, IdSet(rows), again)
        || ParentsRead(db, q, ParentSet(rows), again)
        || ChildrenRead(db, q, IdSet(rows), again)
        || LinksRead(db, q, IdSet(rows), again))
  }

  predicate EdgeFindsGroups(db: Snapshot, q: AccountSpec, ids: set<int>, again: bool) {
    q.groups.Some? && (again ==> q.groups.value.joins != []) && FindsGroups(db, q.groups.value, ids)
  }

  predicate ParentsRead(db: Snapshot, q: AccountSpec, ids: set<int>, again: bool)
    decreases q, 0
  {
    q.parent.Some? && ReadsGroups(db, q.parent.value, KeyedRows(db, q.parent.value, ids), again)
  }

  predicate ChildrenRead(db: Snapshot, q: AccountSpec, ids: set<int>, again: bool)
    decreases q, 0
  {
    q.children.Some? && ReadsGroups(db, q.children.value, ChildRowsOf(db, q.children.value, ids), again)
  }

  predicate LinksRead(db: Snapshot, q: AccountSpec, ids: set<int>, again: bool)
    decreases q, 0
  {
    q.links.Some? && LinksReadGroups(db, q.links.value, LinkRowsOf(db, q.links.value, ids), again)
  }

  predicate LinksReadGroups(db: Snapshot, q: LinkSpec, rows: set<LinkRow>, again: bool)
    decreases q, 0
  {
    q.account.Some? && ReadsGroups(db, q.account.value, KeyedRows(db, q.account.value, OwnerSet(rows)), again)
  }

  /** What is read for given rows depends on the edges and not on the query's own fields and conditions. */
  lemma OwnConditionsReads(db: Snapshot, q: AccountSpec, q': AccountSpec, rows: set<AccountRow>, again: bool)
    requires q' == q.(fields := q'.fields, where := q'.where)
    ensures ReadsGroups(db, q, rows, again) <==> ReadsGroups(db, q', rows, again)
  {
    assert EdgeFindsGroups(db, q, IdSet(rows), again) <==> EdgeFindsGroups(db, q', IdSet(rows), again);
    assert ParentsRead(db, q, ParentSet(rows), again) <==> ParentsRead(db, q', ParentSet(rows), again);
    assert ChildrenRead(db, q, IdSet(rows), again) <==> ChildrenRead(db, q', IdSet(rows), again);
    assert LinksRead(db, q, IdSet(rows), again) <==> LinksRead(db, q', IdSet(rows), again);
  }

  /** A groups edge that was run before reads a row: the type assertion on its columns fails. */
  predicate Stuck(db: Snapshot, q: AccountSpec, rows: set<AccountRow>) {
    ReadsGroups(db, q, rows, true)
  }

  function Unless<T>(stuck: bool, loaded: T): Result<T, LoadError> {
    if stuck then Err(BadColumn) else Ok(loaded)
  }

  // ---------------------------------------------------------------- the batched loader

  function ScanAccounts(columns: seq<Column>, rows: seq<AccountRow>): seq<AccountNode> {
    seq(|rows|, k requires 0 <= k < |rows| => ScanAccount(columns, rows[k]))
  }

  function ScanLinks(columns: seq<LinkColumn>, rows: seq<LinkRow>): seq<LinkNode> {
    seq(|rows|, k requires 0 <= k < |rows| => ScanLink(columns, rows[k]))
  }

  function ScannedGroupIds(columns: seq<GroupColumn>, rows: seq<GroupRow>): seq<int> {
    seq(|rows|, k requires 0 <= k < |rows| => ScanGroup(columns, rows[k]))
  }

  function Ids(nodes: seq<AccountNode>): seq<int> {
    seq(|nodes|, k requires 0 <= k < |nodes| => nodes[k].id)
  }

  function ParentKeys(nodes: seq<AccountNode>): seq<Option<int>> {
    seq(|nodes|, k requires 0 <= k < |nodes| => nodes[k].parentId)
  }

  function AccountKeys(nodes: seq<LinkNode>): seq<Option<int>> {
    seq(|nodes|, k requires 0 <= k < |nodes| => Some(nodes[k].accountId))
  }

  function GroupKeys(nodes: seq<LinkNode>): seq<Option<int>> {
    seq(|nodes|, k requires 0 <= k < |nodes| => Some(nodes[k].groupId))
  }

  /** Dealing neighbours by foreign key: the last neighbour of an id wins; one that nobody asked for is an error. */
  function DealOne<T>(keys: seq<Option<int>>, ids: seq<int>, items: seq<T>): Result<seq<Option<T>>, LoadError>
    requires |ids| == |items|
  {
    if exists k :: 0 <= k < |ids| && Some(ids[k]) !in keys then Err(UnexpectedKey)
    else Ok(seq(|keys|, i requires 0 <= i < |keys| =>
                  if keys[i] == None then None else LastOf(ids, items, keys[i].value)))
  }

  /** The first complaint while dealing neighbours out by their own key. */
  function OwnerError(owners: seq<Option<int>>, ids: seq<int>): Option<LoadError> {
    if owners == [] then None
    else if owners[0] == None then Some(NilKey)
    else if owners[0].value !in ids then Some(UnexpectedOwner)
    else OwnerError(owners[1..], ids)
  }

  /** Dealing neighbours out to lists by their own key: only the last node of an id receives any. */
  function DealMany<T>(ids: seq<int>, owners: seq<Option<int>>, items: seq<T>): Result<seq<multiset<T>>, LoadError>
    requires |owners| == |items|
  {
    match OwnerError(owners, ids)
    case Some(e) => Err(e)
    case None =>
      Ok(seq(|ids|, i requires 0 <= i < |ids| =>
               if LastWithId(ids, i) then multiset(Owned(owners, items, ids[i])) else multiset{}))
  }

  /** The joined rows of the groups query, for the accounts asked for. */
  function JoinRows(db: Snapshot, q: GroupSpec, ids: seq<int>, links: seq<LinkRow>): seq<JoinRow> {
    if links == [] then [] else
      (match FindGroup(Filter(db.groups, KeepGroup(q.where)), links[0].groupId)
       case Some(g) => if links[0].accountId in ids then [(links[0].accountId, g)] else []
       case None => [])
      + JoinRows(db, q, ids, links[1..])
  }

  /** How many join rows link one of these accounts to the group. */
  function LinkCount(links: seq<LinkRow>, ids: seq<int>, groupId: int): nat {
    if links == [] then 0
    else
      (if links[0].accountId in ids && links[0].groupId == groupId then 1 else 0)
      + LinkCount(links[1..], ids, groupId)
  }

  /** One more join with the join table, for these accounts: each row once for every join row that matches it. */
  function JoinedAgain(db: Snapshot, ids: seq<int>, rows: seq<JoinRow>): seq<JoinRow> {
    if rows == [] then []
    else seq(LinkCount(db.links, ids, rows[0].1.id), _ => rows[0]) + JoinedAgain(db, ids, rows[1..])
  }

  function JoinedOften(db: Snapshot, joins: seq<seq<int>>, rows: seq<JoinRow>): seq<JoinRow> {
    if joins == [] then rows else JoinedOften(db, joins[1..], JoinedAgain(db, joins[0], rows))
  }

  /** All rows of the query: its own join after those that earlier runs left behind. */
  function Stream(db: Snapshot, q: GroupSpec, ids: seq<int>): seq<JoinRow> {
    JoinedOften(db, q.joins, JoinRows(db, q, ids, db.links))
  }

  /** The joined rows as the loader reads them, by position; a group is its row under the id that was read. */
  function ReadStream(selected: seq<GroupColumn>, rows: seq<JoinRow>): (r: Result<seq<JoinRow>, LoadError>)
    requires selected != []
    ensures r.Ok? ==> |r.value| == |rows|
  {
    if rows == [] then Ok([]) else
      var n := |rows| - 1;
      match (ReadStream(selected, rows[..n]), ReadJoined(selected, rows[n].0, rows[n].1))
      case (Ok(before), Some(read)) => Ok(before + [(read.0, rows[n].1.(id := read.1))])
      case _ => Err(BadColumn)
  }

  /** The group query once `loadGroups` has added its closure. */
  function Joining(q: GroupSpec, ids: seq<int>): GroupSpec {
    q.(joins := q.joins + [ids])
  }

  function LoadGroups(db: Snapshot, o: Orders, q: GroupSpec, ids: seq<int>): (r: Result<seq<set<GroupRow>>, LoadError>)
    ensures r.Ok? ==> |r.value| == |ids|
  {
    var q' := Joining(q, ids);
    match ReadStream(Selection(|q'.joins|, GroupRead(q'.fields)), o.joined(q', Stream(db, q, ids)))
    case Err(e) => Err(e)
    case Ok(stream) =>
      Ok(seq(|ids|, i requires 0 <= i < |ids| =>
               if LastWithId(ids, i) then Elems(LinkedTo(FirstSeen(stream), stream, ids[i])) else {}))
  }

  /** An edge that was not requested loads nothing. */
  function Requested<T>(r: Result<seq<T>, LoadError>): Result<Option<seq<T>>, LoadError> {
    match r
    case Ok(items) => Ok(Some(items))
    case Err(e) => Err(e)
  }

  function At<T>(items: Option<seq<T>>, i: nat): Option<T>
    requires items.Some? ==> i < |items.value|
  {
    if items == None then None else Some(items.value[i])
  }

  /** The parent query once `loadParent` has added its condition, and likewise the others. */
  function AskingIds(q: AccountSpec, ids: seq<int>): AccountSpec {
    q.(where := q.where + [IDIn(ids)])
  }

  function AskingChildren(q: AccountSpec, ids: seq<int>): AccountSpec {
    q.(fields := WithKey(q.fields, ParentAccountID), where := q.where + [ParentIn(ids)])
  }

  function AskingLinks(q: LinkSpec, ids: seq<int>): LinkSpec {
    q.(fields := WithKey(q.fields, AccountID), where := q.where + [AccountIn(ids)])
  }

  function AskingGroups(q: GroupSpec, ids: seq<int>): GroupSpec {
    q.(where := q.where + [GroupIDIn(ids)])
  }

  /** What a query fetches. */
  function FetchAccounts(db: Snapshot, o: Orders, q: AccountSpec): seq<AccountRow> {
    o.accounts(q, Filter(db.accounts, KeepAccount(q.where)))
  }

  function FetchLinks(db: Snapshot, o: Orders, q: LinkSpec): seq<LinkRow> {
    o.links(q, Filter(db.links, KeepLink(q.where)))
  }

  function FetchGroups(db: Snapshot, o: Orders, q: GroupSpec): seq<GroupRow> {
    o.groups(q, Filter(db.groups, KeepGroup(q.where)))
  }

  function ReadColumns(q: AccountSpec): seq<Column> {
    AccountRead(q.fields, q.withProxy, q.parent.Some?)
  }

  function ReadLinkColumns(q: LinkSpec): seq<LinkColumn> {
    LinkRead(q.fields, q.account.Some?, q.group.Some?)
  }

  function LoadParents(db: Snapshot, o: Orders, q: AccountSpec, keys: seq<Option<int>>)
    : (r: Result<seq<Option<AccountTree>>, LoadError>)
    ensures r.Ok? ==> |r.value| == |keys|
    decreases q, 2
  {
    var ids := DistinctKeys(keys);
    if ids == [] then Ok(seq(|keys|, _ => None)) else
      var q' := AskingIds(q, ids);
      var rows := FetchAccounts(db, o, q');
      match LoadAccounts(db, o, q, ReadColumns(q'), rows)
      case Err(e) => Err(e)
      case Ok(ts) => DealOne(keys, Ids(ScanAccounts(ReadColumns(q'), rows)), ts)
  }

  function LoadChildren(db: Snapshot, o: Orders, q: AccountSpec, ids: seq<int>)
    : (r: Result<seq<multiset<AccountTree>>, LoadError>)
    ensures r.Ok? ==> |r.value| == |ids|
    decreases q, 2
  {
    var q' := AskingChildren(q, ids);
    var rows := FetchAccounts(db, o, q');
    match LoadAccounts(db, o, q, ReadColumns(q'), rows)
    case Err(e) => Err(e)
    case Ok(ts) => DealMany(ids, ParentKeys(ScanAccounts(ReadColumns(q'), rows)), ts)
  }

  function LoadAccountGroups(db: Snapshot, o: Orders, q: LinkSpec, ids: seq<int>)
    : (r: Result<seq<multiset<LinkTree>>, LoadError>)
    ensures r.Ok? ==> |r.value| == |ids|
    decreases q, 2
  {
    var q' := AskingLinks(q, ids);
    var rows := FetchLinks(db, o, q');
    match LoadLinks(db, o, q, ReadLinkColumns(q'), rows)
    case Err(e) => Err(e)
    case Ok(ts) => DealMany(ids, AccountKeys(ScanLinks(ReadLinkColumns(q'), rows)), ts)
  }

  function LoadLinkGroups(db: Snapshot, o: Orders, q: GroupSpec, keys: seq<Option<int>>)
    : (r: Result<seq<Option<GroupRow>>, LoadError>)
    ensures r.Ok? ==> |r.value| == |keys|
  {
    var ids := DistinctKeys(keys);
    if ids == [] then Ok(seq(|keys|, _ => None)) else
      var rows := FetchGroups(db, o, AskingGroups(q, ids));
      DealOne(keys, ScannedGroupIds(GroupRead(q.fields), rows), rows)
  }

  /** The returned nodes, once every requested edge has been loaded. */
  function Assemble(rows: seq<AccountRow>, groups: Option<seq<set<GroupRow>>>,
                    parents: Option<seq<Option<AccountTree>>>, children: Option<seq<multiset<AccountTree>>>,
                    links: Option<seq<multiset<LinkTree>>>): (ts: seq<AccountTree>)
    requires groups.Some? ==> |groups.value| == |rows|
    requires parents.Some? ==> |parents.value| == |rows|
    requires children.Some? ==> |children.value| == |rows|
    requires links.Some? ==> |links.value| == |rows|
    ensures |ts| == |rows|
  {
    seq(|rows|, i requires 0 <= i < |rows| =>
      AccountTree(rows[i], At(groups, i), At(parents, i), At(children, i), At(links, i)))
  }

  function GroupsEdge(db: Snapshot, o: Orders, q: AccountSpec, ids: seq<int>)
    : (r: Result<Option<seq<set<GroupRow>>>, LoadError>)
    ensures r.Ok? && r.value.Some? ==> |r.value.value| == |ids|
  {
    if q.groups == None then Ok(None) else Requested(LoadGroups(db, o, q.groups.value, ids))
  }

  function ParentEdge(db: Snapshot, o: Orders, q: AccountSpec, keys: seq<Option<int>>)
    : (r: Result<Option<seq<Option<AccountTree>>>, LoadError>)
    ensures r.Ok? && r.value.Some? ==> |r.value.value| == |keys|
    decreases q, 0
  {
    if q.parent == None then Ok(None) else Requested(LoadParents(db, o, q.parent.value, keys))
  }

  function ChildrenEdge(db: Snapshot, o: Orders, q: AccountSpec, ids: seq<int>)
    : (r: Result<Option<seq<multiset<AccountTree>>>, LoadError>)
    ensures r.Ok? && r.value.Some? ==> |r.value.value| == |ids|
    decreases q, 0
  {
    if q.children == None then Ok(None) else Requested(LoadChildren(db, o, q.children.value, ids))
  }

  function LinksEdge(db: Snapshot, o: Orders, q: AccountSpec, ids: seq<int>)
    : (r: Result<Option<seq<multiset<LinkTree>>>, LoadError>)
    ensures r.Ok? && r.value.Some? ==> |r.value.value| == |ids|
    decreases q, 0
  {
    if q.links == None then Ok(None) else Requested(LoadAccountGroups(db, o, q.links.value, ids))
  }

  /** `AccountQuery.sqlAll` on rows already fetched and scanned with these columns. */
  function LoadAccounts(db: Snapshot, o: Orders, q: AccountSpec, columns: seq<Column>, rows: seq<AccountRow>)
    : (r: Result<seq<AccountTree>, LoadError>)
    ensures r.Ok? ==> |r.value| == |rows|
    decreases q, 1
  {
    if rows == [] then Ok([]) else
      var nodes := ScanAccounts(columns, rows);
      var ids := Ids(nodes);
      var groups := GroupsEdge(db, o, q, ids);
      if groups.Err? then Err(groups.error) else
      var parents := ParentEdge(db, o, q, ParentKeys(nodes));
      if parents.Err? then Err(parents.error) else
      var children := ChildrenEdge(db, o, q, ids);
      if children.Err? then Err(children.error) else
      var links := LinksEdge(db, o, q, ids);
      if links.Err? then Err(links.error) else
      Ok(Assemble(rows, groups.value, parents.value, children.value, links.value))
  }

  /** `AccountGroupQuery.sqlAll` likewise. */
  function LoadLinks(db: Snapshot, o: Orders, q: LinkSpec, columns: seq<LinkColumn>, rows: seq<LinkRow>)
    : (r: Result<seq<LinkTree>, LoadError>)
    ensures r.Ok? ==> |r.value| == |rows|
    decreases q, 1
  {
    if rows == [] then Ok([]) else
      var nodes := ScanLinks(columns, rows);
      var accounts := AccountEdge(db, o, q, AccountKeys(nodes));
      if accounts.Err? then Err(accounts.error) else
      var groups := GroupEdge(db, o, q, GroupKeys(nodes));
      if groups.Err? then Err(groups.error) else
      Ok(AssembleLinks(rows, accounts.value, groups.value))
  }

  function AssembleLinks(rows: seq<LinkRow>, accounts: Option<seq<Option<AccountTree>>>,
                         groups: Option<seq<Option<GroupRow>>>): (ts: seq<LinkTree>)
    requires accounts.Some? ==> |accounts.value| == |rows|
    requires groups.Some? ==> |groups.value| == |rows|
    ensures |ts| == |rows|
  {
    seq(|rows|, i requires 0 <= i < |rows| => LinkTree(rows[i], At(accounts, i), At(groups, i)))
  }

  function AccountEdge(db: Snapshot, o: Orders, q: LinkSpec, keys: seq<Option<int>>)
    : (r: Result<Option<seq<Option<AccountTree>>>, LoadError>)
    ensures r.Ok? && r.value.Some? ==> |r.value.value| == |keys|
    decreases q, 0
  {
    if q.account == None then Ok(None) else Requested(LoadParents(db, o, q.account.value, keys))
  }

  function GroupEdge(db: Snapshot, o: Orders, q: LinkSpec, keys: seq<Option<int>>)
    : (r: Result<Option<seq<Option<GroupRow>>>, LoadError>)
    ensures r.Ok? && r.value.Some? ==> |r.value.value| == |keys|
  {
    if q.group == None then Ok(None) else Requested(LoadLinkGroups(db, o, q.group.value, keys))
  }

  /** A whole query: fetch the rows, read the selected columns, load the requested edges. */
  function QueryAll(db: Snapshot, o: Orders, q: AccountSpec): Result<seq<AccountTree>, LoadError> {
    LoadAccounts(db, o, q, ReadColumns(q), FetchAccounts(db, o, q))
  }

  // ---------------------------------------------------------------- unique edges

  /** With distinct neighbour ids that were all asked for, dealing cannot fail and is a lookup by id. */
  lemma DealtDistinct<T>(keys: seq<Option<int>>, ids: seq<int>, items: seq<T>)
    requires |ids| == |items| && Distinct(ids) && forall k :: 0 <= k < |ids| ==> Some(ids[k]) in keys
    ensures DealOne(keys, ids, items).Ok? && |DealOne(keys, ids, items).value| == |keys|
    ensures forall i, k :: 0 <= i < |keys| && 0 <= k < |ids| && keys[i] == Some(ids[k]) ==>
              DealOne(keys, ids, items).value[i] == Some(items[k])
    ensures forall i :: 0 <= i < |keys| && (keys[i] == None || keys[i].value !in ids) ==>
              DealOne(keys, ids, items).value[i] == None
  {
    forall k | 0 <= k < |ids| ensures LastOf(ids, items, ids[k]) == Some(items[k]) {
      LastOfDistinct(ids, items, k);
    }
  }

  function LookupKeys(db: Snapshot, q: AccountSpec, keys: seq<Option<int>>): seq<Option<AccountTree>> {
    seq(|keys|, i requires 0 <= i < |keys| => LookupKey(db, q, keys[i]))
  }

  function FindKeys(db: Snapshot, q: GroupSpec, keys: seq<Option<int>>): seq<Option<GroupRow>> {
    seq(|keys|, i requires 0 <= i < |keys| => FindKey(db, q, keys[i]))
  }

  /** Whatever order the rows of a batch of keys come in, a wanted row among them is the one a lookup finds. */
  lemma FetchedOrAbsent(db: Snapshot, q: AccountSpec, ids: seq<int>, rows: seq<AccountRow>, id: int) returns (k: int)
    requires ValidSnapshot(db) && AccountsAnswer(rows, db, AskingIds(q, ids).where) && id in ids
    ensures var found := FindAccount(Filter(db.accounts, KeepAccount(q.where)), id);
            if 0 <= k < |rows| then rows[k].id == id && found == Some(rows[k])
            else found == None && forall m :: 0 <= m < |rows| ==> rows[m].id != id
  {
    var found := FindAccount(Filter(db.accounts, KeepAccount(q.where)), id);
    forall r: AccountRow | r.id == id ensures r in rows <==> found == Some(r) {
      FindsAccount(db, q.where, id, r);
      AccountAnswered(rows, db, AskingIds(q, ids).where, r);
      KeepAlso(q.where, IDIn(ids), r);
    }
    if found.Some? {
      FoundAccount(Filter(db.accounts, KeepAccount(q.where)), id);
      k :| 0 <= k < |rows| && rows[k] == found.value;
    } else {
      k := -1;
    }
  }

  lemma FetchedGroupOrAbsent(db: Snapshot, q: GroupSpec, ids: seq<int>, rows: seq<GroupRow>, id: int) returns (k: int)
    requires ValidSnapshot(db) && GroupsAnswer(rows, db, AskingGroups(q, ids).where) && id in ids
    ensures var found := FindGroup(Filter(db.groups, KeepGroup(q.where)), id);
            if 0 <= k < |rows| then rows[k].id == id && found == Some(rows[k])
            else found == None && forall m :: 0 <= m < |rows| ==> rows[m].id != id
  {
    var found := FindGroup(Filter(db.groups, KeepGroup(q.where)), id);
    forall r: GroupRow | r.id == id ensures r in rows <==> found == Some(r) {
      FindsGroup(db, q.where, id, r);
      GroupAnswered(rows, db, AskingGroups(q, ids).where, r);
      KeepGroupAlso(q.where, GroupIDIn(ids), r);
    }
    if found.Some? {
      FoundGroup(Filter(db.groups, KeepGroup(q.where)), id);
      k :| 0 <= k < |rows| && rows[k] == found.value;
    } else {
      k := -1;
    }
  }

  /** The rows fetched for a batch of keys have distinct ids, all of them asked for. */
  lemma FetchedIds(db: Snapshot, q: AccountSpec, columns: seq<Column>, keys: seq<Option<int>>, rows: seq<AccountRow>)
    requires ValidSnapshot(db) && ID in columns && AccountsAnswer(rows, db, AskingIds(q, DistinctKeys(keys)).where)
    ensures var ids := Ids(ScanAccounts(columns, rows));
            && Distinct(ids)
            && (forall k :: 0 <= k < |ids| ==> ids[k] == rows[k].id && Some(ids[k]) in keys)
  {
    var wanted := DistinctKeys(keys);
    AnswerDistinct(rows, db, AskingIds(q, wanted).where);
    forall k | 0 <= k < |rows| ensures Some(rows[k].id) in keys {
      AccountAnswered(rows, db, AskingIds(q, wanted).where, rows[k]);
      KeepAlso(q.where, IDIn(wanted), rows[k]);
    }
  }

  lemma FetchedGroupIds(db: Snapshot, q: GroupSpec, keys: seq<Option<int>>, rows: seq<GroupRow>)
    requires ValidSnapshot(db) && GroupsAnswer(rows, db, AskingGroups(q, DistinctKeys(keys)).where)
    ensures var ids := ScannedGroupIds(GroupRead(q.fields), rows);
            && Distinct(ids)
            && (forall k :: 0 <= k < |ids| ==> ids[k] == rows[k].id && Some(ids[k]) in keys)
  {
    var wanted := DistinctKeys(keys);
    GroupAnswerDistinct(rows, db, AskingGroups(q, wanted).where);
    forall k | 0 <= k < |rows|
      ensures ScanGroup(GroupRead(q.fields), rows[k]) == rows[k].id && Some(rows[k].id) in keys
    {
      FirstRunReads(q.fields, 0, rows[k]);
      GroupAnswered(rows, db, AskingGroups(q, wanted).where, rows[k]);
      KeepGroupAlso(q.where, GroupIDIn(wanted), rows[k]);
    }
  }

  /** Dealing out the batch, in whatever order it comes, gives each key the tree looked up for it alone. */
  lemma DealtParents(db: Snapshot, q: AccountSpec, columns: seq<Column>, keys: seq<Option<int>>, rows: seq<AccountRow>)
    requires ValidSnapshot(db) && ID in columns && AccountsAnswer(rows, db, AskingIds(q, DistinctKeys(keys)).where)
    ensures DealOne(keys, Ids(ScanAccounts(columns, rows)), LookupAll(db, q, rows)) == Ok(LookupKeys(db, q, keys))
  {
    var ids, items := Ids(ScanAccounts(columns, rows)), LookupAll(db, q, rows);
    FetchedIds(db, q, columns, keys, rows);
    DealtDistinct(keys, ids, items);
    var dealt, expected := DealOne(keys, ids, items).value, LookupKeys(db, q, keys);
    forall i | 0 <= i < |keys| ensures dealt[i] == expected[i] {
      if keys[i].Some? {
        assert keys[i] in keys;
        var k := FetchedOrAbsent(db, q, DistinctKeys(keys), rows, keys[i].value);
      }
    }
    assert dealt == expected;
  }

  lemma DealtGroups(db: Snapshot, q: GroupSpec, keys: seq<Option<int>>, rows: seq<GroupRow>)
    requires ValidSnapshot(db) && GroupsAnswer(rows, db, AskingGroups(q, DistinctKeys(keys)).where)
    ensures DealOne(keys, ScannedGroupIds(GroupRead(q.fields), rows), rows) == Ok(FindKeys(db, q, keys))
  {
    var ids := ScannedGroupIds(GroupRead(q.fields), rows);
    FetchedGroupIds(db, q, keys, rows);
    DealtDistinct(keys, ids, rows);
    var dealt, expected := DealOne(keys, ids, rows).value, FindKeys(db, q, keys);
    forall i | 0 <= i < |keys| ensures dealt[i] == expected[i] {
      if keys[i].Some? {
        assert keys[i] in keys;
        var k := FetchedGroupOrAbsent(db, q, DistinctKeys(keys), rows, keys[i].value);
      }
    }
    assert dealt == expected;
  }

  // ---------------------------------------------------------------- list edges

  /** Dealing trees by the scanned key is filtering the rows by the key and building the trees after. */
  lemma OwnedChildren(db: Snapshot, q: AccountSpec, columns: seq<Column>, rows: seq<AccountRow>, id: int)
    requires ParentAccountID in columns
    ensures Owned(ParentKeys(ScanAccounts(columns, rows)), LookupAll(db, q, rows), id)
            == LookupAll(db, q, Filter(rows, ChildOf(id)))
  {
    var owners := ParentKeys(ScanAccounts(columns, rows));
    OwnedIsFiltered(owners, LookupAll(db, q, rows), rows, ChildOf(id), r => Lookup(db, q, r), id);
  }

  lemma OwnedLinks(db: Snapshot, q: LinkSpec, columns: seq<LinkColumn>, rows: seq<LinkRow>, id: int)
    requires AccountID in columns
    ensures Owned(AccountKeys(ScanLinks(columns, rows)), LookupLinks(db, q, rows), id)
            == LookupLinks(db, q, Filter(rows, LinkOf(id)))
  {
    var owners := AccountKeys(ScanLinks(columns, rows));
    OwnedIsFiltered(owners, LookupLinks(db, q, rows), rows, LinkOf(id), r => LookupLink(db, q, r), id);
  }

  lemma LookupRearranged(db: Snapshot, q: AccountSpec, a: seq<AccountRow>, b: seq<AccountRow>)
    requires multiset(a) == multiset(b)
    ensures multiset(LookupAll(db, q, a)) == multiset(LookupAll(db, q, b))
  {
    var make := (r: AccountRow) => Lookup(db, q, r);
    MadeRearranged(a, b, make);
    assert LookupAll(db, q, a) == Made(a, make) && LookupAll(db, q, b) == Made(b, make);
  }

  lemma LookupLinksRearranged(db: Snapshot, q: LinkSpec, a: seq<LinkRow>, b: seq<LinkRow>)
    requires multiset(a) == multiset(b)
    ensures multiset(LookupLinks(db, q, a)) == multiset(LookupLinks(db, q, b))
  {
    var make := (r: LinkRow) => LookupLink(db, q, r);
    MadeRearranged(a, b, make);
    assert LookupLinks(db, q, a) == Made(a, make) && LookupLinks(db, q, b) == Made(b, make);
  }

  lemma DealtAt<T>(ids: seq<int>, owners: seq<Option<int>>, items: seq<T>, i: nat)
    requires |owners| == |items| && i < |ids| && Distinct(ids)
    ensures var dealt := DealMany(ids, owners, items);
            dealt.Ok? ==> |dealt.value| == |ids| && dealt.value[i] == multiset(Owned(owners, items, ids[i]))
  {
  }

  lemma {:induction false} NoOwnerError(owners: seq<Option<int>>, ids: seq<int>)
    requires forall k :: 0 <= k < |owners| ==> owners[k].Some? && owners[k].value in ids
    ensures OwnerError(owners, ids) == None
  {
    if owners != [] {
      NoOwnerError(owners[1..], ids);
    }
  }

  function ChildrenOfAll(db: Snapshot, q: AccountSpec, ids: seq<int>): seq<multiset<AccountTree>> {
    seq(|ids|, i requires 0 <= i < |ids| => ChildrenOf(db, q, ids[i]))
  }

  function LinksOfAll(db: Snapshot, q: LinkSpec, ids: seq<int>): seq<multiset<LinkTree>> {
    seq(|ids|, i requires 0 <= i < |ids| => LinksOf(db, q, ids[i]))
  }

  /** Of the rows fetched for many accounts, the children of one are those a lookup for it alone finds. */
  lemma KidsAgree(db: Snapshot, where: seq<AccountPred>, ids: seq<int>, rows: seq<AccountRow>, id: int)
    requires AccountsAnswer(rows, db, where + [ParentIn(ids)]) && id in ids
    ensures multiset(Filter(rows, ChildOf(id)))
            == multiset(Filter(Filter(db.accounts, KeepAccount(where)), ChildOf(id)))
  {
    forall k | 0 <= k < |db.accounts|
      ensures KeepAccount(where + [ParentIn(ids)])(db.accounts[k]) && ChildOf(id)(db.accounts[k])
              <==> KeepAccount(where)(db.accounts[k]) && ChildOf(id)(db.accounts[k])
    {
      KeepAlso(where, ParentIn(ids), db.accounts[k]);
    }
    PartAgrees(db.accounts, rows, KeepAccount(where + [ParentIn(ids)]), KeepAccount(where), ChildOf(id));
  }

  lemma LinkPartAgrees(db: Snapshot, where: seq<LinkPred>, ids: seq<int>, rows: seq<LinkRow>, id: int)
    requires LinksAnswer(rows, db, where + [AccountIn(ids)]) && id in ids
    ensures multiset(Filter(rows, LinkOf(id))) == multiset(Filter(Filter(db.links, KeepLink(where)), LinkOf(id)))
  {
    forall k | 0 <= k < |db.links|
      ensures KeepLink(where + [AccountIn(ids)])(db.links[k]) && LinkOf(id)(db.links[k])
              <==> KeepLink(where)(db.links[k]) && LinkOf(id)(db.links[k])
    {
      KeepLinkAlso(where, AccountIn(ids), db.links[k]);
    }
    PartAgrees(db.links, rows, KeepLink(where + [AccountIn(ids)]), KeepLink(where), LinkOf(id));
  }

  lemma DealtChildren(db: Snapshot, q: AccountSpec, columns: seq<Column>, ids: seq<int>, rows: seq<AccountRow>)
    requires ParentAccountID in columns && Distinct(ids) && AccountsAnswer(rows, db, AskingChildren(q, ids).where)
    ensures DealMany(ids, ParentKeys(ScanAccounts(columns, rows)), LookupAll(db, q, rows))
            == Ok(ChildrenOfAll(db, q, ids))
  {
    var owners := ParentKeys(ScanAccounts(columns, rows));
    forall k | 0 <= k < |owners| ensures owners[k].Some? && owners[k].value in ids {
      AccountAnswered(rows, db, AskingChildren(q, ids).where, rows[k]);
      KeepAlso(q.where, ParentIn(ids), rows[k]);
    }
    NoOwnerError(owners, ids);
    forall i | 0 <= i < |ids|
      ensures LastWithId(ids, i) && multiset(Owned(owners, LookupAll(db, q, rows), ids[i])) == ChildrenOf(db, q, ids[i])
    {
      OwnedChildren(db, q, columns, rows, ids[i]);
      KidsAgree(db, q.where, ids, rows, ids[i]);
      var kids := Filter(Filter(db.accounts, KeepAccount(q.where)), ChildOf(ids[i]));
      LookupRearranged(db, q, Filter(rows, ChildOf(ids[i])), kids);
    }
    assert DealMany(ids, owners, LookupAll(db, q, rows)).value == ChildrenOfAll(db, q, ids);
  }

  lemma DealtLinks(db: Snapshot, q: LinkSpec, columns: seq<LinkColumn>, ids: seq<int>, rows: seq<LinkRow>)
    requires AccountID in columns && Distinct(ids) && LinksAnswer(rows, db, AskingLinks(q, ids).where)
    ensures DealMany(ids, AccountKeys(ScanLinks(columns, rows)), LookupLinks(db, q, rows)) == Ok(LinksOfAll(db, q, ids))
  {
    var owners := AccountKeys(ScanLinks(columns, rows));
    forall k | 0 <= k < |owners| ensures owners[k].Some? && owners[k].value in ids {
      LinkAnswered(rows, db, AskingLinks(q, ids).where, rows[k]);
      KeepLinkAlso(q.where, AccountIn(ids), rows[k]);
    }
    NoOwnerError(owners, ids);
    forall i | 0 <= i < |ids|
      ensures LastWithId(ids, i) && multiset(Owned(owners, LookupLinks(db, q, rows), ids[i])) == LinksOf(db, q, ids[i])
    {
      OwnedLinks(db, q, columns, rows, ids[i]);
      LinkPartAgrees(db, q.where, ids, rows, ids[i]);
      var own := Filter(Filter(db.links, KeepLink(q.where)), LinkOf(ids[i]));
      LookupLinksRearranged(db, q, Filter(rows, LinkOf(ids[i])), own);
    }
    assert DealMany(ids, owners, LookupLinks(db, q, rows)).value == LinksOfAll(db, q, ids);
  }

  // ---------------------------------------------------------------- many-to-many edges

  lemma {:induction false} JoinMember(db: Snapshot, q: GroupSpec, ids: seq<int>, links: seq<LinkRow>, row: JoinRow)
    ensures row in JoinRows(db, q, ids, links) <==>
              && row.0 in ids
              && exists l :: l in links && l.accountId == row.0
                   && FindGroup(Filter(db.groups, KeepGroup(q.where)), l.groupId) == Some(row.1)
  {
    if links != [] {
      JoinMember(db, q, ids, links[1..], row);
      assert links == [links[0]] + links[1..];
    }
  }

  lemma {:induction false} LinkCounted(links: seq<LinkRow>, ids: seq<int>, groupId: int)
    ensures LinkCount(links, ids, groupId) > 0 <==> exists l :: l in links && l.accountId in ids && l.groupId == groupId
  {
    if links != [] {
      LinkCounted(links[1..], ids, groupId);
      assert links == [links[0]] + links[1..];
    }
  }

  lemma {:induction false} JoinedAgainMember(db: Snapshot, ids: seq<int>, rows: seq<JoinRow>, row: JoinRow)
    ensures row in JoinedAgain(db, ids, rows) <==> row in rows && Linked(db, ids, row.1.id)
  {
    if rows != [] {
      JoinedAgainMember(db, ids, rows[1..], row);
      LinkCounted(db.links, ids, rows[0].1.id);
      var n := LinkCount(db.links, ids, rows[0].1.id);
      var copies := seq(n, _ => rows[0]);
      assert n > 0 ==> copies[0] in copies;
      assert rows == [rows[0]] + rows[1..];
    }
  }

  lemma {:induction false} JoinedOftenMember(db: Snapshot, joins: seq<seq<int>>, rows: seq<JoinRow>, row: JoinRow)
    ensures row in JoinedOften(db, joins, rows)
            <==> row in rows && forall k :: 0 <= k < |joins| ==> Linked(db, joins[k], row.1.id)
    decreases |joins|
  {
    if joins != [] {
      JoinedOftenMember(db, joins[1..], JoinedAgain(db, joins[0], rows), row);
      JoinedAgainMember(db, joins[0], rows, row);
      assert forall k :: 1 <= k < |joins| ==> joins[k] == joins[1..][k - 1];
    }
  }

  /** The query's rows pair each account asked for with its groups. */
  lemma StreamMember(db: Snapshot, q: GroupSpec, ids: seq<int>, row: JoinRow)
    requires ValidSnapshot(db)
    ensures row in Stream(db, q, ids) <==> row.0 in ids && row.1 in GroupsOf(db, q, row.0)
  {
    JoinedOftenMember(db, q.joins, JoinRows(db, q, ids, db.links), row);
    JoinMember(db, q, ids, db.links, row);
    FilterMember(db.groups, KeepGroup(q.where), row.1);
    forall l | l in db.links && l.accountId == row.0
      ensures FindGroup(Filter(db.groups, KeepGroup(q.where)), l.groupId) == Some(row.1)
              <==> row.1 in db.groups && KeepGroup(q.where)(row.1) && row.1.id == l.groupId
    {
      FindsGroup(db, q.where, l.groupId, row.1);
    }
  }

  lemma {:induction false} FirstSeenMember(rows: seq<JoinRow>, g: GroupRow)
    requires OneRowPerGroup(rows)
    ensures g in FirstSeen(rows) <==> exists k :: 0 <= k < |rows| && rows[k].1 == g
  {
    if rows != [] {
      var n := |rows| - 1;
      FirstSeenMember(rows[..n], g);
      if g in FirstSeen(rows[..n]) {
        var k :| 0 <= k < n && rows[..n][k].1 == g;
        assert rows[k].1 == g;
      }
      if k :| 0 <= k < |rows| && rows[k].1 == g {
        if k < n {
          assert rows[..n][k].1 == g;
        } else if Seen(rows[..n], g.id) {
          var m :| 0 <= m < n && rows[..n][m].1.id == g.id;
          assert rows[m].1 == rows[n].1 == g && rows[..n][m].1 == g;
        }
      }
    }
  }

  /** In an answer, in any order or cut by a page, one group id always comes with the same row. */
  lemma StreamAgrees(db: Snapshot, q: GroupSpec, ids: seq<int>, rows: seq<JoinRow>)
    requires ValidSnapshot(db) && multiset(rows) <= multiset(Stream(db, q, ids))
    ensures OneRowPerGroup(rows) && forall k :: 0 <= k < |rows| ==> rows[k].0 in ids
  {
    var groups := Filter(db.groups, KeepGroup(q.where));
    forall k | 0 <= k < |rows| ensures rows[k].0 in ids && rows[k].1 in groups {
      assert rows[k] in multiset(rows);
      assert rows[k] in Stream(db, q, ids);
      StreamMember(db, q, ids, rows[k]);
    }
    forall a, b | 0 <= a < |rows| && 0 <= b < |rows| && rows[a].1.id == rows[b].1.id ensures rows[a].1 == rows[b].1 {
      SameGroup(db, KeepGroup(q.where), rows[a].1, rows[b].1);
    }
  }

  /** An account's list holds the groups that the rows pair it with. */
  lemma LinkedRows(rows: seq<JoinRow>, id: int, g: GroupRow)
    requires OneRowPerGroup(rows)
    ensures g in LinkedTo(FirstSeen(rows), rows, id) <==> (id, g) in rows
  {
    LinkedMember(FirstSeen(rows), rows, id, g);
    FirstSeenMember(rows, g);
    if g in FirstSeen(rows) && Links(rows, id, g.id) {
      var k :| 0 <= k < |rows| && rows[k].0 == id && rows[k].1.id == g.id;
      var m :| 0 <= m < |rows| && rows[m].1 == g;
      assert rows[k].1 == rows[m].1;
      assert rows[k] == (id, g) && rows[k] in rows;
    }
    if (id, g) in rows {
      var k :| 0 <= k < |rows| && rows[k] == (id, g);
      assert Links(rows, id, g.id);
    }
  }

  /** For the query's rows in any order, the groups dealt to an account are those of the lookup for it alone. */
  lemma LoadedGroups(db: Snapshot, q: GroupSpec, ids: seq<int>, rows: seq<JoinRow>, id: int)
    requires ValidSnapshot(db) && id in ids && multiset(rows) == multiset(Stream(db, q, ids))
    ensures Elems(LinkedTo(FirstSeen(rows), rows, id)) == GroupsOf(db, q, id)
  {
    StreamAgrees(db, q, ids, rows);
    forall g ensures g in LinkedTo(FirstSeen(rows), rows, id) <==> g in GroupsOf(db, q, id) {
      LinkedRows(rows, id, g);
      SameMembers(rows, Stream(db, q, ids), (id, g));
      StreamMember(db, q, ids, (id, g));
    }
  }

  /** On the first run of a groups edge, whatever is selected, the loader reads each joined row as it is. */
  lemma {:induction false} ReadAsStored(fields: seq<GroupColumn>, rows: seq<JoinRow>)
    ensures Selection(1, GroupRead(fields)) != [] && ReadStream(Selection(1, GroupRead(fields)), rows) == Ok(rows)
  {
    if rows != [] {
      var n := |rows| - 1;
      ReadAsStored(fields, rows[..n]);
      FirstRunReads(fields, rows[n].0, rows[n].1);
      assert rows[n] == (rows[n].0, rows[n].1.(id := rows[n].1.id));
      FrontLast(rows);
    }
  }

  /** On later runs it reads none. */
  lemma ReadsNone(runs: nat, base: seq<GroupColumn>, rows: seq<JoinRow>)
    requires runs > 1
    ensures Selection(runs, base) != []
    ensures ReadStream(Selection(runs, base), rows) == if rows == [] then Ok([]) else Err(BadColumn)
  {
    LaterRunsRead(runs, base, 0, GroupRow(0, map[], map[]));
    if rows != [] {
      LaterRunsRead(runs, base, rows[|rows| - 1].0, rows[|rows| - 1].1);
    }
  }

  lemma StreamEmptyIff(db: Snapshot, q: GroupSpec, ids: seq<int>, rows: seq<JoinRow>)
    requires ValidSnapshot(db) && multiset(rows) == multiset(Stream(db, q, ids))
    ensures rows != [] <==> FindsGroups(db, q, Elems(ids))
  {
    if rows != [] {
      SameMembers(rows, Stream(db, q, ids), rows[0]);
      StreamMember(db, q, ids, rows[0]);
      assert rows[0].0 in Elems(ids);
    }
    if id :| id in Elems(ids) && GroupsOf(db, q, id) != {} {
      var g :| g in GroupsOf(db, q, id);
      StreamMember(db, q, ids, (id, g));
      SameMembers(rows, Stream(db, q, ids), (id, g));
    }
  }

  // ---------------------------------------------------------------- the batched loader is the relational lookup

  function GroupsOfAll(db: Snapshot, q: GroupSpec, ids: seq<int>): seq<set<GroupRow>> {
    seq(|ids|, i requires 0 <= i < |ids| => GroupsOf(db, q, ids[i]))
  }

  lemma GroupsAgree(db: Snapshot, o: Orders, q: GroupSpec, ids: seq<int>)
    requires ValidSnapshot(db) && ValidOrders(o) && Distinct(ids)
    ensures LoadGroups(db, o, q, ids)
            == Unless(q.joins != [] && FindsGroups(db, q, Elems(ids)), GroupsOfAll(db, q, ids))
  {
    var rows := o.joined(Joining(q, ids), Stream(db, q, ids));
    StreamEmptyIff(db, q, ids, rows);
    if q.joins == [] {
      ReadAsStored(q.fields, rows);
    } else {
      ReadsNone(|q.joins| + 1, GroupRead(q.fields), rows);
    }
    if q.joins == [] || rows == [] {
      var loaded := LoadGroups(db, o, q, ids);
      forall i | 0 <= i < |ids| ensures loaded.Ok? && loaded.value[i] == GroupsOf(db, q, ids[i]) {
        assert LastWithId(ids, i);
        LoadedGroups(db, q, ids, rows, ids[i]);
      }
      assert loaded.value == GroupsOfAll(db, q, ids);
    }
  }

  lemma LinkGroupsAgree(db: Snapshot, o: Orders, q: GroupSpec, keys: seq<Option<int>>)
    requires ValidSnapshot(db) && ValidOrders(o)
    ensures LoadLinkGroups(db, o, q, keys) == Ok(FindKeys(db, q, keys))
  {
    DealtGroups(db, q, keys, FetchGroups(db, o, AskingGroups(q, DistinctKeys(keys))));
    if DistinctKeys(keys) == [] {
      assert forall i :: 0 <= i < |keys| ==> keys[i] in keys;
      assert LoadLinkGroups(db, o, q, keys).value == FindKeys(db, q, keys);
    }
  }

  /** The rows answered for a batch are those the batch asked for. */
  lemma AnsweredKeyed(db: Snapshot, q: AccountSpec, ids: seq<int>, rows: seq<AccountRow>)
    requires AccountsAnswer(rows, db, AskingIds(q, ids).where)
    ensures Elems(rows) == KeyedRows(db, q, Elems(ids))
  {
    forall r ensures r in rows <==> r in KeyedRows(db, q, Elems(ids)) {
      AccountAnswered(rows, db, AskingIds(q, ids).where, r);
      KeepAlso(q.where, IDIn(ids), r);
    }
  }

  lemma AnsweredChildren(db: Snapshot, q: AccountSpec, ids: seq<int>, rows: seq<AccountRow>)
    requires AccountsAnswer(rows, db, AskingChildren(q, ids).where)
    ensures Elems(rows) == ChildRowsOf(db, q, Elems(ids))
  {
    forall r ensures r in rows <==> r in ChildRowsOf(db, q, Elems(ids)) {
      AccountAnswered(rows, db, AskingChildren(q, ids).where, r);
      KeepAlso(q.where, ParentIn(ids), r);
    }
  }

  lemma AnsweredLinks(db: Snapshot, q: LinkSpec, ids: seq<int>, rows: seq<LinkRow>)
    requires LinksAnswer(rows, db, AskingLinks(q, ids).where)
    ensures Elems(rows) == LinkRowsOf(db, q, Elems(ids))
  {
    forall r ensures r in rows <==> r in LinkRowsOf(db, q, Elems(ids)) {
      LinkAnswered(rows, db, AskingLinks(q, ids).where, r);
      KeepLinkAlso(q.where, AccountIn(ids), r);
    }
  }

  /** Without keys nothing is fetched, and nothing is there to find. */
  lemma NoParents(db: Snapshot, o: Orders, q: AccountSpec, keys: seq<Option<int>>)
    requires DistinctKeys(keys) == []
    ensures LoadParents(db, o, q, keys) == Ok(LookupKeys(db, q, keys))
    ensures KeyedRows(db, q, Elems(DistinctKeys(keys))) == {}
  {
    forall i | 0 <= i < |keys| ensures keys[i] == None {
      assert keys[i] in keys;
    }
    assert LoadParents(db, o, q, keys).value == LookupKeys(db, q, keys);
  }

  lemma {:induction false} ParentsAgree(db: Snapshot, o: Orders, q: AccountSpec, keys: seq<Option<int>>)
    requires ValidSnapshot(db) && ValidOrders(o)
    ensures LoadParents(db, o, q, keys)
            == Unless(Stuck(db, q, KeyedRows(db, q, Elems(DistinctKeys(keys)))), LookupKeys(db, q, keys))
    decreases q, 2
  {
    var ids := DistinctKeys(keys);
    if ids == [] {
      NoParents(db, o, q, keys);
    } else {
      var q' := AskingIds(q, ids);
      var rows := FetchAccounts(db, o, q');
      AccountReadHasKeys(q.fields, q.withProxy, q.parent.Some?);
      assert ID in ReadColumns(q');
      AnsweredKeyed(db, q, ids, rows);
      AnswerDistinct(rows, db, q'.where);
      LoadIsLookup(db, o, q, ReadColumns(q'), rows);
      DealtParents(db, q, ReadColumns(q'), keys, rows);
    }
  }

  lemma {:induction false} ChildrenAgree(db: Snapshot, o: Orders, q: AccountSpec, ids: seq<int>)
    requires ValidSnapshot(db) && ValidOrders(o) && Distinct(ids)
    ensures LoadChildren(db, o, q, ids)
            == Unless(Stuck(db, q, ChildRowsOf(db, q, Elems(ids))), ChildrenOfAll(db, q, ids))
    decreases q, 2
  {
    var q' := AskingChildren(q, ids);
    var rows := FetchAccounts(db, o, q');
    AccountReadHasKeys(q.fields, q.withProxy, q.parent.Some?);
    AccountReadHasKeys(q'.fields, q.withProxy, q.parent.Some?);
    assert ID in ReadColumns(q');
    AnsweredChildren(db, q, ids, rows);
    AnswerDistinct(rows, db, q'.where);
    LoadIsLookup(db, o, q, ReadColumns(q'), rows);
    DealtChildren(db, q, ReadColumns(q'), ids, rows);
  }

  lemma {:induction false} LinksAgree(db: Snapshot, o: Orders, q: LinkSpec, ids: seq<int>)
    requires ValidSnapshot(db) && ValidOrders(o) && Distinct(ids)
    ensures LoadAccountGroups(db, o, q, ids)
            == Unless(LinksReadGroups(db, q, LinkRowsOf(db, q, Elems(ids)), true), LinksOfAll(db, q, ids))
    decreases q, 2
  {
    var q' := AskingLinks(q, ids);
    var rows := FetchLinks(db, o, q');
    LinkReadHasKeys(q.fields, q.account.Some?, q.group.Some?);
    LinkReadHasKeys(q'.fields, q.account.Some?, q.group.Some?);
    AnsweredLinks(db, q, ids, rows);
    LoadLinksIsLookup(db, o, q, ReadLinkColumns(q'), rows);
    DealtLinks(db, q, ReadLinkColumns(q'), ids, rows);
  }

  /** Scanned with the columns its edges need, the nodes have the ids and keys of their rows. */
  lemma ScannedKeys(columns: seq<Column>, rows: seq<AccountRow>)
    requires ID in columns
    ensures Elems(Ids(ScanAccounts(columns, rows))) == IdSet(Elems(rows))
    ensures ParentAccountID in columns ==>
              Elems(DistinctKeys(ParentKeys(ScanAccounts(columns, rows)))) == ParentSet(Elems(rows))
  {
    var ids, keys := Ids(ScanAccounts(columns, rows)), ParentKeys(ScanAccounts(columns, rows));
    forall id ensures id in ids <==> id in IdSet(Elems(rows)) {
      if id in ids {
        var k :| 0 <= k < |ids| && ids[k] == id;
        assert rows[k] in rows;
      }
      if r :| r in rows && r.id == id {
        var k :| 0 <= k < |rows| && rows[k] == r;
        assert ids[k] == id;
      }
    }
    if ParentAccountID in columns {
      forall id ensures Some(id) in keys <==> id in ParentSet(Elems(rows)) {
        if Some(id) in keys {
          var k :| 0 <= k < |keys| && keys[k] == Some(id);
          assert rows[k] in rows;
        }
        if r :| r in rows && r.parentId == Some(id) {
          var k :| 0 <= k < |rows| && rows[k] == r;
          assert keys[k] == Some(id);
        }
      }
    }
  }

  lemma ScannedOwners(columns: seq<LinkColumn>, rows: seq<LinkRow>)
    requires AccountID in columns
    ensures Elems(DistinctKeys(AccountKeys(ScanLinks(columns, rows)))) == OwnerSet(Elems(rows))
  {
    var keys := AccountKeys(ScanLinks(columns, rows));
    forall id ensures Some(id) in keys <==> id in OwnerSet(Elems(rows)) {
      if Some(id) in keys {
        var k :| 0 <= k < |keys| && keys[k] == Some(id);
        assert rows[k] in rows;
      }
      if r :| r in rows && r.accountId == id {
        var k :| 0 <= k < |rows| && rows[k] == r;
        assert keys[k] == Some(id);
      }
    }
  }

  /** What loading an edge should give the nodes: nothing if it was not requested. */
  function GroupsEach(db: Snapshot, q: AccountSpec, ids: seq<int>): Option<seq<set<GroupRow>>> {
    if q.groups == None then None else Some(GroupsOfAll(db, q.groups.value, ids))
  }

  function ParentEach(db: Snapshot, q: AccountSpec, keys: seq<Option<int>>): Option<seq<Option<AccountTree>>> {
    if q.parent == None then None else Some(LookupKeys(db, q.parent.value, keys))
  }

  function ChildrenEach(db: Snapshot, q: AccountSpec, ids: seq<int>): Option<seq<multiset<AccountTree>>> {
    if q.children == None then None else Some(ChildrenOfAll(db, q.children.value, ids))
  }

  function LinksEach(db: Snapshot, q: AccountSpec, ids: seq<int>): Option<seq<multiset<LinkTree>>> {
    if q.links == None then None else Some(LinksOfAll(db, q.links.value, ids))
  }

  lemma GroupsEdgeAgrees(db: Snapshot, o: Orders, q: AccountSpec, ids: seq<int>)
    requires ValidSnapshot(db) && ValidOrders(o) && Distinct(ids)
    ensures GroupsEdge(db, o, q, ids) == Unless(EdgeFindsGroups(db, q, Elems(ids), true), GroupsEach(db, q, ids))
  {
    if q.groups.Some? {
      GroupsAgree(db, o, q.groups.value, ids);
    }
  }

  lemma {:induction false} ParentEdgeAgrees(db: Snapshot, o: Orders, q: AccountSpec, keys: seq<Option<int>>)
    requires ValidSnapshot(db) && ValidOrders(o)
    ensures ParentEdge(db, o, q, keys)
            == Unless(ParentsRead(db, q, Elems(DistinctKeys(keys)), true), ParentEach(db, q, keys))
    decreases q, 0
  {
    if q.parent.Some? {
      ParentsAgree(db, o, q.parent.value, keys);
    }
  }

  lemma {:induction false} ChildrenEdgeAgrees(db: Snapshot, o: Orders, q: AccountSpec, ids: seq<int>)
    requires ValidSnapshot(db) && ValidOrders(o) && Distinct(ids)
    ensures ChildrenEdge(db, o, q, ids) == Unless(ChildrenRead(db, q, Elems(ids), true), ChildrenEach(db, q, ids))
    decreases q, 0
  {
    if q.children.Some? {
      ChildrenAgree(db, o, q.children.value, ids);
    }
  }

  lemma {:induction false} LinksEdgeAgrees(db: Snapshot, o: Orders, q: AccountSpec, ids: seq<int>)
    requires ValidSnapshot(db) && ValidOrders(o) && Distinct(ids)
    ensures LinksEdge(db, o, q, ids) == Unless(LinksRead(db, q, Elems(ids), true), LinksEach(db, q, ids))
    decreases q, 0
  {
    if q.links.Some? {
      LinksAgree(db, o, q.links.value, ids);
    }
  }

  /**
   * For every query tree, every selection of fields at every level, every order of every answer and every snapshot with
   * its primary keys, batched loading gives each node exactly the tree that looking up its own neighbours one by one
   * gives. It fails exactly when a groups edge that was run before reads a row.
   */
  lemma {:induction false} LoadIsLookup(
      db: Snapshot, o: Orders, q: AccountSpec, columns: seq<Column>, rows: seq<AccountRow>)
    requires ValidSnapshot(db) && ValidOrders(o) && DistinctAccounts(rows)
    requires ID in columns && (q.parent.Some? ==> ParentAccountID in columns)
    ensures LoadAccounts(db, o, q, columns, rows) == Unless(Stuck(db, q, Elems(rows)), LookupAll(db, q, rows))
    decreases q, 1
  {
    if rows == [] {
      assert Elems(rows) == {};
    } else {
      assert rows[0] in Elems(rows);
      var nodes := ScanAccounts(columns, rows);
      var ids, keys := Ids(nodes), ParentKeys(nodes);
      assert Distinct(ids);
      ScannedKeys(columns, rows);
      GroupsEdgeAgrees(db, o, q, ids);
      ParentEdgeAgrees(db, o, q, keys);
      ChildrenEdgeAgrees(db, o, q, ids);
      LinksEdgeAgrees(db, o, q, ids);
      EdgesTogether(db, o, q, columns, rows);
      AssembledIsLookup(db, q, columns, rows);
      StuckAtAnEdge(db, q, Elems(rows));
      assert ParentsRead(db, q, Elems(DistinctKeys(keys)), true) <==> ParentsRead(db, q, ParentSet(Elems(rows)), true);
    }
  }

  /** Edges are loaded one after the other; each fails for one reason only. */
  lemma EdgesTogether(db: Snapshot, o: Orders, q: AccountSpec, columns: seq<Column>, rows: seq<AccountRow>)
    requires rows != []
    requires var ids, keys := Ids(ScanAccounts(columns, rows)), ParentKeys(ScanAccounts(columns, rows));
             && GroupsEdge(db, o, q, ids) == Unless(EdgeFindsGroups(db, q, Elems(ids), true), GroupsEach(db, q, ids))
             && ParentEdge(db, o, q, keys)
                == Unless(ParentsRead(db, q, Elems(DistinctKeys(keys)), true), ParentEach(db, q, keys))
             && ChildrenEdge(db, o, q, ids) == Unless(ChildrenRead(db, q, Elems(ids), true), ChildrenEach(db, q, ids))
             && LinksEdge(db, o, q, ids) == Unless(LinksRead(db, q, Elems(ids), true), LinksEach(db, q, ids))
    ensures var ids, keys := Ids(ScanAccounts(columns, rows)), ParentKeys(ScanAccounts(columns, rows));
            LoadAccounts(db, o, q, columns, rows)
            == Unless(|| EdgeFindsGroups(db, q, Elems(ids), true)
                      || ParentsRead(db, q, Elems(DistinctKeys(keys)), true)
                      || ChildrenRead(db, q, Elems(ids), true)
                      || LinksRead(db, q, Elems(ids), true),
                      Assemble(rows, GroupsEach(db, q, ids), ParentEach(db, q, keys), ChildrenEach(db, q, ids),
                               LinksEach(db, q, ids)))
  {
  }

  lemma StuckAtAnEdge(db: Snapshot, q: AccountSpec, rows: set<AccountRow>)
    requires rows != {}
    ensures Stuck(db, q, rows)
            <==> || EdgeFindsGroups(db, q, IdSet(rows), true) || ParentsRead(db, q, ParentSet(rows), true)
                 || ChildrenRead(db, q, IdSet(rows), true) || LinksRead(db, q, IdSet(rows), true)
  {
  }

  lemma AssembledIsLookup(db: Snapshot, q: AccountSpec, columns: seq<Column>, rows: seq<AccountRow>)
    requires ID in columns && (q.parent.Some? ==> ParentAccountID in columns)
    ensures var nodes := ScanAccounts(columns, rows);
            var ids, keys := Ids(nodes), ParentKeys(nodes);
            Assemble(rows, GroupsEach(db, q, ids), ParentEach(db, q, keys), ChildrenEach(db, q, ids),
                     LinksEach(db, q, ids)) == LookupAll(db, q, rows)
  {
    var nodes := ScanAccounts(columns, rows);
    var ids, keys := Ids(nodes), ParentKeys(nodes);
    var ts := Assemble(rows, GroupsEach(db, q, ids), ParentEach(db, q, keys), ChildrenEach(db, q, ids),
                       LinksEach(db, q, ids));
    forall i | 0 <= i < |rows| ensures ts[i] == LookupAll(db, q, rows)[i] {
      assert ids[i] == rows[i].id && (q.parent.Some? ==> keys[i] == rows[i].parentId);
      assert LookupAll(db, q, rows)[i] == Lookup(db, q, rows[i]);
    }
  }

  lemma {:induction false} LoadLinksIsLookup(
      db: Snapshot, o: Orders, q: LinkSpec, columns: seq<LinkColumn>, rows: seq<LinkRow>)
    requires ValidSnapshot(db) && ValidOrders(o)
    requires (q.account.Some? ==> AccountID in columns) && (q.group.Some? ==> GroupID in columns)
    ensures LoadLinks(db, o, q, columns, rows)
            == Unless(LinksReadGroups(db, q, Elems(rows), true), LookupLinks(db, q, rows))
    decreases q, 1
  {
    if rows == [] {
      assert q.account.Some? ==> KeyedRows(db, q.account.value, OwnerSet(Elems(rows))) == {};
    } else {
      var nodes := ScanLinks(columns, rows);
      var accountKeys, groupKeys := AccountKeys(nodes), GroupKeys(nodes);
      if q.account.Some? {
        ScannedOwners(columns, rows);
        ParentsAgree(db, o, q.account.value, accountKeys);
      }
      if q.group.Some? {
        LinkGroupsAgree(db, o, q.group.value, groupKeys);
      }
      AssembledLinksAreLookup(db, q, columns, rows);
    }
  }

  function AccountEach(db: Snapshot, q: LinkSpec, keys: seq<Option<int>>): Option<seq<Option<AccountTree>>> {
    if q.account == None then None else Some(LookupKeys(db, q.account.value, keys))
  }

  function GroupEach(db: Snapshot, q: LinkSpec, keys: seq<Option<int>>): Option<seq<Option<GroupRow>>> {
    if q.group == None then None else Some(FindKeys(db, q.group.value, keys))
  }

  lemma AssembledLinksAreLookup(db: Snapshot, q: LinkSpec, columns: seq<LinkColumn>, rows: seq<LinkRow>)
    requires (q.account.Some? ==> AccountID in columns) && (q.group.Some? ==> GroupID in columns)
    ensures var nodes := ScanLinks(columns, rows);
            AssembleLinks(rows, AccountEach(db, q, AccountKeys(nodes)), GroupEach(db, q, GroupKeys(nodes)))
            == LookupLinks(db, q, rows)
  {
    var nodes := ScanLinks(columns, rows);
    var ts := AssembleLinks(rows, AccountEach(db, q, AccountKeys(nodes)), GroupEach(db, q, GroupKeys(nodes)));
    forall i | 0 <= i < |rows| ensures ts[i] == LookupLinks(db, q, rows)[i] {
      assert LookupLinks(db, q, rows)[i] == LookupLink(db, q, rows[i]);
    }
  }

  /** The rows that a query's own conditions select. */
  function Selected(db: Snapshot, q: AccountSpec): set<AccountRow> {
    set r | r in db.accounts && KeepAccount(q.where)(r)
  }

  lemma FetchedAreSelected(db: Snapshot, o: Orders, q: AccountSpec)
    requires ValidOrders(o)
    ensures Elems(FetchAccounts(db, o, q)) == Selected(db, q)
  {
    forall r ensures r in FetchAccounts(db, o, q) <==> r in Selected(db, q) {
      AccountAnswered(FetchAccounts(db, o, q), db, q.where, r);
    }
  }

  /** A whole query, with every answer in any order. */
  lemma QueryLoads(db: Snapshot, o: Orders, q: AccountSpec)
    requires ValidSnapshot(db) && ValidOrders(o)
    ensures QueryAll(db, o, q) == Unless(Stuck(db, q, Selected(db, q)), LookupAll(db, q, FetchAccounts(db, o, q)))
  {
    AccountReadHasKeys(q.fields, q.withProxy, q.parent.Some?);
    FetchedAreSelected(db, o, q);
    AnswerDistinct(FetchAccounts(db, o, q), db, q.where);
    LoadIsLookup(db, o, q, ReadColumns(q), FetchAccounts(db, o, q));
  }

  // ---------------------------------------------------------------- a query that was not run before

  /** No groups edge of the tree was run before. */
  predicate NotRun(q: AccountSpec) {
    && (q.groups.Some? ==> q.groups.value.joins == [])
    && (q.parent.Some? ==> NotRun(q.parent.value))
    && (q.children.Some? ==> NotRun(q.children.value))
    && (q.links.Some? && q.links.value.account.Some? ==> NotRun(q.links.value.account.value))
  }

  lemma {:induction false} NeverStuck(db: Snapshot, q: AccountSpec, rows: set<AccountRow>)
    requires NotRun(q)
    ensures !Stuck(db, q, rows)
    decreases q
  {
    if q.parent.Some? {
      NeverStuck(db, q.parent.value, KeyedRows(db, q.parent.value, ParentSet(rows)));
    }
    if q.children.Some? {
      NeverStuck(db, q.children.value, ChildRowsOf(db, q.children.value, IdSet(rows)));
    }
    if q.links.Some? && q.links.value.account.Some? {
      var account := q.links.value.account.value;
      var links := LinkRowsOf(db, q.links.value, IdSet(rows));
      NeverStuck(db, account, KeyedRows(db, account, OwnerSet(links)));
    }
    assert !ParentsRead(db, q, ParentSet(rows), true);
    assert !ChildrenRead(db, q, IdSet(rows), true);
    assert !LinksRead(db, q, IdSet(rows), true) by {
      assert q.links.Some? ==> !LinksReadGroups(db, q.links.value, LinkRowsOf(db, q.links.value, IdSet(rows)), true);
    }
  }

  /**
   * The first run of a query never fails, whatever its tree, and returns for each row what looking every edge up
   * separately returns: in the answer's order at the top, and as multisets below.
   */
  lemma QueryIsLookup(db: Snapshot, o: Orders, q: AccountSpec)
    requires ValidSnapshot(db) && ValidOrders(o) && NotRun(q)
    ensures QueryAll(db, o, q) == Ok(LookupAll(db, q, FetchAccounts(db, o, q)))
    ensures multiset(QueryAll(db, o, q).value) == multiset(LookupAll(db, q, Filter(db.accounts, KeepAccount(q.where))))
  {
    QueryLoads(db, o, q);
    NeverStuck(db, q, Selected(db, q));
    LookupRearranged(db, q, FetchAccounts(db, o, q), Filter(db.accounts, KeepAccount(q.where)));
  }
}
