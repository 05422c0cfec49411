/**
 * The edge loaders as the program runs them: maps from keys to node objects, filled in loops, then used to assign the
 * fetched neighbour objects to `node.Edges` in place; each neighbour comes with its own edges loaded. Queries are
 * values here; a loader hands back the query with the predicate and field it added.
 */
module EagerLoad {
  import opened Wrappers
  import opened Sequences
  import opened AccountFields
  import opened Schema
  import opened BatchJoin
  import opened Tables
  import opened EagerTree

  class Group {
    const row: GroupRow
    const ID: int

    constructor (row: GroupRow, columns: seq<GroupColumn>)
      ensures this.row == row && ID == ScanGroup(columns, row)
    {
      this.row, ID := row, ScanGroup(columns, row);
    }
  }

  datatype EdgeError = NotLoaded | NotFound

  /** `row` is what the node was scanned from; the program sees the other fields. */
  class Account {
    const row: AccountRow
    const ID: int
    const ParentAccountID: Option<int>
    const LoadedGroups: bool
    const LoadedParent: bool
    const LoadedChildren: bool
    var Groups: seq<Group>
    var Parent: Account?
    var Children: seq<Account>

    constructor (row: AccountRow, columns: seq<Column>, query: AccountSpec)
      ensures this.row == row && AccountNode(ID, ParentAccountID) == ScanAccount(columns, row)
      ensures LoadedGroups == query.groups.Some? && LoadedParent == query.parent.Some?
      ensures LoadedChildren == query.children.Some?
      ensures Groups == [] && Parent == null && Children == []
    {
      var node := ScanAccount(columns, row);
      this.row, ID, ParentAccountID := row, node.id, node.parentId;
      LoadedGroups, LoadedParent, LoadedChildren := query.groups.Some?, query.parent.Some?, query.children.Some?;
      Groups, Parent, Children := [], null, [];
    }

    function GroupsOrErr(): Result<seq<Group>, EdgeError>
      reads this`Groups
    {
      if LoadedGroups then Ok(Groups) else Err(NotLoaded)
    }

    function ParentOrErr(): Result<Account, EdgeError>
      reads this`Parent
    {
      if Parent != null then Ok(Parent)
      else if LoadedParent then Err(NotFound)
      else Err(NotLoaded)
    }

    function ChildrenOrErr(): Result<seq<Account>, EdgeError>
      reads this`Children
    {
      if LoadedChildren then Ok(Children) else Err(NotLoaded)
    }
  }

  // ---------------------------------------------------------------- views of node lists

  function Rows(nodes: seq<Account>): seq<AccountRow> {
    seq(|nodes|, k requires 0 <= k < |nodes| => nodes[k].row)
  }

  function NodeIds(nodes: seq<Account>): seq<int> {
    seq(|nodes|, k requires 0 <= k < |nodes| => nodes[k].ID)
  }

  function NodeKeys(nodes: seq<Account>): seq<Option<int>> {
    seq(|nodes|, k requires 0 <= k < |nodes| => nodes[k].ParentAccountID)
  }

  predicate DistinctNodes(nodes: seq<Account>) {
    forall i, j :: 0 <= i < j < |nodes| ==> nodes[i] != nodes[j]
  }

  /** Nodes scanned from rows with these columns. */
  predicate ScannedFrom(nodes: seq<Account>, columns: seq<Column>) {
    forall k :: 0 <= k < |nodes| ==>
      AccountNode(nodes[k].ID, nodes[k].ParentAccountID) == ScanAccount(columns, nodes[k].row)
  }

  /** A page of an answer: how many rows to skip and how many to keep. */
  datatype Page = Page(offset: nat, limit: nat)

  /** How many of n rows a page holds. */
  function PageSize(n: nat, page: Option<Page>): nat {
    if page == None then n
    else if n <= page.value.offset then 0
    else if n - page.value.offset <= page.value.limit then n - page.value.offset
    else page.value.limit
  }

  /** The rows are what the database may answer: matching rows, none twice, and as many of them as the page holds. */
  ghost predicate Answers(rows: seq<AccountRow>, db: Snapshot, where: seq<AccountPred>, page: Option<Page>) {
    && |rows| == PageSize(|Filter(db.accounts, KeepAccount(where))|, page)
    && multiset(rows) <= multiset(Filter(db.accounts, KeepAccount(where)))
    && (page == None ==> multiset(rows) == multiset(Filter(db.accounts, KeepAccount(where))))
  }

  lemma RowsNext(nodes: seq<Account>, n: Account)
    ensures Rows(nodes + [n]) == Rows(nodes) + [n.row]
  {
  }

  // ---------------------------------------------------------------- the driver

  function Cut<R>(rows: seq<R>, page: Option<Page>): seq<R> {
    if page == None then rows else
      var from := if page.value.offset <= |rows| then page.value.offset else |rows|;
      var to := if from + page.value.limit <= |rows| then from + page.value.limit else |rows|;
      rows[from..to]
  }

  lemma CutIsPart<R>(rows: seq<R>, page: Option<Page>)
    ensures multiset(Cut(rows, page)) <= multiset(rows) && |Cut(rows, page)| == PageSize(|rows|, page)
  {
    if page.Some? {
      var from := if page.value.offset <= |rows| then page.value.offset else |rows|;
      var to := if from + page.value.limit <= |rows| then from + page.value.limit else |rows|;
      SliceIsPart(rows, from, to);
    }
  }

  /** A page holds the rows from its offset on, as many as its limit allows, in order. */
  lemma CutIsPage<R>(rows: seq<R>, offset: nat, limit: nat, k: nat)
    ensures var cut := Cut(rows, Some(Page(offset, limit)));
            && (k < |cut| <==> k < limit && offset + k < |rows|)
            && (k < |cut| ==> cut[k] == rows[offset + k])
    ensures Cut(rows, None) == rows
  {
  }

  /** Consecutive pages make up one larger page. */
  lemma PagesTile<R>(rows: seq<R>, offset: nat, first: nat, second: nat)
    ensures Cut(rows, Some(Page(offset, first))) + Cut(rows, Some(Page(offset + first, second)))
         == Cut(rows, Some(Page(offset, first + second)))
  {
  }

  /** A node as it is scanned: the requested edges are flagged, none is loaded yet. */
  predicate Unloaded(n: Account, query: AccountSpec)
    reads n
  {
    && n.LoadedGroups == query.groups.Some? && n.LoadedParent == query.parent.Some?
    && n.LoadedChildren == query.children.Some?
    && n.Groups == [] && n.Parent == null && n.Children == []
  }

  /** Every answered row is in the table and passes every test; without a page every such row is answered. */
  ghost predicate Returns(rows: seq<AccountRow>, db: Snapshot, where: seq<AccountPred>, page: Option<Page>)
    requires OnlyTests(where)
  {
    && (forall r :: r in rows ==> r in db.accounts && forall k :: 0 <= k < |where| ==> where[k].test(r))
    && (page == None ==>
          forall r :: r in db.accounts && (forall k :: 0 <= k < |where| ==> where[k].test(r)) ==> r in rows)
  }

  lemma AnswersReturn(rows: seq<AccountRow>, db: Snapshot, where: seq<AccountPred>, page: Option<Page>)
    requires Answers(rows, db, where, page) && OnlyTests(where)
    ensures Returns(rows, db, where, page)
  {
    var all := Filter(db.accounts, KeepAccount(where));
    forall r
      ensures r in rows ==> r in db.accounts && forall k :: 0 <= k < |where| ==> where[k].test(r)
      ensures page == None && r in db.accounts && (forall k :: 0 <= k < |where| ==> where[k].test(r)) ==> r in rows
    {
      FilterMember(db.accounts, KeepAccount(where), r);
      AccountTested(where, r);
      assert r in rows ==> r in multiset(rows);
      assert r in all ==> r in multiset(all);
    }
  }

  /** Fetching and scanning accounts. Callers know the rows but not their order. */
  method QueryAccounts(db: Snapshot, query: AccountSpec, columns: seq<Column>, page: Option<Page>)
    returns (nodes: seq<Account>)
    ensures forall n :: n in nodes ==> fresh(n) && Unloaded(n, query)
    ensures DistinctNodes(nodes) && ScannedFrom(nodes, columns) && Answers(Rows(nodes), db, query.where, page)
    ensures OnlyTests(query.where) ==> Returns(Rows(nodes), db, query.where, page)
  {
    var rows := Cut(Filter(db.accounts, KeepAccount(query.where)), page);
    CutIsPart(Filter(db.accounts, KeepAccount(query.where)), page);
    nodes := [];
    for i := 0 to |rows|
      invariant forall n :: n in nodes ==> fresh(n) && Unloaded(n, query)
      invariant DistinctNodes(nodes) && ScannedFrom(nodes, columns) && Rows(nodes) == rows[..i]
    {
      var n := new Account(rows[i], columns, query);
      RowsNext(nodes, n);
      TakeNext(rows, i);
      nodes := nodes + [n];
    }
    TakeAll(rows);
    if OnlyTests(query.where) {
      AnswersReturn(rows, db, query.where, page);
    }
  }

  // ---------------------------------------------------------------- loaded trees of nodes

  function GroupRows(groups: seq<Group>): seq<GroupRow> {
    seq(|groups|, k requires 0 <= k < |groups| => groups[k].row)
  }

  /** Not requested: NotLoaded. Requested: exactly the linked groups that pass the edge's filter, each once. */
  ghost predicate GroupsRight(db: Snapshot, query: AccountSpec, n: Account)
    reads n`Groups
  {
    match n.GroupsOrErr()
    case Err(e) => e == NotLoaded && query.groups == None
    case Ok(groups) =>
      && query.groups.Some? && DistinctGroups(GroupRows(groups))
      && Elems(GroupRows(groups)) == GroupsOf(db, query.groups.value, n.row.id)
  }

  /**
   * Not requested: NotLoaded. Requested: the row with the node's key, or NotFound if it has no key or no row has it.
   */
  ghost predicate ParentRight(db: Snapshot, query: AccountSpec, n: Account)
    reads n`Parent
  {
    if query.parent == None then n.ParentOrErr() == Err(NotLoaded)
    else
      var row := if n.row.parentId == None then None
                 else FindAccount(Filter(db.accounts, KeepAccount(query.parent.value.where)), n.row.parentId.value);
      match n.ParentOrErr()
      case Err(e) => e == NotFound && row == None
      case Ok(p) => row == Some(p.row)
  }

  /** Not requested: NotLoaded. Requested: the rows that name the node as parent, each once. */
  ghost predicate ChildrenRight(db: Snapshot, query: AccountSpec, n: Account)
    reads n`Children
  {
    match n.ChildrenOrErr()
    case Err(e) => e == NotLoaded && query.children == None
    case Ok(children) =>
      && query.children.Some?
      && multiset(Rows(children))
         == multiset(Filter(Filter(db.accounts, KeepAccount(query.children.value.where)), ChildOf(n.row.id)))
  }

  /**
   * The node's accessors answer as the relations do, and so do those of its neighbours, at every depth of the query.
   */
  ghost predicate LoadedIn(db: Snapshot, query: AccountSpec, n: Account, repr: set<Account>)
    reads repr
    decreases query
  {
    && n in repr && GroupsRight(db, query, n) && ParentRight(db, query, n) && ChildrenRight(db, query, n)
    && ParentLoaded(db, query, n, repr) && ChildrenLoaded(db, query, n, repr)
  }

  ghost predicate ParentLoaded(db: Snapshot, query: AccountSpec, n: Account, repr: set<Account>)
    reads n`Parent, repr
    decreases query, 0
  {
    n.Parent != null ==> query.parent.Some? && LoadedIn(db, query.parent.value, n.Parent, repr)
  }

  ghost predicate ChildrenLoaded(db: Snapshot, query: AccountSpec, n: Account, repr: set<Account>)
    reads n`Children, repr
    decreases query, 0
  {
    forall c :: c in n.Children ==> query.children.Some? && LoadedIn(db, query.children.value, c, repr)
  }

  lemma {:induction false} LoadedInMore(
      db: Snapshot, query: AccountSpec, n: Account, repr: set<Account>, more: set<Account>)
    requires LoadedIn(db, query, n, repr) && repr <= more
    ensures LoadedIn(db, query, n, more)
    decreases query
  {
    if n.Parent != null {
      LoadedInMore(db, query.parent.value, n.Parent, repr, more);
    }
    forall c | c in n.Children ensures query.children.Some? && LoadedIn(db, query.children.value, c, more) {
      LoadedInMore(db, query.children.value, c, repr, more);
    }
  }

  /** What is loaded at a node depends on the query's edges and not on its own fields and conditions. */
  lemma LoadedForOwn(db: Snapshot, query: AccountSpec, query': AccountSpec, n: Account, repr: set<Account>)
    requires query' == query.(fields := query'.fields, where := query'.where) && LoadedIn(db, query', n, repr)
    ensures LoadedIn(db, query, n, repr)
  {
    assert ParentLoaded(db, query', n, repr) ==> ParentLoaded(db, query, n, repr);
    assert ChildrenLoaded(db, query', n, repr) ==> ChildrenLoaded(db, query, n, repr);
  }

  /** The query without the edges that are not loaded here. */
  ghost function WithoutLinks(q: AccountSpec): AccountSpec {
    q.(parent := if q.parent == None then None else Some(WithoutLinks(q.parent.value)),
       children := if q.children == None then None else Some(WithoutLinks(q.children.value)),
       links := None)
  }

  /** How many account queries the tree holds. */
  ghost function Size(q: AccountSpec): nat {
    1
    + (if q.parent == None then 0 else Size(q.parent.value))
    + (if q.children == None then 0 else Size(q.children.value))
  }

  function FailsIf(stuck: bool): Option<LoadError> {
    if stuck then Some(BadColumn) else None
  }

  // ---------------------------------------------------------------- a unique edge

  /** The node an id map holds for a key after some neighbours: the last of them with that id, else what was there. */
  function Chosen(neighbors: seq<Account>, key: Option<int>, before: Account?): Account? {
    if key == None then before
    else match LastOf(NodeIds(neighbors), neighbors, key.value)
      case None => before
      case Some(n) => n
  }

  /** The nodes of each key are listed under it. */
  ghost predicate ListsKeys(nodeids: map<int, seq<Account>>, nodes: seq<Account>, keys: seq<Option<int>>) {
    && (forall id :: id in nodeids <==> Some(id) in keys)
    && (forall id, n | id in nodeids && n in nodeids[id] :: n in nodes && n.ParentAccountID == Some(id))
    && (forall n | n in nodes && n.ParentAccountID.Some? ::
          n.ParentAccountID.value in nodeids && n in nodeids[n.ParentAccountID.value])
  }

  function ListMore(nodeids: map<int, seq<Account>>, id: int, n: Account): map<int, seq<Account>> {
    nodeids[id := (if id in nodeids then nodeids[id] else []) + [n]]
  }

  lemma ListsNext(nodeids: map<int, seq<Account>>, nodes: seq<Account>, keys: seq<Option<int>>, n: Account)
    requires ListsKeys(nodeids, nodes, keys)
    ensures var key := n.ParentAccountID;
            ListsKeys(if key == None then nodeids else ListMore(nodeids, key.value, n), nodes + [n], keys + [key])
  {
    if n.ParentAccountID.Some? {
      var fk := n.ParentAccountID.value;
      var more := ListMore(nodeids, fk, n);
      forall id, m | id in more && m in more[id] ensures m in nodes + [n] && m.ParentAccountID == Some(id) {
        if id == fk && m != n {
          assert fk in nodeids && m in nodeids[fk];
        }
      }
    }
  }

  ghost predicate ListedUpTo(ids: seq<int>, nodeids: map<int, seq<Account>>, nodes: seq<Account>, i: nat)
    requires i <= |nodes|
  {
    ids == DistinctKeys(NodeKeys(nodes)[..i]) && ListsKeys(nodeids, nodes[..i], NodeKeys(nodes)[..i])
  }

  lemma ListedNext(ids: seq<int>, nodeids: map<int, seq<Account>>, nodes: seq<Account>, i: nat)
    requires i < |nodes| && ListedUpTo(ids, nodeids, nodes, i)
    ensures var key := nodes[i].ParentAccountID;
            ListedUpTo(if key == None || key.value in nodeids then ids else ids + [key.value],
                       if key == None then nodeids else ListMore(nodeids, key.value, nodes[i]), nodes, i + 1)
  {
    var keys := NodeKeys(nodes);
    ListsNext(nodeids, nodes[..i], keys[..i], nodes[i]);
    DistinctNext(keys[..i], keys[i]);
    TakeNext(nodes, i);
    TakeNext(keys, i);
  }

  /** The first loop of `loadParent`: the keys to fetch, and the nodes that wait for each. */
  method ListByKey(nodes: seq<Account>) returns (ids: seq<int>, nodeids: map<int, seq<Account>>)
    ensures ids == DistinctKeys(NodeKeys(nodes)) && ListsKeys(nodeids, nodes, NodeKeys(nodes))
  {
    ids, nodeids := [], map[];
    for i := 0 to |nodes|
      invariant ListedUpTo(ids, nodeids, nodes, i)
    {
      ListedNext(ids, nodeids, nodes, i);
      if nodes[i].ParentAccountID == None {
        continue;
      }
      var fk := nodes[i].ParentAccountID.value;
      if fk !in nodeids {
        ids := ids + [fk];
      }
      nodeids := ListMore(nodeids, fk, nodes[i]);
    }
    TakeAll(nodes);
    TakeAll(NodeKeys(nodes));
  }

  /** The second loop: each neighbour is assigned to the nodes listed under its id. */
  method AssignParents(fetched: seq<Account>, nodeids: map<int, seq<Account>>, nodes: seq<Account>)
    returns (err: Option<LoadError>)
    requires ListsKeys(nodeids, nodes, NodeKeys(nodes)) && forall k :: 0 <= k < |fetched| ==> fetched[k].ID in nodeids
    modifies nodes`Parent
    ensures err == None
    ensures forall n :: n in nodes ==> n.Parent == Chosen(fetched, n.ParentAccountID, old(n.Parent))
  {
    err := None;
    for k := 0 to |fetched|
      invariant forall n :: n in nodes ==> n.Parent == Chosen(fetched[..k], n.ParentAccountID, old(n.Parent))
    {
      var n := fetched[k];
      if n.ID !in nodeids {
        return Some(UnexpectedKey);
      }
      var listed := nodeids[n.ID];
      for i := 0 to |listed|
        invariant forall m :: m in nodes ==>
                    m.Parent == if m in listed[..i] then n else Chosen(fetched[..k], m.ParentAccountID, old(m.Parent))
      {
        assert listed[i] in nodeids[n.ID] && listed[i] in nodes;
        listed[i].Parent := n;
        assert listed[..i + 1] == listed[..i] + [listed[i]];
      }
      assert listed[..|listed|] == listed;
      forall m | m in nodes ensures m.Parent == Chosen(fetched[..k + 1], m.ParentAccountID, old(m.Parent)) {
        ChosenNext(fetched[..k], n, m.ParentAccountID, old(m.Parent));
        assert fetched[..k + 1] == fetched[..k] + [n];
      }
    }
    assert fetched[..|fetched|] == fetched;
  }

  lemma ChosenNext(fetched: seq<Account>, n: Account, key: Option<int>, before: Account?)
    ensures Chosen(fetched + [n], key, before) == if key == Some(n.ID) then n else Chosen(fetched, key, before)
  {
    var all := fetched + [n];
    assert NodeIds(all)[..|fetched|] == NodeIds(fetched) && all[..|fetched|] == fetched;
  }

  lemma NeighborsLoaded(
      db: Snapshot, query: AccountSpec, query': AccountSpec, neighbors: seq<Account>, repr: set<Account>)
    requires query' == query.(fields := query'.fields, where := query'.where)
    requires forall n :: n in neighbors ==> LoadedIn(db, query', n, repr)
    ensures forall n :: n in neighbors ==> LoadedIn(db, query, n, repr)
  {
    forall n | n in neighbors ensures LoadedIn(db, query, n, repr) {
      LoadedForOwn(db, query, query', n, repr);
    }
  }

  /** The neighbours of a loader: its query with the condition it added, run as any query is. */
  method QueryNeighbors(db: Snapshot, query: AccountSpec, query': AccountSpec, page: Option<Page>)
    returns (nodes: seq<Account>, err: Option<LoadError>, ghost rows: seq<AccountRow>, ghost repr: set<Account>)
    requires ValidSnapshot(db) && query' == query.(fields := query'.fields, where := query'.where)
    ensures Answers(rows, db, query'.where, page)
    ensures err == FailsIf(Stuck(db, WithoutLinks(query), Elems(rows)))
    ensures if err == None then Rows(nodes) == rows else nodes == []
    ensures ScannedFrom(nodes, ReadColumns(query'))
    ensures fresh(repr) && forall n :: n in nodes ==> LoadedIn(db, query, n, repr)
    decreases Size(query), 3
  {
    nodes, err, rows, repr := SqlAll(db, query', page);
    OwnConditionsReads(db, WithoutLinks(query), WithoutLinks(query'), Elems(rows), true);
    NeighborsLoaded(db, query, query', nodes, repr);
  }

  /** `loadParent`: one query for all keys, then each fetched row goes to the nodes whose foreign key it is. */
  method LoadParent(db: Snapshot, query: AccountSpec, page: Option<Page>, nodes: seq<Account>)
    returns (query': AccountSpec, err: Option<LoadError>,
             ghost rows: seq<AccountRow>, ghost neighbors: seq<Account>, ghost repr: set<Account>)
    requires ValidSnapshot(db)
    modifies nodes`Parent
    ensures query' == if DistinctKeys(NodeKeys(nodes)) == [] then query
                      else AskingIds(query, DistinctKeys(NodeKeys(nodes)))
    ensures if DistinctKeys(NodeKeys(nodes)) == [] then rows == [] else Answers(rows, db, query'.where, page)
    ensures err == FailsIf(Stuck(db, WithoutLinks(query), Elems(rows)))
    ensures fresh(repr) && forall n :: n in neighbors ==> LoadedIn(db, query, n, repr)
    ensures err == None ==> Rows(neighbors) == rows
    ensures forall k :: 0 <= k < |neighbors| ==> neighbors[k].ID == neighbors[k].row.id
    ensures err == None ==> forall n :: n in nodes ==> n.Parent == Chosen(neighbors, n.ParentAccountID, old(n.Parent))
    ensures err.Some? ==> forall n :: n in nodes ==> n.Parent == old(n.Parent)
    decreases Size(query), 4
  {
    var ids, nodeids := ListByKey(nodes);
    query', err, rows, neighbors, repr := query, None, [], [], {};
    if |ids| == 0 {
      assert forall n :: n in nodes ==> n.Parent == Chosen([], n.ParentAccountID, old(n.Parent));
      return;
    }
    query' := AskingIds(query, ids);
    var fetched;
    fetched, err, rows, repr := QueryNeighbors(db, query, query', page);
    if err.Some? {
      return;
    }
    neighbors := fetched;
    ScannedIds(fetched, query');
    WantedIds(db, query, ids, page, fetched);
    err := AssignParents(fetched, nodeids, nodes);
  }

  /** Every query reads the id; the parent key is read when it is needed. */
  lemma ScannedIds(nodes: seq<Account>, query: AccountSpec)
    requires ScannedFrom(nodes, ReadColumns(query))
    ensures forall k :: 0 <= k < |nodes| ==> nodes[k].ID == nodes[k].row.id
    ensures ParentAccountID in ReadColumns(query) ==>
              forall k :: 0 <= k < |nodes| ==> nodes[k].ParentAccountID == nodes[k].row.parentId
  {
    AccountReadHasKeys(query.fields, query.withProxy, query.parent.Some?);
    assert ID in ReadColumns(query);
  }

  /** Every fetched row was asked for. */
  lemma WantedIds(db: Snapshot, query: AccountSpec, ids: seq<int>, page: Option<Page>, fetched: seq<Account>)
    requires Answers(Rows(fetched), db, query.where + [IDIn(ids)], page)
    ensures forall k :: 0 <= k < |fetched| ==> fetched[k].row.id in ids
  {
    forall k | 0 <= k < |fetched| ensures fetched[k].row.id in ids {
      var r := fetched[k].row;
      assert Rows(fetched)[k] == r && r in Rows(fetched) && r in multiset(Rows(fetched));
      FilterMember(db.accounts, KeepAccount(query.where + [IDIn(ids)]), r);
      KeepAlso(query.where, IDIn(ids), r);
    }
  }

  lemma AnswerMember(db: Snapshot, where: seq<AccountPred>, page: Option<Page>, fetched: seq<Account>)
    requires Answers(Rows(fetched), db, where, page)
    ensures forall k :: 0 <= k < |fetched| ==> fetched[k].row in Filter(db.accounts, KeepAccount(where))
    ensures page == None ==> forall r :: r in Filter(db.accounts, KeepAccount(where)) ==>
                               exists k :: 0 <= k < |fetched| && fetched[k].row == r
  {
    var all := Filter(db.accounts, KeepAccount(where));
    forall k | 0 <= k < |fetched| ensures fetched[k].row in all {
      assert Rows(fetched)[k] in Rows(fetched) && Rows(fetched)[k] in multiset(Rows(fetched));
    }
    if page == None {
      forall r | r in all ensures exists k :: 0 <= k < |fetched| && fetched[k].row == r {
        assert r in multiset(all) && r in multiset(Rows(fetched)) && r in Rows(fetched);
        var k :| 0 <= k < |Rows(fetched)| && Rows(fetched)[k] == r;
      }
    }
  }

  lemma {:induction false} LastOfMember<T>(ids: seq<int>, items: seq<T>, id: int) returns (k: nat)
    requires |ids| == |items| && id in ids
    ensures k < |ids| && ids[k] == id && LastOf(ids, items, id) == Some(items[k])
  {
    var n := |ids| - 1;
    if ids[n] == id {
      k := n;
    } else {
      assert ids == ids[..n] + [ids[n]];
      k := LastOfMember(ids[..n], items[..n], id);
    }
  }

  /**
   * What `loadParent` leaves on a node without a parent yet: the filtered table's one row with the node's key. With a
   * page on the edge query it can only miss rows, never give a wrong one.
   */
  lemma ChosenIsLookup(db: Snapshot, where: seq<AccountPred>, page: Option<Page>, keys: seq<Option<int>>,
                       neighbors: seq<Account>, key: int)
    requires ValidSnapshot(db) && Some(key) in keys
    requires Answers(Rows(neighbors), db, where + [IDIn(DistinctKeys(keys))], page)
    requires forall k :: 0 <= k < |neighbors| ==> neighbors[k].ID == neighbors[k].row.id
    ensures var parent := Chosen(neighbors, Some(key), null);
            var row := FindAccount(Filter(db.accounts, KeepAccount(where)), key);
            && (parent != null ==> row == Some(parent.row) && parent in neighbors)
            && (parent == null && page == None ==> row == None)
  {
    var all := Filter(db.accounts, KeepAccount(where));
    var some := Filter(db.accounts, KeepAccount(where + [IDIn(DistinctKeys(keys))]));
    AnswerMember(db, where + [IDIn(DistinctKeys(keys))], page, neighbors);
    FoundAccount(all, key);
    if page == None && FindAccount(all, key).Some? {
      var r := FindAccount(all, key).value;
      FilterMember(db.accounts, KeepAccount(where), r);
      KeepAlso(where, IDIn(DistinctKeys(keys)), r);
      FilterMember(db.accounts, KeepAccount(where + [IDIn(DistinctKeys(keys))]), r);
      var k :| 0 <= k < |neighbors| && neighbors[k].row == r;
      assert NodeIds(neighbors)[k] == key;
    }
    if key in NodeIds(neighbors) {
      var k := LastOfMember(NodeIds(neighbors), neighbors, key);
      var r := neighbors[k].row;
      FilterMember(db.accounts, KeepAccount(where + [IDIn(DistinctKeys(keys))]), r);
      KeepAlso(where, IDIn(DistinctKeys(keys)), r);
      FilterMember(db.accounts, KeepAccount(where), r);
      SameAccount(db, KeepAccount(where), r, FindAccount(all, key).value);
    }
  }

  // ---------------------------------------------------------------- a list edge

  /** The map from id to node keeps the last node of each id. */
  ghost predicate HoldsLast(nodeids: map<int, Account>, nodes: seq<Account>) {
    && (forall k :: 0 <= k < |nodes| ==> nodes[k].ID in nodeids)
    && (forall id :: id in nodeids ==> exists k :: 0 <= k < |nodes| && nodes[k].ID == id)
    && (forall k :: 0 <= k < |nodes| && LastWithId(NodeIds(nodes), k) ==> nodeids[nodes[k].ID] == nodes[k])
  }

  lemma HoldsLastNext(nodeids: map<int, Account>, nodes: seq<Account>, n: Account)
    requires HoldsLast(nodeids, nodes)
    ensures HoldsLast(nodeids[n.ID := n], nodes + [n])
  {
    var all := nodes + [n];
    assert all[|nodes|] == n && forall k :: 0 <= k < |nodes| ==> all[k] == nodes[k];
    var more := nodeids[n.ID := n];
    forall id | id in more ensures exists k :: 0 <= k < |all| && all[k].ID == id {
      if id in nodeids && id != n.ID {
        var k :| 0 <= k < |nodes| && nodes[k].ID == id;
        assert all[k].ID == id;
      } else {
        assert all[|nodes|].ID == id;
      }
    }
    forall k | 0 <= k < |nodes| && LastWithId(NodeIds(all), k)
      ensures n.ID != nodes[k].ID && LastWithId(NodeIds(nodes), k)
    {
      assert NodeIds(all)[|nodes|] == n.ID;
      assert forall j :: k < j < |nodes| ==> NodeIds(all)[j] == NodeIds(nodes)[j];
    }
  }

  /** The first loop of `loadChildren`, which also starts every node's list. */
  method IndexById(nodes: seq<Account>) returns (nodeids: map<int, Account>)
    modifies nodes`Children
    ensures HoldsLast(nodeids, nodes) && forall n :: n in nodes ==> n.Children == []
  {
    nodeids := map[];
    for i := 0 to |nodes|
      invariant HoldsLast(nodeids, nodes[..i]) && forall n :: n in nodes[..i] ==> n.Children == []
    {
      HoldsLastNext(nodeids, nodes[..i], nodes[i]);
      assert nodes[..i + 1] == nodes[..i] + [nodes[i]];
      nodeids := nodeids[nodes[i].ID := nodes[i]];
      nodes[i].Children := [];
    }
    assert nodes[..|nodes|] == nodes;
  }

  /** A node's share of the neighbours: only the last node with an id gets any. */
  function Share(nodes: seq<Account>, i: nat, neighbors: seq<Account>): seq<Account>
    requires i < |nodes|
  {
    if LastWithId(NodeIds(nodes), i) then Owned(NodeKeys(neighbors), neighbors, nodes[i].ID) else []
  }

  /** Every node's list is its share of the neighbours. */
  ghost predicate DealtOut(nodes: seq<Account>, neighbors: seq<Account>)
    reads nodes`Children
  {
    forall i :: 0 <= i < |nodes| ==> nodes[i].Children == Share(nodes, i, neighbors)
  }

  lemma OwnedNext(neighbors: seq<Account>, n: Account, id: int)
    ensures Owned(NodeKeys(neighbors + [n]), neighbors + [n], id)
            == Owned(NodeKeys(neighbors), neighbors, id) + if n.ParentAccountID == Some(id) then [n] else []
  {
    var all := neighbors + [n];
    assert NodeKeys(all)[..|neighbors|] == NodeKeys(neighbors) && all[..|neighbors|] == neighbors;
  }

  /** The second loop: each neighbour is appended to the list of the node its own key names. */
  method AssignChildren(fetched: seq<Account>, nodeids: map<int, Account>, nodes: seq<Account>)
    returns (err: Option<LoadError>)
    requires HoldsLast(nodeids, nodes) && DistinctNodes(nodes) && forall n :: n in nodes ==> n.Children == []
    requires forall n :: n in fetched ==> n.ParentAccountID.Some? && n.ParentAccountID.value in nodeids
    modifies nodes`Children
    ensures err == None && DealtOut(nodes, fetched)
  {
    err := None;
    NothingDealt(nodes);
    assert fetched[..0] == [];
    for k := 0 to |fetched|
      invariant DealtOut(nodes, fetched[..k])
    {
      var n := fetched[k];
      if n.ParentAccountID == None {
        return Some(NilKey);
      }
      if n.ParentAccountID.value !in nodeids {
        return Some(UnexpectedOwner);
      }
      AppendChild(n, nodeids, nodes, fetched[..k]);
      TakeNext(fetched, k);
    }
    assert fetched[..|fetched|] == fetched;
  }

  lemma NothingDealt(nodes: seq<Account>)
    requires forall n :: n in nodes ==> n.Children == []
    ensures DealtOut(nodes, [])
  {
    forall i | 0 <= i < |nodes| ensures nodes[i].Children == Share(nodes, i, []) {
      assert nodes[i] in nodes;
    }
  }

  method AppendChild(n: Account, nodeids: map<int, Account>, nodes: seq<Account>, ghost before: seq<Account>)
    requires HoldsLast(nodeids, nodes) && DistinctNodes(nodes) && DealtOut(nodes, before)
    requires n.ParentAccountID.Some? && n.ParentAccountID.value in nodeids
    modifies nodes`Children
    ensures DealtOut(nodes, before + [n])
  {
    var fk := n.ParentAccountID.value;
    ghost var at := LastNode(nodes, fk);
    assert nodeids[fk] == nodes[at];
    nodeids[fk].Children := nodeids[fk].Children + [n];
    forall i | 0 <= i < |nodes| ensures nodes[i].Children == Share(nodes, i, before + [n]) {
      OwnedNext(before, n, nodes[i].ID);
      OneLast(nodes, i, at);
    }
  }

  ghost function LastNode(nodes: seq<Account>, id: int): (at: nat)
    requires exists k :: 0 <= k < |nodes| && nodes[k].ID == id
    ensures at < |nodes| && nodes[at].ID == id && LastWithId(NodeIds(nodes), at)
  {
    var n := |nodes| - 1;
    if nodes[n].ID == id then n else
      assert forall k :: 0 <= k < n ==> nodes[..n][k] == nodes[k];
      var at := LastNode(nodes[..n], id);
      assert forall j :: at < j < n ==> NodeIds(nodes)[j] == NodeIds(nodes[..n])[j];
      at
  }

  lemma OneLast(nodes: seq<Account>, i: nat, at: nat)
    requires i < |nodes| && at < |nodes| && LastWithId(NodeIds(nodes), at)
    ensures nodes[i].ID == nodes[at].ID && LastWithId(NodeIds(nodes), i) ==> i == at
  {
    assert NodeIds(nodes)[i] == nodes[i].ID && NodeIds(nodes)[at] == nodes[at].ID;
  }

  /** `loadChildren`: one query for the rows that name any of the nodes as parent. The key column is always read. */
  method LoadChildren(db: Snapshot, query: AccountSpec, page: Option<Page>, nodes: seq<Account>)
    returns (query': AccountSpec, err: Option<LoadError>,
             ghost rows: seq<AccountRow>, ghost neighbors: seq<Account>, ghost repr: set<Account>)
    requires ValidSnapshot(db) && DistinctNodes(nodes)
    modifies nodes`Children
    ensures query' == AskingChildren(query, NodeIds(nodes))
    ensures Answers(rows, db, query'.where, page)
    ensures err == FailsIf(Stuck(db, WithoutLinks(query), Elems(rows)))
    ensures fresh(repr) && forall n :: n in neighbors ==> LoadedIn(db, query, n, repr)
    ensures err == None ==> Rows(neighbors) == rows
    ensures forall k :: 0 <= k < |neighbors| ==> neighbors[k].ParentAccountID == neighbors[k].row.parentId
    ensures err == None ==> DealtOut(nodes, neighbors)
    ensures err.Some? ==> forall n :: n in nodes ==> n.Children == []
    decreases Size(query), 4
  {
    var fks := NodeIds(nodes);
    var nodeids := IndexById(nodes);
    query', neighbors := AskingChildren(query, fks), [];
    var fetched;
    fetched, err, rows, repr := QueryNeighbors(db, query, query', page);
    if err.Some? {
      return;
    }
    neighbors := fetched;
    WantedOwners(db, query, fks, page, fetched);
    assert forall id :: id in fks ==> id in nodeids;
    err := AssignChildren(fetched, nodeids, nodes);
  }

  /** Whatever fields are selected, every fetched node has its key, and names a parent that was asked for. */
  lemma WantedOwners(db: Snapshot, query: AccountSpec, ids: seq<int>, page: Option<Page>, fetched: seq<Account>)
    requires ScannedFrom(fetched, ReadColumns(AskingChildren(query, ids)))
    requires Answers(Rows(fetched), db, AskingChildren(query, ids).where, page)
    ensures forall k :: 0 <= k < |fetched| ==> fetched[k].ParentAccountID == fetched[k].row.parentId
    ensures forall n :: n in fetched ==> n.ParentAccountID.Some? && n.ParentAccountID.value in ids
  {
    AccountReadHasKeys(query.fields, query.withProxy, query.parent.Some?);
    ScannedIds(fetched, AskingChildren(query, ids));
    AnswerMember(db, AskingChildren(query, ids).where, page, fetched);
    forall k | 0 <= k < |fetched| ensures fetched[k].row.parentId.Some? && fetched[k].row.parentId.value in ids {
      FilterMember(db.accounts, KeepAccount(AskingChildren(query, ids).where), fetched[k].row);
      KeepAlso(query.where, ParentIn(ids), fetched[k].row);
    }
  }

  /** The lengths of all lists together. */
  function ChildTotal(nodes: seq<Account>, n: nat): nat
    requires n <= |nodes|
    reads nodes`Children
  {
    if n == 0 then 0 else ChildTotal(nodes, n - 1) + |nodes[n - 1].Children|
  }

  lemma ShareSize(nodes: seq<Account>, neighbors: seq<Account>, i: nat)
    requires i < |nodes| && DealtOut(nodes, neighbors)
    ensures |nodes[i].Children|
         == if LastWithId(NodeIds(nodes), i) then |Owned(NodeKeys(neighbors), neighbors, NodeIds(nodes)[i])| else 0
  {
    assert nodes[i].Children == Share(nodes, i, neighbors);
  }

  lemma {:induction false} TotalOf(nodes: seq<Account>, ids: seq<int>, keys: seq<Option<int>>, items: seq<Account>,
                                   n: nat)
    requires n <= |nodes| == |ids| && |keys| == |items|
    requires forall i :: 0 <= i < n ==>
               |nodes[i].Children| == if LastWithId(ids, i) then |Owned(keys, items, ids[i])| else 0
    ensures ChildTotal(nodes, n) == ShareTotal(ids, keys, items, n)
  {
    if n > 0 {
      TotalOf(nodes, ids, keys, items, n - 1);
    }
  }

  lemma TotalIsShares(nodes: seq<Account>, neighbors: seq<Account>)
    requires DealtOut(nodes, neighbors)
    ensures ChildTotal(nodes, |nodes|) == ShareTotal(NodeIds(nodes), NodeKeys(neighbors), neighbors, |nodes|)
  {
    var ids, keys := NodeIds(nodes), NodeKeys(neighbors);
    forall i | 0 <= i < |nodes|
      ensures |nodes[i].Children| == if LastWithId(ids, i) then |Owned(keys, neighbors, ids[i])| else 0
    {
      ShareSize(nodes, neighbors, i);
    }
    TotalOf(nodes, ids, keys, neighbors, |nodes|);
  }

  /** Conservation: the lists' lengths add up to the number of fetched rows, whether or not node ids repeat. */
  lemma ChildrenConserved(nodes: seq<Account>, neighbors: seq<Account>)
    requires DealtOut(nodes, neighbors)
    requires forall n :: n in neighbors ==> n.ParentAccountID.Some? && n.ParentAccountID.value in NodeIds(nodes)
    ensures ChildTotal(nodes, |nodes|) == |neighbors|
  {
    forall k | 0 <= k < |neighbors|
      ensures NodeKeys(neighbors)[k].Some? && NodeKeys(neighbors)[k].value in NodeIds(nodes)
    {
      assert neighbors[k] in neighbors;
    }
    TotalIsShares(nodes, neighbors);
    SharesConserved(NodeKeys(neighbors), neighbors, NodeIds(nodes));
  }

  // ---------------------------------------------------------------- a many-to-many edge

  /** The joined rows for these accounts, in any order; a page drops those it does not hold. */
  ghost predicate AnswersJoin(rows: seq<JoinRow>, db: Snapshot, query: GroupSpec, ids: seq<int>, page: Option<Page>) {
    && |rows| == PageSize(|Stream(db, query, ids)|, page)
    && multiset(rows) <= multiset(Stream(db, query, ids))
    && (page == None ==> multiset(rows) == multiset(Stream(db, query, ids)))
  }

  method QueryJoined(db: Snapshot, query: GroupSpec, ids: seq<int>, page: Option<Page>) returns (rows: seq<JoinRow>)
    ensures AnswersJoin(rows, db, query, ids, page)
  {
    rows := Cut(Stream(db, query, ids), page);
    CutIsPart(Stream(db, query, ids), page);
  }

  /** Which nodes each seen group goes to: the last node of every account id its rows name. */
  ghost predicate ListsGroups(nids: map<int, set<Account>>, rows: seq<JoinRow>, byID: map<int, Account>) {
    && (forall id :: id in nids <==> Seen(rows, id))
    && (forall id, n | id in nids && n in nids[id] :: exists a | a in byID :: byID[a] == n && Links(rows, a, id))
    && (forall id, a | id in nids && a in byID && Links(rows, a, id) :: byID[a] in nids[id])
  }

  /**
   * The row scan: the account id is read at the first position and the group id at the second; the first row of a group
   * makes its object, every row adds the account it names. After an earlier run the second position holds no group id.
   */
  method ScanJoined(runs: nat, fields: seq<GroupColumn>, rows: seq<JoinRow>, byID: map<int, Account>)
    returns (err: Option<LoadError>, nids: map<int, set<Account>>, neighbors: seq<Group>)
    requires runs > 0 && forall k :: 0 <= k < |rows| ==> rows[k].0 in byID
    ensures err == FailsIf(runs > 1 && rows != [])
    ensures err == None ==> ListsGroups(nids, rows, byID) && GroupRows(neighbors) == FirstSeen(rows)
    ensures forall g :: g in neighbors ==> fresh(g) && g.ID == g.row.id
  {
    err, nids, neighbors := None, map[], [];
    var selected := Selection(runs, GroupRead(fields));
    for k := 0 to |rows|
      invariant runs > 1 ==> k == 0
      invariant ListsGroups(nids, rows[..k], byID) && GroupRows(neighbors) == FirstSeen(rows[..k])
      invariant forall g :: g in neighbors ==> fresh(g) && g.ID == g.row.id
    {
      var (account, row) := rows[k];
      ReadAt(runs, fields, account, row);
      var read := ReadJoined(selected, account, row);
      if read == None {
        return Some(BadColumn), nids, neighbors;
      }
      var (out, id) := read.value;
      ScanNext(nids, rows, byID, k);
      if id !in nids {
        nids := nids[id := {byID[out]}];
        var g := new Group(row, selected[1..]);
        neighbors := neighbors + [g];
      } else {
        nids := nids[id := nids[id] + {byID[out]}];
      }
    }
    TakeAll(rows);
  }

  lemma ScanNext(nids: map<int, set<Account>>, rows: seq<JoinRow>, byID: map<int, Account>, k: nat)
    requires k < |rows| && ListsGroups(nids, rows[..k], byID) && rows[k].0 in byID
    ensures var (a, g) := rows[k];
            && ListsGroups(nids[g.id := (if g.id in nids then nids[g.id] else {}) + {byID[a]}], rows[..k + 1], byID)
            && FirstSeen(rows[..k + 1]) == FirstSeen(rows[..k]) + if g.id in nids then [] else [g]
  {
    TakeNext(rows, k);
    FirstSeenNext(rows[..k], rows[k]);
    ListsGroupsNext(nids, rows[..k], byID, rows[k]);
  }

  lemma ReadAt(runs: nat, fields: seq<GroupColumn>, account: int, row: GroupRow)
    requires runs > 0
    ensures var selected := Selection(runs, GroupRead(fields));
            && selected != []
            && ReadJoined(selected, account, row) == (if runs == 1 then Some((account, row.id)) else None)
            && (runs == 1 ==> ScanGroup(selected[1..], row) == row.id)
  {
    if runs == 1 {
      FirstRunReads(fields, account, row);
    } else {
      LaterRunsRead(runs, GroupRead(fields), account, row);
    }
  }

  lemma SeenNext(rows: seq<JoinRow>, row: JoinRow, id: int, a: int)
    ensures Seen(rows + [row], id) <==> Seen(rows, id) || row.1.id == id
    ensures Links(rows + [row], a, id) <==> Links(rows, a, id) || (row.0 == a && row.1.id == id)
    ensures Links(rows, a, id) ==> Seen(rows, id)
  {
    var all := rows + [row];
    assert all[|rows|] == row && forall k :: 0 <= k < |rows| ==> all[k] == rows[k];
    if Seen(rows, id) {
      var k :| 0 <= k < |rows| && rows[k].1.id == id;
      assert all[k].1.id == id;
    }
    if Links(rows, a, id) {
      var k :| 0 <= k < |rows| && rows[k].0 == a && rows[k].1.id == id;
      assert all[k].0 == a && all[k].1.id == id;
    }
  }

  lemma ListsGroupsNext(nids: map<int, set<Account>>, rows: seq<JoinRow>, byID: map<int, Account>, row: JoinRow)
    requires ListsGroups(nids, rows, byID) && row.0 in byID
    ensures var more := (if row.1.id in nids then nids[row.1.id] else {}) + {byID[row.0]};
            ListsGroups(nids[row.1.id := more], rows + [row], byID)
  {
    var more := (if row.1.id in nids then nids[row.1.id] else {}) + {byID[row.0]};
    var nids' := nids[row.1.id := more];
    forall id ensures id in nids' <==> Seen(rows + [row], id) {
      SeenNext(rows, row, id, 0);
    }
    forall id, n | id in nids' && n in nids'[id]
      ensures exists a | a in byID :: byID[a] == n && Links(rows + [row], a, id)
    {
      if id in nids && n in nids[id] {
        var a :| a in byID && byID[a] == n && Links(rows, a, id);
        SeenNext(rows, row, id, a);
      } else {
        SeenNext(rows, row, id, row.0);
        assert byID[row.0] == n;
      }
    }
    forall id, a | id in nids' && a in byID && Links(rows + [row], a, id) ensures byID[a] in nids'[id] {
      SeenNext(rows, row, id, a);
    }
  }

  /** The neighbour objects linked to one account, in neighbour order. */
  function Picked(neighbors: seq<Group>, rows: seq<JoinRow>, accountId: int): seq<Group> {
    if neighbors == [] then [] else
      var n := |neighbors| - 1;
      Picked(neighbors[..n], rows, accountId)
      + if Links(rows, accountId, neighbors[n].row.id) then [neighbors[n]] else []
  }

  lemma PickedNext(neighbors: seq<Group>, g: Group, rows: seq<JoinRow>, accountId: int)
    ensures Picked(neighbors + [g], rows, accountId)
            == Picked(neighbors, rows, accountId) + if Links(rows, accountId, g.row.id) then [g] else []
  {
    assert (neighbors + [g])[..|neighbors|] == neighbors;
  }

  lemma {:induction false} PickedRows(neighbors: seq<Group>, rows: seq<JoinRow>, accountId: int)
    ensures GroupRows(Picked(neighbors, rows, accountId)) == LinkedTo(GroupRows(neighbors), rows, accountId)
  {
    if neighbors != [] {
      var n := |neighbors| - 1;
      PickedRows(neighbors[..n], rows, accountId);
      assert GroupRows(neighbors)[..n] == GroupRows(neighbors[..n]);
    }
  }

  function GroupShare(nodes: seq<Account>, i: nat, neighbors: seq<Group>, rows: seq<JoinRow>): seq<Group>
    requires i < |nodes|
  {
    if LastWithId(NodeIds(nodes), i) then Picked(neighbors, rows, nodes[i].ID) else []
  }

  ghost predicate GroupsDealt(nodes: seq<Account>, neighbors: seq<Group>, rows: seq<JoinRow>)
    reads nodes`Groups
  {
    forall i :: 0 <= i < |nodes| ==> nodes[i].Groups == GroupShare(nodes, i, neighbors, rows)
  }

  /** The first loop of `loadGroups`. */
  method IndexForGroups(nodes: seq<Account>) returns (byID: map<int, Account>)
    modifies nodes`Groups
    ensures HoldsLast(byID, nodes) && forall n :: n in nodes ==> n.Groups == []
  {
    byID := map[];
    for i := 0 to |nodes|
      invariant HoldsLast(byID, nodes[..i]) && forall n :: n in nodes[..i] ==> n.Groups == []
    {
      HoldsLastNext(byID, nodes[..i], nodes[i]);
      TakeNext(nodes, i);
      byID := byID[nodes[i].ID := nodes[i]];
      nodes[i].Groups := [];
    }
    assert nodes[..|nodes|] == nodes;
  }

  /** Appending one group to a set of nodes, in whatever order the map iteration takes. */
  method AppendGroup(g: Group, targets: set<Account>, nodes: seq<Account>)
    requires forall n :: n in targets ==> n in nodes
    modifies nodes`Groups
    ensures forall n :: n in nodes ==> n.Groups == old(n.Groups) + if n in targets then [g] else []
  {
    var rest := targets;
    while rest != {}
      invariant rest <= targets
      invariant forall n :: n in nodes ==>
                  n.Groups == if n in targets - rest then old(n.Groups) + [g] else old(n.Groups)
      decreases rest
    {
      var kn :| kn in rest;
      kn.Groups := kn.Groups + [g];
      rest := rest - {kn};
    }
    assert forall n :: n in nodes && n !in targets ==> n.Groups + [] == n.Groups;
  }

  /** A node is listed for a group exactly when it is the last with its id and some row links the two. */
  lemma ListedIff(nids: map<int, set<Account>>, rows: seq<JoinRow>, byID: map<int, Account>, nodes: seq<Account>,
                  i: nat, id: int)
    requires ListsGroups(nids, rows, byID) && HoldsLast(byID, nodes) && DistinctNodes(nodes)
    requires i < |nodes| && id in nids
    ensures nodes[i] in nids[id] <==> LastWithId(NodeIds(nodes), i) && Links(rows, nodes[i].ID, id)
  {
    if nodes[i] in nids[id] {
      var a :| a in byID && byID[a] == nodes[i] && Links(rows, a, id);
      var at := LastNode(nodes, a);
      assert byID[a] == nodes[at] && at == i;
    }
  }

  lemma TargetsAreNodes(nids: map<int, set<Account>>, rows: seq<JoinRow>, byID: map<int, Account>, nodes: seq<Account>,
                        id: int)
    requires ListsGroups(nids, rows, byID) && HoldsLast(byID, nodes) && id in nids
    ensures forall n :: n in nids[id] ==> n in nodes
  {
    forall n | n in nids[id] ensures n in nodes {
      var a :| a in byID && byID[a] == n && Links(rows, a, id);
      assert byID[a] == nodes[LastNode(nodes, a)];
    }
  }

  /** The last loop of `loadGroups`. */
  method AssignGroups(neighbors: seq<Group>, nids: map<int, set<Account>>, nodes: seq<Account>,
                      ghost rows: seq<JoinRow>, ghost byID: map<int, Account>) returns (err: Option<LoadError>)
    requires ListsGroups(nids, rows, byID) && HoldsLast(byID, nodes) && DistinctNodes(nodes)
    requires forall n :: n in nodes ==> n.Groups == []
    requires forall k :: 0 <= k < |neighbors| ==> neighbors[k].ID in nids && neighbors[k].ID == neighbors[k].row.id
    modifies nodes`Groups
    ensures err == None && GroupsDealt(nodes, neighbors, rows)
  {
    err := None;
    assert GroupsDealt(nodes, neighbors[..0], rows) by {
      assert neighbors[..0] == [];
    }
    for k := 0 to |neighbors|
      invariant GroupsDealt(nodes, neighbors[..k], rows)
    {
      var g := neighbors[k];
      if g.ID !in nids {
        return Some(UnexpectedKey);
      }
      TargetsAreNodes(nids, rows, byID, nodes, g.ID);
      AppendGroup(g, nids[g.ID], nodes);
      TakeNext(neighbors, k);
      forall i | 0 <= i < |nodes| ensures nodes[i].Groups == GroupShare(nodes, i, neighbors[..k + 1], rows) {
        assert nodes[i] in nodes;
        ListedIff(nids, rows, byID, nodes, i, g.ID);
        PickedNext(neighbors[..k], g, rows, nodes[i].ID);
      }
    }
    assert neighbors[..|neighbors|] == neighbors;
  }

  /**
   * `loadGroups`: one joined query for all accounts; each group id gets one object, shared by every account linked to
   * it; each account's list holds its linked groups in neighbour order, whatever order the map of nodes is walked in. A
   * query that was run before fails at the first row.
   */
  method LoadGroups(db: Snapshot, query: GroupSpec, page: Option<Page>, nodes: seq<Account>)
    returns (query': GroupSpec, err: Option<LoadError>, ghost rows: seq<JoinRow>, ghost neighbors: seq<Group>)
    requires ValidSnapshot(db) && DistinctNodes(nodes)
    modifies nodes`Groups
    ensures query' == Joining(query, NodeIds(nodes))
    ensures AnswersJoin(rows, db, query, NodeIds(nodes), page)
    ensures err == FailsIf(query.joins != [] && rows != [])
    ensures err == None ==> GroupRows(neighbors) == FirstSeen(rows) && GroupsDealt(nodes, neighbors, rows)
    ensures err.Some? ==> forall n :: n in nodes ==> n.Groups == []
    ensures forall g :: g in neighbors ==> fresh(g)
  {
    var edgeIDs := NodeIds(nodes);
    var byID := IndexForGroups(nodes);
    query' := Joining(query, edgeIDs);
    var stream := QueryJoined(db, query, edgeIDs, page);
    rows := stream;
    StreamAgrees(db, query, edgeIDs, stream);
    assert forall id :: id in edgeIDs ==> id in byID by {
      assert forall k :: 0 <= k < |nodes| ==> edgeIDs[k] == nodes[k].ID;
    }
    var failed, nids, found := ScanJoined(|query'.joins|, query.fields, stream, byID);
    err, neighbors := failed, found;
    if failed.Some? {
      return;
    }
    NeighborsSeen(found, stream);
    assert forall k :: 0 <= k < |found| ==> found[k] in found;
    err := AssignGroups(found, nids, nodes, stream, byID);
  }

  lemma NeighborsSeen(neighbors: seq<Group>, rows: seq<JoinRow>)
    requires GroupRows(neighbors) == FirstSeen(rows)
    ensures forall k :: 0 <= k < |neighbors| ==> Seen(rows, neighbors[k].row.id)
  {
    FirstSeenIds(rows);
    forall k | 0 <= k < |neighbors| ensures Seen(rows, neighbors[k].row.id) {
      assert FirstSeen(rows)[k] == GroupRows(neighbors)[k] == neighbors[k].row;
    }
  }

  /** Every account that is the last with its id ends with exactly its linked group ids, each once. */
  lemma GroupsExactly(nodes: seq<Account>, i: nat, neighbors: seq<Group>, rows: seq<JoinRow>)
    requires i < |nodes| && GroupRows(neighbors) == FirstSeen(rows) && LastWithId(NodeIds(nodes), i)
    ensures var groups := GroupRows(GroupShare(nodes, i, neighbors, rows));
            && DistinctGroups(groups)
            && forall id :: Links(rows, nodes[i].ID, id) <==> exists k :: 0 <= k < |groups| && groups[k].id == id
  {
    PickedRows(neighbors, rows, nodes[i].ID);
    LinkedExactly(rows, nodes[i].ID);
  }

  /** Accounts linked to one group hold one and the same object for it. */
  lemma GroupsShared(neighbors: seq<Group>, rows: seq<JoinRow>, a: int, b: int, g: Group, h: Group)
    requires GroupRows(neighbors) == FirstSeen(rows)
    requires g in Picked(neighbors, rows, a) && h in Picked(neighbors, rows, b) && g.row.id == h.row.id
    ensures g == h
  {
    FirstSeenIds(rows);
    PickedFrom(neighbors, rows, a, g);
    PickedFrom(neighbors, rows, b, h);
    var i :| 0 <= i < |neighbors| && neighbors[i] == g;
    var j :| 0 <= j < |neighbors| && neighbors[j] == h;
    assert GroupRows(neighbors)[i] == g.row && GroupRows(neighbors)[j] == h.row;
  }

  lemma {:induction false} PickedFrom(neighbors: seq<Group>, rows: seq<JoinRow>, accountId: int, g: Group)
    requires g in Picked(neighbors, rows, accountId)
    ensures g in neighbors
  {
    var n := |neighbors| - 1;
    if g in Picked(neighbors[..n], rows, accountId) {
      PickedFrom(neighbors[..n], rows, accountId, g);
    }
  }

  // ---------------------------------------------------------------- a whole query

  /** Nodes of a query: scanned from distinct rows, with the columns its edges need. */
  ghost predicate NodesOf(nodes: seq<Account>, query: AccountSpec) {
    DistinctNodes(nodes) && DistinctAccounts(Rows(nodes)) && ScannedFrom(nodes, ReadColumns(query))
  }

  lemma NodeKeysRight(nodes: seq<Account>, query: AccountSpec)
    requires NodesOf(nodes, query)
    ensures forall i :: 0 <= i < |nodes| ==> nodes[i].ID == nodes[i].row.id && LastWithId(NodeIds(nodes), i)
    ensures query.parent.Some? ==> forall i :: 0 <= i < |nodes| ==> nodes[i].ParentAccountID == nodes[i].row.parentId
    ensures Elems(NodeIds(nodes)) == IdSet(Elems(Rows(nodes)))
    ensures query.parent.Some? ==> Elems(DistinctKeys(NodeKeys(nodes))) == ParentSet(Elems(Rows(nodes)))
  {
    AccountReadHasKeys(query.fields, query.withProxy, query.parent.Some?);
    ScannedIds(nodes, query);
    var scanned := ScanAccounts(ReadColumns(query), Rows(nodes));
    ScannedKeys(ReadColumns(query), Rows(nodes));
    assert NodeIds(nodes) == Ids(scanned) && NodeKeys(nodes) == ParentKeys(scanned);
    forall i, j | 0 <= i < j < |nodes| ensures nodes[i].row.id != nodes[j].row.id {
      assert Rows(nodes)[i].id != Rows(nodes)[j].id;
    }
  }

  lemma ParentsRight(db: Snapshot, query: AccountSpec, nodes: seq<Account>, neighbors: seq<Account>)
    requires ValidSnapshot(db) && NodesOf(nodes, query) && query.parent.Some?
    requires forall k :: 0 <= k < |neighbors| ==> neighbors[k].ID == neighbors[k].row.id
    requires var ids := DistinctKeys(NodeKeys(nodes));
             if ids == [] then neighbors == []
             else Answers(Rows(neighbors), db, query.parent.value.where + [IDIn(ids)], None)
    requires forall n :: n in nodes ==> n.LoadedParent && n.Parent == Chosen(neighbors, n.ParentAccountID, null)
    ensures forall n :: n in nodes ==> ParentRight(db, query, n) && (n.Parent != null ==> n.Parent in neighbors)
  {
    var keys := NodeKeys(nodes);
    NodeKeysRight(nodes, query);
    forall i | 0 <= i < |nodes|
      ensures ParentRight(db, query, nodes[i]) && (nodes[i].Parent != null ==> nodes[i].Parent in neighbors)
    {
      if nodes[i].ParentAccountID.Some? {
        assert keys[i] == nodes[i].ParentAccountID && keys[i] in keys;
        ChosenIsLookup(db, query.parent.value.where, None, keys, neighbors, keys[i].value);
      }
      assert nodes[i] in nodes;
    }
  }

  lemma AllGroupsRight(
      db: Snapshot, query: AccountSpec, nodes: seq<Account>, neighbors: seq<Group>, rows: seq<JoinRow>)
    requires ValidSnapshot(db) && NodesOf(nodes, query) && query.groups.Some?
    requires AnswersJoin(rows, db, query.groups.value, NodeIds(nodes), None)
    requires GroupRows(neighbors) == FirstSeen(rows) && GroupsDealt(nodes, neighbors, rows)
    requires forall n :: n in nodes ==> n.LoadedGroups
    ensures forall n :: n in nodes ==> GroupsRight(db, query, n)
  {
    NodeKeysRight(nodes, query);
    forall i | 0 <= i < |nodes| ensures GroupsRight(db, query, nodes[i]) {
      var id := nodes[i].ID;
      assert nodes[i] in nodes && NodeIds(nodes)[i] == id && nodes[i].Groups == Picked(neighbors, rows, id);
      PickedRows(neighbors, rows, id);
      LinkedExactly(rows, id);
      LoadedGroups(db, query.groups.value, NodeIds(nodes), rows, id);
    }
  }

  lemma {:induction false} OwnedRows(neighbors: seq<Account>, id: int)
    requires forall k :: 0 <= k < |neighbors| ==> neighbors[k].ParentAccountID == neighbors[k].row.parentId
    ensures Rows(Owned(NodeKeys(neighbors), neighbors, id)) == Filter(Rows(neighbors), ChildOf(id))
  {
    if neighbors == [] {
      assert Rows(neighbors) == [];
    } else {
      var n := |neighbors| - 1;
      var front, last := neighbors[..n], neighbors[n];
      OwnedRows(front, id);
      assert front + [last] == neighbors;
      OwnedNext(front, last, id);
      assert Rows(neighbors) == Rows(front) + [last.row];
      assert Rows(neighbors)[..n] == Rows(front);
      FilterSnoc(Rows(neighbors), ChildOf(id));
      var before := Owned(NodeKeys(front), front, id);
      assert Rows(before + [last]) == Rows(before) + [last.row];
      assert before + [] == before;
    }
  }

  lemma {:induction false} OwnedFrom(neighbors: seq<Account>, id: int, c: Account)
    requires c in Owned(NodeKeys(neighbors), neighbors, id)
    ensures c in neighbors
  {
    if neighbors != [] {
      var n := |neighbors| - 1;
      assert neighbors == neighbors[..n] + [neighbors[n]];
      OwnedNext(neighbors[..n], neighbors[n], id);
      if c in Owned(NodeKeys(neighbors[..n]), neighbors[..n], id) {
        OwnedFrom(neighbors[..n], id, c);
      }
    }
  }

  lemma AllChildrenRight(db: Snapshot, query: AccountSpec, nodes: seq<Account>, neighbors: seq<Account>)
    requires NodesOf(nodes, query) && query.children.Some?
    requires Answers(Rows(neighbors), db, query.children.value.where + [ParentIn(NodeIds(nodes))], None)
    requires forall k :: 0 <= k < |neighbors| ==> neighbors[k].ParentAccountID == neighbors[k].row.parentId
    requires DealtOut(nodes, neighbors) && forall n :: n in nodes ==> n.LoadedChildren
    ensures forall n :: n in nodes ==> ChildrenRight(db, query, n) && forall c :: c in n.Children ==> c in neighbors
  {
    NodeKeysRight(nodes, query);
    var where, ids := query.children.value.where, NodeIds(nodes);
    forall i | 0 <= i < |nodes|
      ensures ChildrenRight(db, query, nodes[i]) && forall c :: c in nodes[i].Children ==> c in neighbors
    {
      var id := nodes[i].row.id;
      assert nodes[i] in nodes && ids[i] == id;
      OwnedRows(neighbors, id);
      KidsAgree(db, where, ids, Rows(neighbors), id);
      forall c | c in nodes[i].Children ensures c in neighbors {
        OwnedFrom(neighbors, id, c);
      }
    }
  }

  method GroupsStep(db: Snapshot, query: AccountSpec, nodes: seq<Account>) returns (err: Option<LoadError>)
    requires ValidSnapshot(db) && NodesOf(nodes, query)
    requires forall n :: n in nodes ==> n.LoadedGroups == query.groups.Some? && n.Groups == []
    modifies nodes`Groups
    ensures err == FailsIf(EdgeFindsGroups(db, query, IdSet(Elems(Rows(nodes))), true))
    ensures err == None ==> forall n :: n in nodes ==> GroupsRight(db, query, n)
  {
    err := None;
    if query.groups.Some? {
      var used;
      ghost var rows: seq<JoinRow>, neighbors: seq<Group>;
      used, err, rows, neighbors := LoadGroups(db, query.groups.value, None, nodes);
      NodeKeysRight(nodes, query);
      StreamEmptyIff(db, query.groups.value, NodeIds(nodes), rows);
      if err == None {
        AllGroupsRight(db, query, nodes, neighbors, rows);
      }
    }
  }

  method ParentStep(db: Snapshot, query: AccountSpec, nodes: seq<Account>)
    returns (err: Option<LoadError>, ghost repr: set<Account>)
    requires ValidSnapshot(db) && NodesOf(nodes, query)
    requires forall n :: n in nodes ==> n.LoadedParent == query.parent.Some? && n.Parent == null
    modifies nodes`Parent
    ensures fresh(repr) && err == FailsIf(ParentsRead(db, WithoutLinks(query), ParentSet(Elems(Rows(nodes))), true))
    ensures err == None ==> forall n :: n in nodes ==> ParentRight(db, query, n) && ParentLoaded(db, query, n, repr)
    decreases Size(query), 0
  {
    err, repr := None, {};
    if query.parent.Some? {
      var used;
      ghost var rows: seq<AccountRow>, neighbors: seq<Account>;
      used, err, rows, neighbors, repr := LoadParent(db, query.parent.value, None, nodes);
      NodeKeysRight(nodes, query);
      ParentRows(db, query.parent.value, NodeKeys(nodes), rows);
      if err == None {
        ParentsRight(db, query, nodes, neighbors);
      }
    }
  }

  /** The rows that `loadParent` fetches are those of the nodes' keys. */
  lemma ParentRows(db: Snapshot, query: AccountSpec, keys: seq<Option<int>>, rows: seq<AccountRow>)
    requires if DistinctKeys(keys) == [] then rows == []
             else Answers(rows, db, AskingIds(query, DistinctKeys(keys)).where, None)
    ensures Elems(rows) == KeyedRows(db, query, Elems(DistinctKeys(keys)))
  {
    if DistinctKeys(keys) == [] {
      assert Elems(rows) == {} == KeyedRows(db, query, Elems(DistinctKeys(keys)));
    } else {
      AnsweredKeyed(db, query, DistinctKeys(keys), rows);
    }
  }

  method ChildrenStep(db: Snapshot, query: AccountSpec, nodes: seq<Account>)
    returns (err: Option<LoadError>, ghost repr: set<Account>)
    requires ValidSnapshot(db) && NodesOf(nodes, query)
    requires forall n :: n in nodes ==> n.LoadedChildren == query.children.Some? && n.Children == []
    modifies nodes`Children
    ensures fresh(repr) && err == FailsIf(ChildrenRead(db, WithoutLinks(query), IdSet(Elems(Rows(nodes))), true))
    ensures err == None ==> forall n :: n in nodes ==> ChildrenRight(db, query, n) && ChildrenLoaded(db, query, n, repr)
    decreases Size(query), 0
  {
    err, repr := None, {};
    if query.children.Some? {
      var used;
      ghost var rows: seq<AccountRow>, neighbors: seq<Account>;
      used, err, rows, neighbors, repr := LoadChildren(db, query.children.value, None, nodes);
      NodeKeysRight(nodes, query);
      AnsweredChildren(db, query.children.value, NodeIds(nodes), rows);
      if err == None {
        AllChildrenRight(db, query, nodes, neighbors);
      }
    }
  }

  lemma AllLoaded(db: Snapshot, query: AccountSpec, nodes: seq<Account>, up: set<Account>, down: set<Account>)
    requires forall n :: n in nodes ==> GroupsRight(db, query, n)
    requires forall n :: n in nodes ==> ParentRight(db, query, n) && ChildrenRight(db, query, n)
    requires forall n :: n in nodes ==> ParentLoaded(db, query, n, up) && ChildrenLoaded(db, query, n, down)
    ensures forall n :: n in nodes ==> LoadedIn(db, query, n, Elems(nodes) + (up + down))
  {
    var repr := Elems(nodes) + (up + down);
    forall n | n in nodes ensures LoadedIn(db, query, n, repr) {
      if n.Parent != null {
        LoadedInMore(db, query.parent.value, n.Parent, up, repr);
      }
      forall c | c in n.Children ensures query.children.Some? && LoadedIn(db, query.children.value, c, repr) {
        LoadedInMore(db, query.children.value, c, down, repr);
      }
    }
  }

  /** The trees that these loaded nodes unfold to: what a reader of the nodes' edges sees. */
  ghost function TreeOf(db: Snapshot, query: AccountSpec, n: Account, repr: set<Account>): AccountTree
    requires LoadedIn(db, query, n, repr)
    reads repr
    decreases query, 1
  {
    assert ParentLoaded(db, query, n, repr) && ChildrenLoaded(db, query, n, repr);
    AccountTree(
      n.row,
      if query.groups == None then None else Some(Elems(GroupRows(n.Groups))),
      if query.parent == None then None
      else Some(if n.Parent == null then None else Some(TreeOf(db, query.parent.value, n.Parent, repr))),
      if query.children == None then None else Some(multiset(TreesOf(db, query.children.value, n.Children, repr))),
      None)
  }

  ghost function TreesOf(db: Snapshot, query: AccountSpec, nodes: seq<Account>, repr: set<Account>): seq<AccountTree>
    requires forall n :: n in nodes ==> LoadedIn(db, query, n, repr)
    reads repr
    decreases query, 2, |nodes|
  {
    if nodes == [] then [] else [TreeOf(db, query, nodes[0], repr)] + TreesOf(db, query, nodes[1..], repr)
  }

  /** Loaded nodes, neighbours shared between them included, unfold to the trees that one-row lookups give. */
  lemma {:induction false} LoadedIsLookup(db: Snapshot, query: AccountSpec, n: Account, repr: set<Account>)
    requires LoadedIn(db, query, n, repr)
    ensures TreeOf(db, query, n, repr) == Lookup(db, WithoutLinks(query), n.row)
    decreases query, 1
  {
    assert ParentLoaded(db, query, n, repr) && ChildrenLoaded(db, query, n, repr);
    var t, t' := TreeOf(db, query, n, repr), Lookup(db, WithoutLinks(query), n.row);
    assert t.groups == t'.groups && t.links == t'.links;
    if query.parent.Some? {
      ParentIsLookup(db, query, n, repr);
    }
    if query.children.Some? {
      ChildrenAreLookups(db, query, n, repr);
    }
  }

  lemma {:induction false} ParentIsLookup(db: Snapshot, query: AccountSpec, n: Account, repr: set<Account>)
    requires query.parent.Some? && ParentRight(db, query, n) && ParentLoaded(db, query, n, repr)
    ensures LookupKey(db, WithoutLinks(query.parent.value), n.row.parentId)
            == if n.Parent == null then None else Some(TreeOf(db, query.parent.value, n.Parent, repr))
    decreases query, 0
  {
    if n.Parent != null {
      LoadedIsLookup(db, query.parent.value, n.Parent, repr);
    }
  }

  lemma {:induction false} ChildrenAreLookups(db: Snapshot, query: AccountSpec, n: Account, repr: set<Account>)
    requires query.children.Some? && ChildrenRight(db, query, n) && ChildrenLoaded(db, query, n, repr)
    ensures multiset(TreesOf(db, query.children.value, n.Children, repr))
            == ChildrenOf(db, WithoutLinks(query.children.value), n.row.id)
    decreases query, 0
  {
    var q := query.children.value;
    AllLoadedAreLookups(db, q, n.Children, repr);
    var kids := Filter(Filter(db.accounts, KeepAccount(q.where)), ChildOf(n.row.id));
    LookupRearranged(db, WithoutLinks(q), Rows(n.Children), kids);
  }

  lemma {:induction false} AllLoadedAreLookups(
      db: Snapshot, query: AccountSpec, nodes: seq<Account>, repr: set<Account>)
    requires forall n :: n in nodes ==> LoadedIn(db, query, n, repr)
    ensures TreesOf(db, query, nodes, repr) == LookupAll(db, WithoutLinks(query), Rows(nodes))
    decreases query, 2, |nodes|
  {
    if nodes != [] {
      assert nodes[0] in nodes;
      LoadedIsLookup(db, query, nodes[0], repr);
      AllLoadedAreLookups(db, query, nodes[1..], repr);
      assert Rows(nodes)[1..] == Rows(nodes[1..]);
    }
  }

  /** The edges of the fetched nodes, loaded one after the other up to the first that fails. */
  method LoadEdges(db: Snapshot, query: AccountSpec, nodes: seq<Account>)
    returns (err: Option<LoadError>, ghost below: set<Account>)
    requires ValidSnapshot(db) && NodesOf(nodes, query) && nodes != []
    requires forall n :: n in nodes ==> Unloaded(n, query)
    modifies nodes`Groups, nodes`Parent, nodes`Children
    ensures err == FailsIf(Stuck(db, WithoutLinks(query), Elems(Rows(nodes))))
    ensures fresh(below)
    ensures err == None ==> forall n :: n in nodes ==> LoadedIn(db, query, n, Elems(nodes) + below)
    decreases Size(query), 1
  {
    below := {};
    assert Rows(nodes)[0] in Elems(Rows(nodes));
    StuckAtAnEdge(db, WithoutLinks(query), Elems(Rows(nodes)));
    err := GroupsStep(db, query, nodes);
    if err.Some? {
      return;
    }
    ghost var up: set<Account>, down: set<Account>;
    err, up := ParentStep(db, query, nodes);
    if err.Some? {
      return;
    }
    err, down := ChildrenStep(db, query, nodes);
    if err.Some? {
      return;
    }
    below := up + down;
    AllLoaded(db, query, nodes, up, down);
  }

  /**
   * `sqlAll`: fetch and scan the rows, then load the requested edges, each neighbour with its own edges. Every node
   * answers for every edge as the relations do, at every depth and whatever fields are selected, so the nodes unfold to
   * the trees of the rows' own lookups. It fails exactly when a groups edge that was run before reads a row.
   */
  method SqlAll(db: Snapshot, query: AccountSpec, page: Option<Page>)
    returns (nodes: seq<Account>, err: Option<LoadError>, ghost rows: seq<AccountRow>, ghost repr: set<Account>)
    requires ValidSnapshot(db)
    ensures Answers(rows, db, query.where, page)
    ensures err == FailsIf(Stuck(db, WithoutLinks(query), Elems(rows)))
    ensures if err == None then Rows(nodes) == rows else nodes == []
    ensures DistinctNodes(nodes) && ScannedFrom(nodes, ReadColumns(query))
    ensures fresh(repr) && forall n :: n in nodes ==> LoadedIn(db, query, n, repr)
    ensures err == None ==> TreesOf(db, query, nodes, repr) == LookupAll(db, WithoutLinks(query), rows)
    ensures OnlyTests(query.where) ==> Returns(rows, db, query.where, page)
    decreases Size(query), 2
  {
    nodes := QueryAccounts(db, query, ReadColumns(query), page);
    err, rows, repr := None, Rows(nodes), {};
    if |nodes| == 0 {
      assert Elems(rows) == {};
      return;
    }
    QueriedNodes(db, query, page, nodes);
    forall k | 0 <= k < |nodes| ensures fresh(nodes[k]) {
      assert nodes[k] in nodes;
    }
    ghost var below;
    err, below := LoadEdges(db, query, nodes);
    repr := Elems(nodes) + below;
    if err.Some? {
      nodes := [];
      return;
    }
    AllLoadedAreLookups(db, query, nodes, repr);
  }

  lemma QueriedNodes(db: Snapshot, query: AccountSpec, page: Option<Page>, nodes: seq<Account>)
    requires ValidSnapshot(db) && DistinctNodes(nodes) && Answers(Rows(nodes), db, query.where, page)
    requires ScannedFrom(nodes, ReadColumns(query))
    ensures NodesOf(nodes, query)
  {
    FilteredAccountsDistinct(db.accounts, KeepAccount(query.where));
    PartDistinct(Rows(nodes), Filter(db.accounts, KeepAccount(query.where)));
  }
}
