/** Laws of eagerly loaded trees: a second run, projection, two ways to the same groups, parents against children. */
module EagerLaws {
  import opened Wrappers
  import opened Sequences
  import opened AccountFields
  import opened Schema
  import opened BatchJoin
  import opened Tables
  import opened EagerTree

  // ---------------------------------------------------------------- what a run leaves on its builders

  /**
   * The parent query after `loadParent`: without keys it is not run; else its condition stays, and its edges were run.
   */
  function AfterParents(db: Snapshot, o: Orders, q: AccountSpec, keys: seq<Option<int>>): AccountSpec
    decreases q, 1
  {
    var ids := DistinctKeys(keys);
    if ids == [] then q else
      var q' := AskingIds(q, ids);
      AfterRun(db, o, q, ReadColumns(q'), FetchAccounts(db, o, q')).(where := q'.where)
  }

  function AfterChildren(db: Snapshot, o: Orders, q: AccountSpec, ids: seq<int>): AccountSpec
    decreases q, 1
  {
    var q' := AskingChildren(q, ids);
    AfterRun(db, o, q, ReadColumns(q'), FetchAccounts(db, o, q')).(fields := q'.fields, where := q'.where)
  }

  function AfterLinks(db: Snapshot, o: Orders, q: LinkSpec, ids: seq<int>): LinkSpec
    decreases q, 1
  {
    var q' := AskingLinks(q, ids);
    AfterLinkRun(db, o, q, ReadLinkColumns(q'), FetchLinks(db, o, q')).(fields := q'.fields, where := q'.where)
  }

  function AfterLinkGroups(q: GroupSpec, keys: seq<Option<int>>): GroupSpec {
    if DistinctKeys(keys) == [] then q else AskingGroups(q, DistinctKeys(keys))
  }

  /** The builders of a query after its edges were loaded for these rows: no row, no edge was run. */
  function AfterRun(db: Snapshot, o: Orders, q: AccountSpec, columns: seq<Column>, rows: seq<AccountRow>): AccountSpec
    decreases q, 0
  {
    if rows == [] then q else
      var nodes := ScanAccounts(columns, rows);
      var ids := Ids(nodes);
      q.(groups := if q.groups == None then None else Some(Joining(q.groups.value, ids)),
         parent := if q.parent == None then None else Some(AfterParents(db, o, q.parent.value, ParentKeys(nodes))),
         children := if q.children == None then None else Some(AfterChildren(db, o, q.children.value, ids)),
         links := if q.links == None then None else Some(AfterLinks(db, o, q.links.value, ids)))
  }

  function AfterLinkRun(db: Snapshot, o: Orders, q: LinkSpec, columns: seq<LinkColumn>, rows: seq<LinkRow>): LinkSpec
    decreases q, 0
  {
    if rows == [] then q else
      var nodes := ScanLinks(columns, rows);
      q.(account := if q.account == None then None else Some(AfterParents(db, o, q.account.value, AccountKeys(nodes))),
         group := if q.group == None then None else Some(AfterLinkGroups(q.group.value, GroupKeys(nodes))))
  }

  function AfterQuery(db: Snapshot, o: Orders, q: AccountSpec): AccountSpec {
    AfterRun(db, o, q, ReadColumns(q), FetchAccounts(db, o, q))
  }

  // ---------------------------------------------------------------- a second run over the same rows

  /** What a query loads for given rows depends on its edges and not on its own fields and conditions. */
  lemma OwnConditions(db: Snapshot, q: AccountSpec, q': AccountSpec, row: AccountRow)
    requires q' == q.(fields := q'.fields, where := q'.where)
    ensures Lookup(db, q, row) == Lookup(db, q', row)
  {
  }

  lemma OwnLinkConditions(db: Snapshot, q: LinkSpec, q': LinkSpec, row: LinkRow)
    requires q' == q.(fields := q'.fields, where := q'.where)
    ensures LookupLink(db, q, row) == LookupLink(db, q', row)
  {
  }

  /** One more join for accounts among which this one is finds no other groups for it. */
  lemma SameGroupsOf(db: Snapshot, q: GroupSpec, ids: seq<int>, id: int)
    requires id in ids
    ensures GroupsOf(db, Joining(q, ids), id) == GroupsOf(db, q, id)
  {
    var q' := Joining(q, ids);
    forall g | Linked(db, [id], g) ensures JoinsHold(db, q', g) <==> JoinsHold(db, q, g) {
      assert Linked(db, ids, g);
      assert q'.joins[|q.joins|] == ids && forall k :: 0 <= k < |q.joins| ==> q'.joins[k] == q.joins[k];
    }
  }

  lemma SameFound(db: Snapshot, q: GroupSpec, ids: seq<int>)
    ensures FindsGroups(db, Joining(q, ids), Elems(ids)) <==> FindsGroups(db, q, Elems(ids))
  {
    forall id | id in ids ensures GroupsOf(db, Joining(q, ids), id) == GroupsOf(db, q, id) {
      SameGroupsOf(db, q, ids, id);
    }
  }

  /** Asking for the same keys again finds the same row. */
  lemma SameFetched(db: Snapshot, q: AccountSpec, ids: seq<int>, id: int)
    requires ValidSnapshot(db) && id in ids
    ensures FindAccount(Filter(db.accounts, KeepAccount(AskingIds(q, ids).where)), id)
            == FindAccount(Filter(db.accounts, KeepAccount(q.where)), id)
  {
    var asked, all := KeepAccount(AskingIds(q, ids).where), KeepAccount(q.where);
    forall r
      ensures FindAccount(Filter(db.accounts, asked), id) == Some(r)
              <==> FindAccount(Filter(db.accounts, all), id) == Some(r)
    {
      FindsAccount(db, q.where, id, r);
      FindsAccount(db, AskingIds(q, ids).where, id, r);
      KeepAlso(q.where, IDIn(ids), r);
    }
  }

  lemma SameKeyed(db: Snapshot, q: AccountSpec, ids: seq<int>)
    ensures KeyedRows(db, AskingIds(q, ids), Elems(ids)) == KeyedRows(db, q, Elems(ids))
  {
    forall r ensures r in KeyedRows(db, AskingIds(q, ids), Elems(ids)) <==> r in KeyedRows(db, q, Elems(ids)) {
      KeepAlso(q.where, IDIn(ids), r);
    }
  }

  lemma SameChildRows(db: Snapshot, q: AccountSpec, ids: seq<int>)
    ensures ChildRowsOf(db, AskingChildren(q, ids), Elems(ids)) == ChildRowsOf(db, q, Elems(ids))
  {
    forall r
      ensures r in ChildRowsOf(db, AskingChildren(q, ids), Elems(ids)) <==> r in ChildRowsOf(db, q, Elems(ids))
    {
      KeepAlso(q.where, ParentIn(ids), r);
    }
  }

  lemma SameLinkRows(db: Snapshot, q: LinkSpec, ids: seq<int>)
    ensures LinkRowsOf(db, AskingLinks(q, ids), Elems(ids)) == LinkRowsOf(db, q, Elems(ids))
  {
    forall r ensures r in LinkRowsOf(db, AskingLinks(q, ids), Elems(ids)) <==> r in LinkRowsOf(db, q, Elems(ids)) {
      KeepLinkAlso(q.where, AccountIn(ids), r);
    }
  }

  /**
   * After a run of the parent loader: the same row per key with the same tree, and stuck exactly if the run read
   * groups.
   */
  lemma {:induction false} ParentsAgain(db: Snapshot, o: Orders, q: AccountSpec, keys: seq<Option<int>>)
    requires ValidSnapshot(db) && ValidOrders(o)
    ensures var q', ids := AfterParents(db, o, q, keys), Elems(DistinctKeys(keys));
            && (Stuck(db, q', KeyedRows(db, q', ids)) <==> ReadsGroups(db, q, KeyedRows(db, q, ids), false))
            && forall id :: id in ids ==> LookupKey(db, q', Some(id)) == LookupKey(db, q, Some(id))
    decreases q, 2
  {
    var ids := DistinctKeys(keys);
    if ids == [] {
      assert KeyedRows(db, q, Elems(ids)) == {};
    } else {
      var asking := AskingIds(q, ids);
      var rows := FetchAccounts(db, o, asking);
      var run := AfterRun(db, o, q, ReadColumns(asking), rows);
      var q' := AfterParents(db, o, q, keys);
      AccountReadHasKeys(q.fields, q.withProxy, q.parent.Some?);
      AnswerDistinct(rows, db, asking.where);
      RunAgain(db, o, q, ReadColumns(asking), rows);
      AnsweredKeyed(db, q, ids, rows);
      SameKeyed(db, q, ids);
      OwnConditionsReads(db, run, q', Elems(rows), true);
      forall id | id in ids ensures LookupKey(db, q', Some(id)) == LookupKey(db, q, Some(id)) {
        SameFetched(db, q, ids, id);
        var k := FetchedOrAbsent(db, q, ids, rows, id);
        if 0 <= k < |rows| {
          OwnConditions(db, run, q', rows[k]);
          assert Lookup(db, run, rows[k]) == Lookup(db, q, rows[k]);
        }
      }
    }
  }

  lemma {:induction false} ChildrenAgain(db: Snapshot, o: Orders, q: AccountSpec, ids: seq<int>)
    requires ValidSnapshot(db) && ValidOrders(o)
    ensures var q' := AfterChildren(db, o, q, ids);
            && (Stuck(db, q', ChildRowsOf(db, q', Elems(ids)))
                <==> ReadsGroups(db, q, ChildRowsOf(db, q, Elems(ids)), false))
            && forall id :: id in ids ==> ChildrenOf(db, q', id) == ChildrenOf(db, q, id)
    decreases q, 2
  {
    var asking := AskingChildren(q, ids);
    var rows := FetchAccounts(db, o, asking);
    var run := AfterRun(db, o, q, ReadColumns(asking), rows);
    var q' := AfterChildren(db, o, q, ids);
    AccountReadHasKeys(asking.fields, q.withProxy, q.parent.Some?);
    AnswerDistinct(rows, db, asking.where);
    RunAgain(db, o, q, ReadColumns(asking), rows);
    AnsweredChildren(db, q, ids, rows);
    SameChildRows(db, q, ids);
    OwnConditionsReads(db, run, q', Elems(rows), true);
    forall id | id in ids ensures ChildrenOf(db, q', id) == ChildrenOf(db, q, id) {
      var kids := Filter(Filter(db.accounts, KeepAccount(q.where)), ChildOf(id));
      SameKids(db, q, ids, id);
      forall k | 0 <= k < |kids| ensures Lookup(db, q', kids[k]) == Lookup(db, q, kids[k]) {
        KidFetched(db, q, ids, rows, id, kids[k]);
        OwnConditions(db, run, q', kids[k]);
        assert Lookup(db, run, kids[k]) == Lookup(db, q, kids[k]);
      }
      assert LookupAll(db, q', kids) == LookupAll(db, q, kids);
    }
  }

  lemma SameKids(db: Snapshot, q: AccountSpec, ids: seq<int>, id: int)
    requires id in ids
    ensures Filter(Filter(db.accounts, KeepAccount(AskingChildren(q, ids).where)), ChildOf(id))
            == Filter(Filter(db.accounts, KeepAccount(q.where)), ChildOf(id))
  {
    var asked := KeepAccount(AskingChildren(q, ids).where);
    forall k | 0 <= k < |db.accounts|
      ensures asked(db.accounts[k]) && ChildOf(id)(db.accounts[k])
              <==> KeepAccount(q.where)(db.accounts[k]) && ChildOf(id)(db.accounts[k])
    {
      KeepAlso(q.where, ParentIn(ids), db.accounts[k]);
    }
    FilterTwice(db.accounts, asked, ChildOf(id), KeepAccount(q.where), ChildOf(id));
  }

  /** A child of one of the accounts is among the rows fetched for all of them. */
  lemma KidFetched(db: Snapshot, q: AccountSpec, ids: seq<int>, rows: seq<AccountRow>, id: int, r: AccountRow)
    requires AccountsAnswer(rows, db, AskingChildren(q, ids).where) && id in ids
    requires r in Filter(Filter(db.accounts, KeepAccount(q.where)), ChildOf(id))
    ensures r in rows
  {
    FilterMember(Filter(db.accounts, KeepAccount(q.where)), ChildOf(id), r);
    FilterMember(db.accounts, KeepAccount(q.where), r);
    KeepAlso(q.where, ParentIn(ids), r);
    AccountAnswered(rows, db, AskingChildren(q, ids).where, r);
  }

  lemma {:induction false} LinksAgain(db: Snapshot, o: Orders, q: LinkSpec, ids: seq<int>)
    requires ValidSnapshot(db) && ValidOrders(o)
    ensures var q' := AfterLinks(db, o, q, ids);
            && (LinksReadGroups(db, q', LinkRowsOf(db, q', Elems(ids)), true)
                <==> LinksReadGroups(db, q, LinkRowsOf(db, q, Elems(ids)), false))
            && forall id :: id in ids ==> LinksOf(db, q', id) == LinksOf(db, q, id)
    decreases q, 2
  {
    var asking := AskingLinks(q, ids);
    var rows := FetchLinks(db, o, asking);
    var run := AfterLinkRun(db, o, q, ReadLinkColumns(asking), rows);
    var q' := AfterLinks(db, o, q, ids);
    LinkReadHasKeys(asking.fields, q.account.Some?, q.group.Some?);
    LinkRunAgain(db, o, q, ReadLinkColumns(asking), rows);
    AnsweredLinks(db, q, ids, rows);
    SameLinkRows(db, q, ids);
    forall id | id in ids ensures LinksOf(db, q', id) == LinksOf(db, q, id) {
      var own := Filter(Filter(db.links, KeepLink(q.where)), LinkOf(id));
      SameOwn(db, q, ids, id);
      forall k | 0 <= k < |own| ensures LookupLink(db, q', own[k]) == LookupLink(db, q, own[k]) {
        OwnFetched(db, q, ids, rows, id, own[k]);
        OwnLinkConditions(db, run, q', own[k]);
        assert LookupLink(db, run, own[k]) == LookupLink(db, q, own[k]);
      }
      assert LookupLinks(db, q', own) == LookupLinks(db, q, own);
    }
  }

  lemma SameOwn(db: Snapshot, q: LinkSpec, ids: seq<int>, id: int)
    requires id in ids
    ensures Filter(Filter(db.links, KeepLink(AskingLinks(q, ids).where)), LinkOf(id))
            == Filter(Filter(db.links, KeepLink(q.where)), LinkOf(id))
  {
    var asked := KeepLink(AskingLinks(q, ids).where);
    forall k | 0 <= k < |db.links|
      ensures asked(db.links[k]) && LinkOf(id)(db.links[k])
              <==> KeepLink(q.where)(db.links[k]) && LinkOf(id)(db.links[k])
    {
      KeepLinkAlso(q.where, AccountIn(ids), db.links[k]);
    }
    FilterTwice(db.links, asked, LinkOf(id), KeepLink(q.where), LinkOf(id));
  }

  lemma OwnFetched(db: Snapshot, q: LinkSpec, ids: seq<int>, rows: seq<LinkRow>, id: int, r: LinkRow)
    requires LinksAnswer(rows, db, AskingLinks(q, ids).where) && id in ids
    requires r in Filter(Filter(db.links, KeepLink(q.where)), LinkOf(id))
    ensures r in rows
  {
    FilterMember(Filter(db.links, KeepLink(q.where)), LinkOf(id), r);
    FilterMember(db.links, KeepLink(q.where), r);
    KeepLinkAlso(q.where, AccountIn(ids), r);
    LinkAnswered(rows, db, AskingLinks(q, ids).where, r);
  }

  /**
   * The edges of the same rows, after a run: each row has the tree it had, and a groups edge of the tree is stuck
   * exactly if one read a row in the run.
   */
  lemma {:induction false} RunAgain(
      db: Snapshot, o: Orders, q: AccountSpec, columns: seq<Column>, rows: seq<AccountRow>)
    requires ValidSnapshot(db) && ValidOrders(o)
    requires ID in columns && (q.parent.Some? ==> ParentAccountID in columns)
    ensures var q' := AfterRun(db, o, q, columns, rows);
            && (Stuck(db, q', Elems(rows)) <==> ReadsGroups(db, q, Elems(rows), false))
            && forall r :: r in rows ==> Lookup(db, q', r) == Lookup(db, q, r)
    decreases q, 1
  {
    if rows == [] {
      assert Elems(rows) == {};
    } else {
      GroupsEdgeAgain(db, o, q, columns, rows);
      ParentEdgeAgain(db, o, q, columns, rows);
      ChildrenEdgeAgain(db, o, q, columns, rows);
      LinksEdgeAgain(db, o, q, columns, rows);
      var q' := AfterRun(db, o, q, columns, rows);
      forall r | r in rows ensures Lookup(db, q', r) == Lookup(db, q, r) {
        SameEdges(db, q, q', r);
      }
    }
  }

  lemma GroupsEdgeAgain(db: Snapshot, o: Orders, q: AccountSpec, columns: seq<Column>, rows: seq<AccountRow>)
    requires ID in columns && rows != []
    ensures var q', ids := AfterRun(db, o, q, columns, rows), IdSet(Elems(rows));
            && (EdgeFindsGroups(db, q', ids, true) <==> EdgeFindsGroups(db, q, ids, false))
            && (q'.groups.Some? <==> q.groups.Some?)
            && (q.groups.Some? ==> forall r :: r in rows ==>
                  GroupsOf(db, q.groups.value, r.id) == GroupsOf(db, q'.groups.value, r.id))
  {
    var ids := Ids(ScanAccounts(columns, rows));
    ScannedKeys(columns, rows);
    if q.groups.Some? {
      SameFound(db, q.groups.value, ids);
      forall r | r in rows
        ensures GroupsOf(db, Joining(q.groups.value, ids), r.id) == GroupsOf(db, q.groups.value, r.id)
      {
        assert r.id in Elems(ids);
        SameGroupsOf(db, q.groups.value, ids, r.id);
      }
    }
  }

  lemma {:induction false} ParentEdgeAgain(
      db: Snapshot, o: Orders, q: AccountSpec, columns: seq<Column>, rows: seq<AccountRow>)
    requires ValidSnapshot(db) && ValidOrders(o) && rows != []
    requires ID in columns && (q.parent.Some? ==> ParentAccountID in columns)
    ensures var q', ids := AfterRun(db, o, q, columns, rows), ParentSet(Elems(rows));
            && (ParentsRead(db, q', ids, true) <==> ParentsRead(db, q, ids, false))
            && (q'.parent.Some? <==> q.parent.Some?)
            && (q.parent.Some? ==> forall r :: r in rows ==>
                  LookupKey(db, q.parent.value, r.parentId) == LookupKey(db, q'.parent.value, r.parentId))
    decreases q, 0
  {
    ScannedKeys(columns, rows);
    if q.parent.Some? {
      var p, keys := q.parent.value, ParentKeys(ScanAccounts(columns, rows));
      ParentsAgain(db, o, p, keys);
      forall r | r in rows
        ensures LookupKey(db, p, r.parentId) == LookupKey(db, AfterParents(db, o, p, keys), r.parentId)
      {
        if r.parentId.Some? {
          assert r in Elems(rows) && r.parentId.value in ParentSet(Elems(rows));
          assert r.parentId == Some(r.parentId.value);
        }
      }
    }
  }

  lemma {:induction false} ChildrenEdgeAgain(
      db: Snapshot, o: Orders, q: AccountSpec, columns: seq<Column>, rows: seq<AccountRow>)
    requires ValidSnapshot(db) && ValidOrders(o) && rows != [] && ID in columns
    ensures var q', ids := AfterRun(db, o, q, columns, rows), IdSet(Elems(rows));
            && (ChildrenRead(db, q', ids, true) <==> ChildrenRead(db, q, ids, false))
            && (q'.children.Some? <==> q.children.Some?)
            && (q.children.Some? ==> forall r :: r in rows ==>
                  ChildrenOf(db, q.children.value, r.id) == ChildrenOf(db, q'.children.value, r.id))
    decreases q, 0
  {
    var ids := Ids(ScanAccounts(columns, rows));
    ScannedKeys(columns, rows);
    if q.children.Some? {
      ChildrenAgain(db, o, q.children.value, ids);
      assert forall r :: r in rows ==> r.id in Elems(ids);
    }
  }

  lemma {:induction false} LinksEdgeAgain(
      db: Snapshot, o: Orders, q: AccountSpec, columns: seq<Column>, rows: seq<AccountRow>)
    requires ValidSnapshot(db) && ValidOrders(o) && rows != [] && ID in columns
    ensures var q', ids := AfterRun(db, o, q, columns, rows), IdSet(Elems(rows));
            && (LinksRead(db, q', ids, true) <==> LinksRead(db, q, ids, false))
            && (q'.links.Some? <==> q.links.Some?)
            && (q.links.Some? ==> forall r :: r in rows ==>
                  LinksOf(db, q.links.value, r.id) == LinksOf(db, q'.links.value, r.id))
    decreases q, 0
  {
    var ids := Ids(ScanAccounts(columns, rows));
    ScannedKeys(columns, rows);
    if q.links.Some? {
      LinksAgain(db, o, q.links.value, ids);
      assert forall r :: r in rows ==> r.id in Elems(ids);
    }
  }

  lemma SameEdges(db: Snapshot, q: AccountSpec, q': AccountSpec, r: AccountRow)
    requires (q.groups.Some? <==> q'.groups.Some?) && (q.parent.Some? <==> q'.parent.Some?)
    requires (q.children.Some? <==> q'.children.Some?) && (q.links.Some? <==> q'.links.Some?)
    requires q.groups.Some? ==> GroupsOf(db, q.groups.value, r.id) == GroupsOf(db, q'.groups.value, r.id)
    requires q.parent.Some? ==> LookupKey(db, q.parent.value, r.parentId) == LookupKey(db, q'.parent.value, r.parentId)
    requires q.children.Some? ==> ChildrenOf(db, q.children.value, r.id) == ChildrenOf(db, q'.children.value, r.id)
    requires q.links.Some? ==> LinksOf(db, q.links.value, r.id) == LinksOf(db, q'.links.value, r.id)
    ensures Lookup(db, q, r) == Lookup(db, q', r)
  {
  }

  lemma {:induction false} LinkRunAgain(
      db: Snapshot, o: Orders, q: LinkSpec, columns: seq<LinkColumn>, rows: seq<LinkRow>)
    requires ValidSnapshot(db) && ValidOrders(o)
    requires (q.account.Some? ==> AccountID in columns) && (q.group.Some? ==> GroupID in columns)
    ensures var q' := AfterLinkRun(db, o, q, columns, rows);
            && (LinksReadGroups(db, q', Elems(rows), true) <==> LinksReadGroups(db, q, Elems(rows), false))
            && forall r :: r in rows ==> LookupLink(db, q', r) == LookupLink(db, q, r)
    decreases q, 0
  {
    var nodes := ScanLinks(columns, rows);
    if rows == [] {
      assert q.account.Some? ==> KeyedRows(db, q.account.value, OwnerSet(Elems(rows))) == {};
    } else {
      if q.account.Some? {
        ScannedOwners(columns, rows);
        ParentsAgain(db, o, q.account.value, AccountKeys(nodes));
      }
      var q' := AfterLinkRun(db, o, q, columns, rows);
      forall r | r in rows ensures LookupLink(db, q', r) == LookupLink(db, q, r) {
        assert r.accountId in OwnerSet(Elems(rows));
        if q.group.Some? {
          SameLinkGroup(db, q.group.value, columns, rows, r);
        }
      }
    }
  }

  lemma SameLinkGroup(db: Snapshot, q: GroupSpec, columns: seq<LinkColumn>, rows: seq<LinkRow>, r: LinkRow)
    requires ValidSnapshot(db) && GroupID in columns && r in rows
    ensures FindKey(db, AfterLinkGroups(q, GroupKeys(ScanLinks(columns, rows))), Some(r.groupId))
            == FindKey(db, q, Some(r.groupId))
  {
    var keys := GroupKeys(ScanLinks(columns, rows));
    var k :| 0 <= k < |rows| && rows[k] == r;
    assert keys[k] == Some(r.groupId) && keys[k] in keys;
    var q' := AfterLinkGroups(q, keys);
    forall g ensures FindKey(db, q', Some(r.groupId)) == Some(g) <==> FindKey(db, q, Some(r.groupId)) == Some(g) {
      FindsGroup(db, q.where, r.groupId, g);
      FindsGroup(db, q'.where, r.groupId, g);
      KeepGroupAlso(q.where, GroupIDIn(DistinctKeys(keys)), g);
    }
  }

  /**
   * Running a query a second time, after a first run that succeeded: it fails exactly if some groups edge of the tree
   * read a row in the first run, at any depth; otherwise it returns the same trees, in whatever order either run got
   * its answers.
   */
  lemma SecondRun(db: Snapshot, first: Orders, second: Orders, q: AccountSpec)
    requires ValidSnapshot(db) && ValidOrders(first) && ValidOrders(second) && QueryAll(db, first, q).Ok?
    ensures var again := QueryAll(db, second, AfterQuery(db, first, q));
            && (again.Err? <==> ReadsGroups(db, q, Selected(db, q), false))
            && (again.Err? ==> again.error == BadColumn)
            && (again.Ok? ==> multiset(again.value) == multiset(QueryAll(db, first, q).value))
  {
    var q' := AfterQuery(db, first, q);
    var rows, rows' := FetchAccounts(db, first, q), FetchAccounts(db, second, q');
    AccountReadHasKeys(q.fields, q.withProxy, q.parent.Some?);
    RunAgain(db, first, q, ReadColumns(q), rows);
    FetchedAreSelected(db, first, q);
    QueryLoads(db, first, q);
    QueryLoads(db, second, q');
    assert Selected(db, q') == Selected(db, q);
    forall k | 0 <= k < |rows'| ensures Lookup(db, q', rows'[k]) == Lookup(db, q, rows'[k]) {
      SameMembers(rows, rows', rows'[k]);
    }
    assert LookupAll(db, q', rows') == LookupAll(db, q, rows');
    LookupRearranged(db, q, rows, rows');
  }

  /** The parent loader run again for the same keys. */
  lemma SecondParents(db: Snapshot, first: Orders, second: Orders, q: AccountSpec, keys: seq<Option<int>>)
    requires ValidSnapshot(db) && ValidOrders(first) && ValidOrders(second) && LoadParents(db, first, q, keys).Ok?
    ensures LoadParents(db, second, AfterParents(db, first, q, keys), keys)
            == Unless(ReadsGroups(db, q, KeyedRows(db, q, Elems(DistinctKeys(keys))), false),
                      LoadParents(db, first, q, keys).value)
  {
    var q' := AfterParents(db, first, q, keys);
    ParentsAgain(db, first, q, keys);
    ParentsAgree(db, first, q, keys);
    ParentsAgree(db, second, q', keys);
    forall i | 0 <= i < |keys| ensures LookupKey(db, q', keys[i]) == LookupKey(db, q, keys[i]) {
      if keys[i].Some? {
        assert keys[i] in keys;
        assert keys[i] == Some(keys[i].value);
      }
    }
    assert LookupKeys(db, q', keys) == LookupKeys(db, q, keys);
  }

  /** The children loader run again for the same nodes. */
  lemma SecondChildren(db: Snapshot, first: Orders, second: Orders, q: AccountSpec, ids: seq<int>)
    requires ValidSnapshot(db) && ValidOrders(first) && ValidOrders(second) && Distinct(ids)
    requires LoadChildren(db, first, q, ids).Ok?
    ensures LoadChildren(db, second, AfterChildren(db, first, q, ids), ids)
            == Unless(ReadsGroups(db, q, ChildRowsOf(db, q, Elems(ids)), false),
                      LoadChildren(db, first, q, ids).value)
  {
    var q' := AfterChildren(db, first, q, ids);
    ChildrenAgain(db, first, q, ids);
    ChildrenAgree(db, first, q, ids);
    ChildrenAgree(db, second, q', ids);
    SameChildrenOfAll(db, q, q', ids);
  }

  lemma SameChildrenOfAll(db: Snapshot, q: AccountSpec, q': AccountSpec, ids: seq<int>)
    requires forall id :: id in ids ==> ChildrenOf(db, q', id) == ChildrenOf(db, q, id)
    ensures ChildrenOfAll(db, q', ids) == ChildrenOfAll(db, q, ids)
  {
    forall i | 0 <= i < |ids| ensures ChildrenOf(db, q', ids[i]) == ChildrenOf(db, q, ids[i]) {
      assert ids[i] in ids;
    }
  }

  /** The groups loader run again for the same nodes: each run's closure selects its own account id in front. */
  lemma SecondGroups(db: Snapshot, first: Orders, second: Orders, q: GroupSpec, ids: seq<int>)
    requires ValidSnapshot(db) && ValidOrders(first) && ValidOrders(second) && Distinct(ids)
    requires LoadGroups(db, first, q, ids).Ok?
    ensures LoadGroups(db, second, Joining(q, ids), ids)
            == Unless(Stream(db, q, ids) != [], LoadGroups(db, first, q, ids).value)
  {
    var q' := Joining(q, ids);
    GroupsAgree(db, first, q, ids);
    GroupsAgree(db, second, q', ids);
    StreamEmptyIff(db, q, ids, Stream(db, q, ids));
    SameFound(db, q, ids);
    forall i | 0 <= i < |ids| ensures GroupsOf(db, q', ids[i]) == GroupsOf(db, q, ids[i]) {
      SameGroupsOf(db, q, ids, ids[i]);
    }
    assert GroupsOfAll(db, q', ids) == GroupsOfAll(db, q, ids);
  }

  // ---------------------------------------------------------------- a page on an edge query

  /**
   * A limit or offset on the parent query cuts the batch of all nodes: every node still gets the parent of its own
   * lookup exactly when the page drops no row.
   */
  lemma PagedParents(db: Snapshot, q: AccountSpec, columns: seq<Column>, keys: seq<Option<int>>, rows: seq<AccountRow>)
    requires ValidSnapshot(db) && ID in columns
    requires multiset(rows) <= multiset(Filter(db.accounts, KeepAccount(AskingIds(q, DistinctKeys(keys)).where)))
    ensures DealOne(keys, Ids(ScanAccounts(columns, rows)), LookupAll(db, q, rows)) == Ok(LookupKeys(db, q, keys))
            <==> |rows| == |Filter(db.accounts, KeepAccount(AskingIds(q, DistinctKeys(keys)).where))|
  {
    var where := AskingIds(q, DistinctKeys(keys)).where;
    var all := Filter(db.accounts, KeepAccount(where));
    WholePart(rows, all);
    if |rows| == |all| {
      DealtParents(db, q, columns, keys, rows);
    } else {
      var r := Missed(rows, all);
      DroppedParent(db, q, columns, keys, rows, r);
    }
  }

  /** A node whose parent is not among the rows gets none, and a lookup would find it. */
  lemma DroppedParent(db: Snapshot, q: AccountSpec, columns: seq<Column>, keys: seq<Option<int>>,
                      rows: seq<AccountRow>, r: AccountRow)
    requires ValidSnapshot(db) && ID in columns
    requires var all := Filter(db.accounts, KeepAccount(AskingIds(q, DistinctKeys(keys)).where));
             multiset(rows) <= multiset(all) && r in all && multiset(rows)[r] < multiset(all)[r]
    ensures DealOne(keys, Ids(ScanAccounts(columns, rows)), LookupAll(db, q, rows)) != Ok(LookupKeys(db, q, keys))
  {
    var where := AskingIds(q, DistinctKeys(keys)).where;
    var all := Filter(db.accounts, KeepAccount(where));
    var ids := Ids(ScanAccounts(columns, rows));
    FilterMember(db.accounts, KeepAccount(where), r);
    KeepAlso(q.where, IDIn(DistinctKeys(keys)), r);
    FindsAccount(db, q.where, r.id, r);
    FilteredAccountsDistinct(db.accounts, KeepAccount(where));
    AccountOnce(all, r);
    forall k | 0 <= k < |rows| ensures ids[k] != r.id {
      assert rows[k] in multiset(rows);
      assert rows[k] in all;
    }
    var i :| 0 <= i < |keys| && keys[i] == Some(r.id);
    var dealt := DealOne(keys, ids, LookupAll(db, q, rows));
    assert dealt.Ok? ==> dealt.value[i] == None;
    assert LookupKeys(db, q, keys)[i] == Some(Lookup(db, q, r));
  }

  /** A page on the children query: every node gets its own children exactly when the page drops no row. */
  lemma PagedChildren(db: Snapshot, q: AccountSpec, columns: seq<Column>, ids: seq<int>, rows: seq<AccountRow>)
    requires ParentAccountID in columns && Distinct(ids)
    requires multiset(rows) <= multiset(Filter(db.accounts, KeepAccount(AskingChildren(q, ids).where)))
    ensures DealMany(ids, ParentKeys(ScanAccounts(columns, rows)), LookupAll(db, q, rows))
            == Ok(ChildrenOfAll(db, q, ids))
            <==> |rows| == |Filter(db.accounts, KeepAccount(AskingChildren(q, ids).where))|
  {
    var all := Filter(db.accounts, KeepAccount(AskingChildren(q, ids).where));
    WholePart(rows, all);
    if |rows| == |all| {
      DealtChildren(db, q, columns, ids, rows);
    } else {
      var r := Missed(rows, all);
      DroppedChild(db, q, columns, ids, rows, r);
    }
  }

  /** The list of the child's parent is too short. */
  lemma DroppedChild(db: Snapshot, q: AccountSpec, columns: seq<Column>, ids: seq<int>, rows: seq<AccountRow>,
                     r: AccountRow)
    requires ParentAccountID in columns && Distinct(ids)
    requires var all := Filter(db.accounts, KeepAccount(AskingChildren(q, ids).where));
             multiset(rows) <= multiset(all) && r in all && multiset(rows)[r] < multiset(all)[r]
    ensures DealMany(ids, ParentKeys(ScanAccounts(columns, rows)), LookupAll(db, q, rows))
            != Ok(ChildrenOfAll(db, q, ids))
  {
    var asked := AskingChildren(q, ids).where;
    var all := Filter(db.accounts, KeepAccount(asked));
    FilterMember(db.accounts, KeepAccount(asked), r);
    KeepAlso(q.where, ParentIn(ids), r);
    var id := r.parentId.value;
    var i :| 0 <= i < |ids| && ids[i] == id;
    FewerKept(rows, all, ChildOf(id), r);
    OwnedChildren(db, q, columns, rows, id);
    OwnedChildren(db, q, columns, all, id);
    DealtChildren(db, q, columns, ids, all);
    DealtAt(ids, ParentKeys(ScanAccounts(columns, rows)), LookupAll(db, q, rows), i);
    DealtAt(ids, ParentKeys(ScanAccounts(columns, all)), LookupAll(db, q, all), i);
    var some, more := LookupAll(db, q, Filter(rows, ChildOf(id))), LookupAll(db, q, Filter(all, ChildOf(id)));
    assert |multiset(some)| == |some| < |more| == |multiset(more)|;
  }

  lemma FewerKept(rows: seq<AccountRow>, all: seq<AccountRow>, keep: AccountRow -> bool, r: AccountRow)
    requires multiset(rows) <= multiset(all) && multiset(rows)[r] < multiset(all)[r] && keep(r)
    ensures |Filter(rows, keep)| < |Filter(all, keep)|
  {
    var some, more := Filter(rows, keep), Filter(all, keep);
    forall x ensures multiset(some)[x] <= multiset(more)[x] {
      FilterCount(rows, keep, x);
      FilterCount(all, keep, x);
    }
    FilterCount(rows, keep, r);
    FilterCount(all, keep, r);
    WholePart(some, more);
  }

  /** What a node is dealt of the joined rows, next to what a lookup finds for it. */
  lemma PagedPair(db: Snapshot, q: GroupSpec, ids: seq<int>, rows: seq<JoinRow>, id: int, g: GroupRow)
    requires ValidSnapshot(db) && multiset(rows) <= multiset(Stream(db, q, ids)) && id in ids
    ensures g in Elems(LinkedTo(FirstSeen(rows), rows, id)) <==> (id, g) in rows
    ensures g in GroupsOf(db, q, id) <==> (id, g) in Stream(db, q, ids)
  {
    StreamAgrees(db, q, ids, rows);
    LinkedRows(rows, id, g);
    StreamMember(db, q, ids, (id, g));
  }

  /**
   * A page on the groups query: every node gets its own groups exactly when the page drops none of the query's pairs.
   */
  lemma PagedGroups(db: Snapshot, q: GroupSpec, ids: seq<int>, rows: seq<JoinRow>)
    requires ValidSnapshot(db) && multiset(rows) <= multiset(Stream(db, q, ids))
    ensures (forall id :: id in ids ==> Elems(LinkedTo(FirstSeen(rows), rows, id)) == GroupsOf(db, q, id))
            <==> forall row :: row in Stream(db, q, ids) ==> row in rows
  {
    var stream := Stream(db, q, ids);
    if forall id :: id in ids ==> Elems(LinkedTo(FirstSeen(rows), rows, id)) == GroupsOf(db, q, id) {
      forall row: JoinRow | row in stream ensures row in rows {
        StreamMember(db, q, ids, row);
        PagedPair(db, q, ids, rows, row.0, row.1);
      }
    }
    if forall row :: row in stream ==> row in rows {
      forall id | id in ids ensures Elems(LinkedTo(FirstSeen(rows), rows, id)) == GroupsOf(db, q, id) {
        forall g ensures g in Elems(LinkedTo(FirstSeen(rows), rows, id)) <==> g in GroupsOf(db, q, id) {
          PagedPair(db, q, ids, rows, id, g);
          assert (id, g) in rows ==> (id, g) in multiset(rows);
        }
      }
    }
  }

  // ---------------------------------------------------------------- projection independence

  /** Two query trees that differ at most in the fields they select, at any level. */
  ghost predicate SameButFields(q: AccountSpec, q': AccountSpec) {
    && q.where == q'.where
    && (q.groups.Some? <==> q'.groups.Some?)
    && (q.groups.Some? ==> SameGroupsButFields(q.groups.value, q'.groups.value))
    && (q.parent.Some? <==> q'.parent.Some?)
    && (q.parent.Some? ==> SameButFields(q.parent.value, q'.parent.value))
    && (q.children.Some? <==> q'.children.Some?)
    && (q.children.Some? ==> SameButFields(q.children.value, q'.children.value))
    && (q.links.Some? <==> q'.links.Some?)
    && (q.links.Some? ==> SameLinksButFields(q.links.value, q'.links.value))
  }

  ghost predicate SameLinksButFields(q: LinkSpec, q': LinkSpec) {
    && q.where == q'.where
    && (q.account.Some? <==> q'.account.Some?)
    && (q.account.Some? ==> SameButFields(q.account.value, q'.account.value))
    && (q.group.Some? <==> q'.group.Some?)
    && (q.group.Some? ==> SameGroupsButFields(q.group.value, q'.group.value))
  }

  ghost predicate SameGroupsButFields(q: GroupSpec, q': GroupSpec) {
    q == q'.(fields := q.fields)
  }

  lemma SameGroupsSelected(db: Snapshot, q: GroupSpec, q': GroupSpec, id: int)
    requires SameGroupsButFields(q, q')
    ensures GroupsOf(db, q, id) == GroupsOf(db, q', id)
  {
  }

  lemma {:induction false} LookupIgnoresFields(db: Snapshot, q: AccountSpec, q': AccountSpec, row: AccountRow)
    requires SameButFields(q, q')
    ensures Lookup(db, q, row) == Lookup(db, q', row)
    decreases q, 0
  {
    var t, t' := Lookup(db, q, row), Lookup(db, q', row);
    assert t.groups == t'.groups by {
      if q.groups.Some? {
        SameGroupsSelected(db, q.groups.value, q'.groups.value, row.id);
      }
    }
    assert t.parent == t'.parent by {
      if q.parent.Some? {
        LookupKeyIgnoresFields(db, q.parent.value, q'.parent.value, row.parentId);
      }
    }
    assert t.children == t'.children by {
      if q.children.Some? {
        ChildrenIgnoreFields(db, q.children.value, q'.children.value, row.id);
      }
    }
    assert t.links == t'.links by {
      if q.links.Some? {
        LinksIgnoreFields(db, q.links.value, q'.links.value, row.id);
      }
    }
  }

  lemma {:induction false} ChildrenIgnoreFields(db: Snapshot, q: AccountSpec, q': AccountSpec, id: int)
    requires SameButFields(q, q')
    ensures ChildrenOf(db, q, id) == ChildrenOf(db, q', id)
    decreases q, 2
  {
    LookupAllIgnoresFields(db, q, q', Filter(Filter(db.accounts, KeepAccount(q.where)), ChildOf(id)));
  }

  lemma {:induction false} LinksIgnoreFields(db: Snapshot, q: LinkSpec, q': LinkSpec, id: int)
    requires SameLinksButFields(q, q')
    ensures LinksOf(db, q, id) == LinksOf(db, q', id)
    decreases q, 2
  {
    LookupLinksIgnoresFields(db, q, q', Filter(Filter(db.links, KeepLink(q.where)), LinkOf(id)));
  }

  lemma {:induction false} LookupKeyIgnoresFields(db: Snapshot, q: AccountSpec, q': AccountSpec, key: Option<int>)
    requires SameButFields(q, q')
    ensures LookupKey(db, q, key) == LookupKey(db, q', key)
    decreases q, 1
  {
    if key.Some? {
      var r := FindAccount(Filter(db.accounts, KeepAccount(q.where)), key.value);
      if r.Some? {
        LookupIgnoresFields(db, q, q', r.value);
      }
    }
  }

  lemma {:induction false} LookupAllIgnoresFields(
      db: Snapshot, q: AccountSpec, q': AccountSpec, rows: seq<AccountRow>)
    requires SameButFields(q, q')
    ensures LookupAll(db, q, rows) == LookupAll(db, q', rows)
    decreases q, 1
  {
    forall k | 0 <= k < |rows| ensures Lookup(db, q, rows[k]) == Lookup(db, q', rows[k]) {
      LookupIgnoresFields(db, q, q', rows[k]);
    }
  }

  lemma {:induction false} LookupLinksIgnoresFields(db: Snapshot, q: LinkSpec, q': LinkSpec, rows: seq<LinkRow>)
    requires SameLinksButFields(q, q')
    ensures LookupLinks(db, q, rows) == LookupLinks(db, q', rows)
    decreases q, 1
  {
    forall k | 0 <= k < |rows| ensures LookupLink(db, q, rows[k]) == LookupLink(db, q', rows[k]) {
      if q.account.Some? {
        LookupKeyIgnoresFields(db, q.account.value, q'.account.value, Some(rows[k].accountId));
      }
    }
  }

  lemma {:induction false} ReadsIgnoreFields(
      db: Snapshot, q: AccountSpec, q': AccountSpec, rows: set<AccountRow>, again: bool)
    requires SameButFields(q, q')
    ensures ReadsGroups(db, q, rows, again) <==> ReadsGroups(db, q', rows, again)
    decreases q
  {
    var ids := IdSet(rows);
    assert EdgeFindsGroups(db, q, ids, again) <==> EdgeFindsGroups(db, q', ids, again) by {
      if q.groups.Some? {
        forall id | id in ids ensures GroupsOf(db, q.groups.value, id) == GroupsOf(db, q'.groups.value, id) {
          SameGroupsSelected(db, q.groups.value, q'.groups.value, id);
        }
      }
    }
    assert ParentsRead(db, q, ParentSet(rows), again) <==> ParentsRead(db, q', ParentSet(rows), again) by {
      if q.parent.Some? {
        ReadsIgnoreFields(db, q.parent.value, q'.parent.value, KeyedRows(db, q.parent.value, ParentSet(rows)), again);
      }
    }
    assert ChildrenRead(db, q, ids, again) <==> ChildrenRead(db, q', ids, again) by {
      if q.children.Some? {
        ReadsIgnoreFields(db, q.children.value, q'.children.value, ChildRowsOf(db, q.children.value, ids), again);
      }
    }
    assert LinksRead(db, q, ids, again) <==> LinksRead(db, q', ids, again) by {
      if q.links.Some? && q.links.value.account.Some? {
        var links := LinkRowsOf(db, q.links.value, ids);
        var account, account' := q.links.value.account.value, q'.links.value.account.value;
        ReadsIgnoreFields(db, account, account', KeyedRows(db, account, OwnerSet(links)), again);
      }
    }
  }

  /**
   * Selecting fields, on the outer query or on any edge query, never changes what is loaded along the edges, nor
   * whether it is; nor does the order of answers.
   */
  lemma ProjectionIndependence(db: Snapshot, o: Orders, o': Orders, q: AccountSpec, q': AccountSpec)
    requires ValidSnapshot(db) && ValidOrders(o) && ValidOrders(o') && SameButFields(q, q')
    ensures var r, r' := QueryAll(db, o, q), QueryAll(db, o', q');
            && (r.Ok? <==> r'.Ok?)
            && (r.Ok? ==> multiset(r.value) == multiset(r'.value))
            && (NotRun(q) ==> r.Ok?)
  {
    QueryLoads(db, o, q);
    QueryLoads(db, o', q');
    assert Selected(db, q) == Selected(db, q');
    ReadsIgnoreFields(db, q, q', Selected(db, q), true);
    LookupAllIgnoresFields(db, q, q', FetchAccounts(db, o, q));
    LookupRearranged(db, q', FetchAccounts(db, o, q), FetchAccounts(db, o', q'));
    if NotRun(q) {
      NeverStuck(db, q, Selected(db, q));
    }
  }

  // ---------------------------------------------------------------- two ways to an account's groups

  /** A join row whose group is missing or filtered out leads nowhere. */
  predicate Leads(t: LinkTree) {
    t.group.Some? && t.group.value.Some?
  }

  /** The groups the join rows of an account lead to. */
  function GroupsVia(links: multiset<LinkTree>): set<GroupRow> {
    set t | t in links && Leads(t) :: t.group.value.value
  }

  /** Each join row that leads somewhere is there once, and no other leads to its group. */
  predicate ReachedOnce(links: multiset<LinkTree>) {
    forall t | t in links && Leads(t) :: links[t] == 1 && forall u | u in links && u.group == t.group :: u == t
  }

  function OwnLinks(db: Snapshot, id: int): seq<LinkRow> {
    Filter(Filter(db.links, KeepLink([])), LinkOf(id))
  }

  lemma OwnLinksMember(db: Snapshot, id: int, l: LinkRow)
    ensures l in OwnLinks(db, id) <==> l in db.links && l.accountId == id
  {
    FilterMember(db.links, KeepLink([]), l);
    FilterMember(Filter(db.links, KeepLink([])), LinkOf(id), l);
  }

  /** A group is reached over join rows exactly when one of the rows finds it. */
  lemma ReachedOver(db: Snapshot, q: LinkSpec, rows: seq<LinkRow>, g: GroupRow)
    requires q.group.Some?
    ensures g in GroupsVia(multiset(LookupLinks(db, q, rows)))
            <==> exists l :: l in rows && FindKey(db, q.group.value, Some(l.groupId)) == Some(g)
  {
    var trees := LookupLinks(db, q, rows);
    if g in GroupsVia(multiset(trees)) {
      var t: LinkTree :| t in multiset(trees) && Leads(t) && t.group.value.value == g;
      var k :| 0 <= k < |trees| && trees[k] == t;
      assert rows[k] in rows && FindKey(db, q.group.value, Some(rows[k].groupId)) == Some(g);
    }
    if l :| l in rows && FindKey(db, q.group.value, Some(l.groupId)) == Some(g) {
      var k :| 0 <= k < |rows| && rows[k] == l;
      assert trees[k] in multiset(trees) && Leads(trees[k]);
    }
  }

  /** They are the account's groups; the group query of a join row is not joined with the join table. */
  lemma ReachedAreGroups(db: Snapshot, q: LinkSpec, id: int, g: GroupRow)
    requires ValidSnapshot(db) && q.where == [] && q.group.Some?
    ensures g in GroupsVia(LinksOf(db, q, id)) <==> g in GroupsOf(db, q.group.value.(joins := []), id)
  {
    var where := q.group.value.where;
    ReachedOver(db, q, OwnLinks(db, id), g);
    FilterMember(db.groups, KeepGroup(where), g);
    forall l | l in OwnLinks(db, id) || (l in db.links && l.accountId == id)
      ensures l in OwnLinks(db, id) && l in db.links && l.accountId == id
      ensures FindKey(db, q.group.value, Some(l.groupId)) == Some(g)
              <==> g in db.groups && KeepGroup(where)(g) && g.id == l.groupId
    {
      OwnLinksMember(db, id, l);
      FindsGroup(db, where, l.groupId, g);
    }
  }

  lemma OnlyOnce(trees: seq<LinkTree>, k: nat)
    requires k < |trees| && forall j :: 0 <= j < |trees| && j != k ==> trees[j] != trees[k]
    ensures multiset(trees)[trees[k]] == 1
  {
    assert trees == trees[..k] + [trees[k]] + trees[k + 1..];
    assert trees[k] !in trees[..k] && trees[k] !in trees[k + 1..];
  }

  lemma ReachedOnceBy(trees: seq<LinkTree>)
    requires forall k, j :: 0 <= k < |trees| && 0 <= j < |trees| && j != k && Leads(trees[k]) ==>
               trees[j].group != trees[k].group
    ensures ReachedOnce(multiset(trees))
  {
    forall t | t in multiset(trees) && Leads(t)
      ensures multiset(trees)[t] == 1 && forall u | u in multiset(trees) && u.group == t.group :: u == t
    {
      var k :| 0 <= k < |trees| && trees[k] == t;
      OnlyOnce(trees, k);
    }
  }

  lemma EachReachedOnce(db: Snapshot, q: LinkSpec, id: int)
    requires ValidSnapshot(db) && q.where == [] && q.group.Some?
    ensures ReachedOnce(LinksOf(db, q, id))
  {
    var rows, trees := OwnLinks(db, id), LookupLinks(db, q, OwnLinks(db, id));
    var groups := Filter(db.groups, KeepGroup(q.group.value.where));
    FilteredLinksDistinct(db.links, KeepLink([]));
    FilteredLinksDistinct(Filter(db.links, KeepLink([])), LinkOf(id));
    forall k | 0 <= k < |rows|
      ensures trees[k].group == Some(FindGroup(groups, rows[k].groupId)) && rows[k].accountId == id
      ensures Leads(trees[k]) ==> trees[k].group.value.value.id == rows[k].groupId
    {
      OwnLinksMember(db, id, rows[k]);
      assert trees[k] == LookupLink(db, q, rows[k]);
      FoundGroup(groups, rows[k].groupId);
    }
    forall k, j | 0 <= k < |trees| && 0 <= j < |trees| && j != k && Leads(trees[k])
      ensures trees[j].group != trees[k].group
    {
    }
    ReachedOnceBy(trees);
  }

  /**
   * Loading an account's groups directly, and loading its unfiltered join rows with their groups, reach the same
   * groups, each once. Dangling group ids are allowed: neither way shows them.
   */
  lemma TwoHopsAgree(db: Snapshot, q: AccountSpec, row: AccountRow)
    requires ValidSnapshot(db) && NotRun(q) && q.groups.Some? && q.links.Some? && q.links.value.where == []
    requires q.links.value.group.Some? && q.links.value.group.value.where == q.groups.value.where
    ensures var t := Lookup(db, q, row);
            GroupsVia(t.links.value) == t.groups.value && ReachedOnce(t.links.value)
  {
    var links := q.links.value;
    assert GroupsOf(db, links.group.value.(joins := []), row.id) == GroupsOf(db, q.groups.value, row.id);
    forall g
      ensures g in GroupsVia(LinksOf(db, links, row.id)) <==> g in GroupsOf(db, links.group.value.(joins := []), row.id)
    {
      ReachedAreGroups(db, links, row.id, g);
    }
    EachReachedOnce(db, links, row.id);
  }

  /** The same of every node that a batched query returns. */
  lemma QueriedHopsAgree(db: Snapshot, o: Orders, q: AccountSpec, i: nat)
    requires ValidSnapshot(db) && ValidOrders(o) && NotRun(q)
    requires q.groups.Some? && q.links.Some? && q.links.value.where == []
    requires q.links.value.group.Some? && q.links.value.group.value.where == q.groups.value.where
    requires QueryAll(db, o, q).Ok? ==> i < |QueryAll(db, o, q).value|
    ensures QueryAll(db, o, q).Ok?
    ensures var t := QueryAll(db, o, q).value[i];
            t.groups.Some? && t.links.Some? && GroupsVia(t.links.value) == t.groups.value && ReachedOnce(t.links.value)
  {
    QueryIsLookup(db, o, q);
    var rows := FetchAccounts(db, o, q);
    assert QueryAll(db, o, q).value[i] == Lookup(db, q, rows[i]);
    TwoHopsAgree(db, q, rows[i]);
  }

  // ---------------------------------------------------------------- what the tables say of a loaded tree

  function TreeRows(ts: seq<AccountTree>): seq<AccountRow> {
    seq(|ts|, k requires 0 <= k < |ts| => ts[k].row)
  }

  /**
   * A query returns an account, and returns it once, exactly when it is in the table and passes every test of the
   * query, whatever order the database answers in.
   */
  lemma QueryReturns(db: Snapshot, o: Orders, q: AccountSpec, r: AccountRow)
    requires ValidSnapshot(db) && ValidOrders(o) && OnlyTests(q.where) && QueryAll(db, o, q).Ok?
    ensures DistinctAccounts(TreeRows(QueryAll(db, o, q).value))
    ensures r in TreeRows(QueryAll(db, o, q).value)
            <==> r in db.accounts && forall k :: 0 <= k < |q.where| ==> q.where[k].test(r)
  {
    var rows, ts := FetchAccounts(db, o, q), QueryAll(db, o, q).value;
    QueryLoads(db, o, q);
    RowsOfTrees(db, q, rows);
    AnswerDistinct(rows, db, q.where);
    AccountAnswered(rows, db, q.where, r);
    AccountTested(q.where, r);
  }

  lemma RowsOfTrees(db: Snapshot, q: AccountSpec, rows: seq<AccountRow>)
    ensures TreeRows(LookupAll(db, q, rows)) == rows
  {
    assert forall k :: 0 <= k < |rows| ==> LookupAll(db, q, rows)[k] == Lookup(db, q, rows[k]);
  }

  /**
   * The loaded children of an account are the rows that name it as parent and pass every test of the children query.
   */
  lemma ChildRows(db: Snapshot, q: AccountSpec, id: int, c: AccountRow)
    requires OnlyTests(q.where)
    ensures (exists t :: t in ChildrenOf(db, q, id) && t.row == c)
            <==> && c in db.accounts && c.parentId == Some(id)
                 && forall k :: 0 <= k < |q.where| ==> q.where[k].test(c)
  {
    var all := Filter(db.accounts, KeepAccount(q.where));
    var kids := Filter(all, ChildOf(id));
    var trees := LookupAll(db, q, kids);
    assert ChildrenOf(db, q, id) == multiset(trees);
    FilterMember(db.accounts, KeepAccount(q.where), c);
    FilterMember(all, ChildOf(id), c);
    AccountTested(q.where, c);
    if c in kids {
      var k :| 0 <= k < |kids| && kids[k] == c;
      assert trees[k] in multiset(trees) && trees[k] == Lookup(db, q, c);
    }
    if t :| t in multiset(trees) && t.row == c {
      var k :| 0 <= k < |trees| && trees[k] == t;
      assert trees[k] == Lookup(db, q, kids[k]);
      assert kids[k] in kids;
    }
  }

  /** The loaded parent is the account with the node's key, if that account passes every test of the parent query. */
  lemma ParentRow(db: Snapshot, q: AccountSpec, key: Option<int>, p: AccountRow)
    requires ValidSnapshot(db) && OnlyTests(q.where)
    ensures LookupKey(db, q, key).Some? && LookupKey(db, q, key).value.row == p
            <==> && p in db.accounts && key == Some(p.id)
                 && forall k :: 0 <= k < |q.where| ==> q.where[k].test(p)
  {
    if key.Some? {
      FindsAccount(db, q.where, key.value, p);
      AccountTested(q.where, p);
    }
  }

  /** The loaded join rows of an account are those that name it and pass every test of the join-row query. */
  lemma JoinRowsOf(db: Snapshot, q: LinkSpec, id: int, l: LinkRow)
    requires OnlyLinkTests(q.where)
    ensures (exists t :: t in LinksOf(db, q, id) && t.row == l)
            <==> l in db.links && l.accountId == id && forall k :: 0 <= k < |q.where| ==> q.where[k].test(l)
  {
    var all := Filter(db.links, KeepLink(q.where));
    var own := Filter(all, LinkOf(id));
    var trees := LookupLinks(db, q, own);
    assert LinksOf(db, q, id) == multiset(trees);
    FilterMember(db.links, KeepLink(q.where), l);
    FilterMember(all, LinkOf(id), l);
    LinkTested(q.where, l);
    if l in own {
      var k :| 0 <= k < |own| && own[k] == l;
      assert trees[k] in multiset(trees) && trees[k] == LookupLink(db, q, l);
    }
    if t :| t in multiset(trees) && t.row == l {
      var k :| 0 <= k < |trees| && trees[k] == t;
      assert trees[k] == LookupLink(db, q, own[k]);
      assert own[k] in own;
    }
  }

  /** The loaded group of a join row is the group with its id, if that passes every test of the group query. */
  lemma JoinRowGroup(db: Snapshot, q: GroupSpec, id: int, g: GroupRow)
    requires ValidSnapshot(db) && OnlyGroupTests(q.where)
    ensures FindKey(db, q, Some(id)) == Some(g)
            <==> g in db.groups && g.id == id && forall k :: 0 <= k < |q.where| ==> q.where[k].test(g)
  {
    FindsGroup(db, q.where, id, g);
    GroupTested(q.where, g);
  }

  /** The loaded groups of an account are those that a join row links it to and that pass every test of the query. */
  lemma GroupRowsOf(db: Snapshot, q: GroupSpec, id: int, g: GroupRow)
    requires OnlyGroupTests(q.where) && q.joins == []
    ensures g in GroupsOf(db, q, id)
            <==> && g in db.groups
                 && (exists l :: l in db.links && l.accountId == id && l.groupId == g.id)
                 && forall k :: 0 <= k < |q.where| ==> q.where[k].test(g)
  {
    FilterMember(db.groups, KeepGroup(q.where), g);
    GroupTested(q.where, g);
    assert Linked(db, [id], g.id) <==> exists l :: l in db.links && l.accountId == id && l.groupId == g.id;
  }

  lemma ParentTree(db: Snapshot, q: AccountSpec, key: Option<int>)
    ensures LookupKey(db, q, key).Some? ==>
              LookupKey(db, q, key).value == Lookup(db, q, LookupKey(db, q, key).value.row)
  {
    if key.Some? {
      var r := FindAccount(Filter(db.accounts, KeepAccount(q.where)), key.value);
      assert r.Some? ==> LookupKey(db, q, key) == Some(Lookup(db, q, r.value));
      assert r.Some? ==> Lookup(db, q, r.value).row == r.value;
    }
  }

  lemma ChildTrees(db: Snapshot, q: AccountSpec, id: int)
    ensures forall t :: t in ChildrenOf(db, q, id) ==> t == Lookup(db, q, t.row)
  {
    var trees := LookupAll(db, q, Filter(Filter(db.accounts, KeepAccount(q.where)), ChildOf(id)));
    assert ChildrenOf(db, q, id) == multiset(trees);
    forall t | t in trees ensures t == Lookup(db, q, t.row) {
    }
  }

  lemma LinkTrees(db: Snapshot, q: LinkSpec, id: int)
    ensures forall t :: t in LinksOf(db, q, id) ==> t == LookupLink(db, q, t.row)
  {
    var trees := LookupLinks(db, q, Filter(Filter(db.links, KeepLink(q.where)), LinkOf(id)));
    assert LinksOf(db, q, id) == multiset(trees);
    forall t | t in trees ensures t == LookupLink(db, q, t.row) {
    }
  }

  /** A tree has the requested edges and no other. */
  lemma TreeEdges(db: Snapshot, q: AccountSpec, row: AccountRow)
    ensures var t := Lookup(db, q, row);
            && t.row == row
            && (t.groups.Some? <==> q.groups.Some?) && (t.parent.Some? <==> q.parent.Some?)
            && (t.children.Some? <==> q.children.Some?) && (t.links.Some? <==> q.links.Some?)
  {
  }

  /** The parent in a tree is that of the account which the row names, if it passes every test of the parent query. */
  lemma TreeParent(db: Snapshot, q: AccountSpec, row: AccountRow, p: AccountRow)
    requires ValidSnapshot(db) && q.parent.Some? && OnlyTests(q.parent.value.where)
    ensures Lookup(db, q, row).parent.value == Some(Lookup(db, q.parent.value, p))
            <==> && p in db.accounts && row.parentId == Some(p.id)
                 && forall k :: 0 <= k < |q.parent.value.where| ==> q.parent.value.where[k].test(p)
  {
    ParentRow(db, q.parent.value, row.parentId, p);
    ParentTree(db, q.parent.value, row.parentId);
  }

  /** The children in a tree are those of the accounts which name the row's account and pass every test. */
  lemma TreeChildren(db: Snapshot, q: AccountSpec, row: AccountRow, c: AccountRow)
    requires q.children.Some? && OnlyTests(q.children.value.where)
    ensures Lookup(db, q.children.value, c) in Lookup(db, q, row).children.value
            <==> && c in db.accounts && c.parentId == Some(row.id)
                 && forall k :: 0 <= k < |q.children.value.where| ==> q.children.value.where[k].test(c)
    ensures forall t :: t in Lookup(db, q, row).children.value ==> t == Lookup(db, q.children.value, t.row)
  {
    ChildRows(db, q.children.value, row.id, c);
    ChildTrees(db, q.children.value, row.id);
    assert Lookup(db, q.children.value, c).row == c;
  }

  /** The join rows in a tree are those which name the row's account and pass every test. */
  lemma TreeLinks(db: Snapshot, q: AccountSpec, row: AccountRow, l: LinkRow)
    requires q.links.Some? && OnlyLinkTests(q.links.value.where)
    ensures LookupLink(db, q.links.value, l) in Lookup(db, q, row).links.value
            <==> && l in db.links && l.accountId == row.id
                 && forall k :: 0 <= k < |q.links.value.where| ==> q.links.value.where[k].test(l)
    ensures forall t :: t in Lookup(db, q, row).links.value ==> t == LookupLink(db, q.links.value, t.row)
  {
    JoinRowsOf(db, q.links.value, row.id, l);
    LinkTrees(db, q.links.value, row.id);
    assert LookupLink(db, q.links.value, l).row == l;
  }

  /** The groups in a tree are those which a join row links to the row's account and which pass every test. */
  lemma TreeGroups(db: Snapshot, q: AccountSpec, row: AccountRow, g: GroupRow)
    requires q.groups.Some? && OnlyGroupTests(q.groups.value.where) && q.groups.value.joins == []
    ensures g in Lookup(db, q, row).groups.value
            <==> && g in db.groups && (exists l :: l in db.links && l.accountId == row.id && l.groupId == g.id)
                 && forall k :: 0 <= k < |q.groups.value.where| ==> q.groups.value.where[k].test(g)
  {
    GroupRowsOf(db, q.groups.value, row.id, g);
  }

  /** The account and the group of a join row are those that its own keys name and that pass every test. */
  lemma JoinRowEdges(db: Snapshot, q: LinkSpec, row: LinkRow, a: AccountRow, g: GroupRow)
    requires ValidSnapshot(db)
    ensures q.account.Some? && OnlyTests(q.account.value.where) ==>
              (LookupLink(db, q, row).account.value == Some(Lookup(db, q.account.value, a))
               <==> && a in db.accounts && a.id == row.accountId
                    && forall k :: 0 <= k < |q.account.value.where| ==> q.account.value.where[k].test(a))
    ensures q.group.Some? && OnlyGroupTests(q.group.value.where) ==>
              (LookupLink(db, q, row).group.value == Some(g)
               <==> && g in db.groups && g.id == row.groupId
                    && forall k :: 0 <= k < |q.group.value.where| ==> q.group.value.where[k].test(g))
  {
    if q.account.Some? && OnlyTests(q.account.value.where) {
      ParentRow(db, q.account.value, Some(row.accountId), a);
    }
    if q.group.Some? && OnlyGroupTests(q.group.value.where) {
      JoinRowGroup(db, q.group.value, row.groupId, g);
    }
  }

  /**
   * Loading children and loading parents agree: of two accounts that pass the tests of both edge queries, c is among
   * p's children exactly when c's parent is p.
   */
  lemma ParentChildDuality(db: Snapshot, down: AccountSpec, up: AccountSpec, p: AccountRow, c: AccountRow)
    requires ValidSnapshot(db) && p in db.accounts && c in db.accounts
    requires down.children.Some? && OnlyTests(down.children.value.where)
    requires up.parent.Some? && OnlyTests(up.parent.value.where)
    requires forall k :: 0 <= k < |down.children.value.where| ==> down.children.value.where[k].test(c)
    requires forall k :: 0 <= k < |up.parent.value.where| ==> up.parent.value.where[k].test(p)
    ensures (exists t :: t in Lookup(db, down, p).children.value && t.row == c)
            <==> Lookup(db, up, c).parent.value.Some? && Lookup(db, up, c).parent.value.value.row == p
  {
    ChildRows(db, down.children.value, p.id, c);
    ParentRow(db, up.parent.value, c.parentId, p);
    assert Lookup(db, down, p).children.value == ChildrenOf(db, down.children.value, p.id);
    assert Lookup(db, up, c).parent.value == LookupKey(db, up.parent.value, c.parentId);
  }
}
