/** Looking rows up, filtering them, and rearranging them: what the database's answers have in common. */
module Tables {
  import opened Wrappers
  import opened Sequences
  import opened Schema
  import opened BatchJoin

  function FindAccount(rows: seq<AccountRow>, id: int): Option<AccountRow> {
    if rows == [] then None else if rows[0].id == id then Some(rows[0]) else FindAccount(rows[1..], id)
  }

  function FindGroup(rows: seq<GroupRow>, id: int): Option<GroupRow> {
    if rows == [] then None else if rows[0].id == id then Some(rows[0]) else FindGroup(rows[1..], id)
  }

  function ChildOf(id: int): AccountRow -> bool {
    (r: AccountRow) => r.parentId == Some(id)
  }

  function LinkOf(id: int): LinkRow -> bool {
    (r: LinkRow) => r.accountId == id
  }

  predicate Distinct(ids: seq<int>) {
    forall i, j :: 0 <= i < j < |ids| ==> ids[i] != ids[j]
  }

  // ---------------------------------------------------------------- filtering

  /** Filtering goes from front to back as well as it goes from back to front. */
  lemma {:induction false} FilterSnoc<R>(rows: seq<R>, keep: R -> bool)
    requires rows != []
    ensures var n := |rows| - 1;
            Filter(rows, keep) == Filter(rows[..n], keep) + if keep(rows[n]) then [rows[n]] else []
  {
    var n := |rows| - 1;
    if n == 0 {
      assert rows[1..] == [] && rows[..n] == [];
    } else {
      FilterSnoc(rows[1..], keep);
      assert rows[1..][n - 1] == rows[n];
      TailFront(rows);
    }
  }

  /** Items made one from each row, dealt by a key: an owner gets those of its own rows, in row order. */
  lemma {:induction false} OwnedIsFiltered<R, T>(
      owners: seq<Option<int>>, items: seq<T>, rows: seq<R>, keep: R -> bool, make: R -> T, id: int)
    requires |owners| == |items| == |rows|
    requires forall k :: 0 <= k < |rows| ==> (owners[k] == Some(id) <==> keep(rows[k])) && items[k] == make(rows[k])
    ensures |Owned(owners, items, id)| == |Filter(rows, keep)|
    ensures forall k :: 0 <= k < |Filter(rows, keep)| ==> Owned(owners, items, id)[k] == make(Filter(rows, keep)[k])
  {
    if rows != [] {
      var n := |rows| - 1;
      OwnedIsFiltered(owners[..n], items[..n], rows[..n], keep, make, id);
      FilterSnoc(rows, keep);
    }
  }

  /** Two filters in a row keep the rows that pass both, however the conditions are split between them. */
  lemma {:induction false} FilterTwice<R>(rows: seq<R>, p: R -> bool, q: R -> bool, p': R -> bool, q': R -> bool)
    requires forall k :: 0 <= k < |rows| ==> (p(rows[k]) && q(rows[k]) <==> p'(rows[k]) && q'(rows[k]))
    ensures Filter(Filter(rows, p), q) == Filter(Filter(rows, p'), q')
  {
    if rows != [] {
      FilterTwice(rows[1..], p, q, p', q');
      FilterAlso(rows, p, q);
      FilterAlso(rows, p', q');
    }
  }

  lemma FilterAlso<R>(rows: seq<R>, p: R -> bool, q: R -> bool)
    requires rows != []
    ensures Filter(Filter(rows, p), q)
         == (if p(rows[0]) && q(rows[0]) then [rows[0]] else []) + Filter(Filter(rows[1..], p), q)
  {
    var rest := Filter(rows[1..], p);
    if p(rows[0]) {
      assert ([rows[0]] + rest)[1..] == rest;
    } else {
      assert [] + rest == rest;
    }
  }

  /** How often a row passes a filter depends only on how often it is in the table. */
  lemma {:induction false} FilterCount<R>(rows: seq<R>, keep: R -> bool, r: R)
    ensures multiset(Filter(rows, keep))[r] == if keep(r) then multiset(rows)[r] else 0
  {
    if rows != [] {
      FilterCount(rows[1..], keep, r);
      assert rows == [rows[0]] + rows[1..];
      assert multiset(rows) == multiset([rows[0]]) + multiset(rows[1..]);
      assert multiset(Filter(rows, keep))
          == multiset(if keep(rows[0]) then [rows[0]] else []) + multiset(Filter(rows[1..], keep));
    }
  }

  lemma FilterFirst<R>(r: R, rows: seq<R>, keep: R -> bool)
    ensures Filter([r] + rows, keep) == (if keep(r) then [r] else []) + Filter(rows, keep)
  {
    assert ([r] + rows)[1..] == rows;
  }

  lemma {:induction false} FilterParts<R>(a: seq<R>, b: seq<R>, keep: R -> bool)
    ensures Filter(a + b, keep) == Filter(a, keep) + Filter(b, keep)
  {
    if a == [] {
      assert a + b == b;
    } else {
      var first, rest := a[0], a[1..];
      FilterParts(rest, b, keep);
      FilterFirst(first, rest, keep);
      FilterFirst(first, rest + b, keep);
      assert a == [first] + rest && a + b == [first] + (rest + b);
    }
  }

  /** Filtering does not depend on order either. */
  lemma {:induction false} FilterRearranged<R>(a: seq<R>, b: seq<R>, keep: R -> bool)
    requires multiset(a) == multiset(b)
    ensures multiset(Filter(a, keep)) == multiset(Filter(b, keep))
    decreases |a|
  {
    if a == [] {
      assert |multiset(b)| == 0;
    } else {
      var before, after := FirstMoved(a, b);
      FilterRearranged(a[1..], before + after, keep);
      FilterParts(before, after, keep);
      FilterParts(before + [a[0]], after, keep);
      FilterParts(before, [a[0]], keep);
      Around(Filter(before, keep), a[0], Filter(after, keep));
    }
  }

  /**
   * Of the rows that an answer holds, in any order, those of one part are the part's rows that pass, however the
   * answer's condition and the lookup's differ outside the part.
   */
  lemma PartAgrees<R>(all: seq<R>, rows: seq<R>, asked: R -> bool, keep: R -> bool, part: R -> bool)
    requires multiset(rows) == multiset(Filter(all, asked))
    requires forall k :: 0 <= k < |all| ==> (asked(all[k]) && part(all[k]) <==> keep(all[k]) && part(all[k]))
    ensures multiset(Filter(rows, part)) == multiset(Filter(Filter(all, keep), part))
  {
    FilterRearranged(rows, Filter(all, asked), part);
    FilterTwice(all, asked, part, keep, part);
  }

  // ---------------------------------------------------------------- one more condition

  lemma KeepAlso(where: seq<AccountPred>, p: AccountPred, r: AccountRow)
    ensures KeepAccount(where + [p])(r) <==> KeepAccount(where)(r) && AccountHolds(p, r)
  {
    assert (where + [p])[|where|] == p;
    assert forall k :: 0 <= k < |where| ==> (where + [p])[k] == where[k];
  }

  lemma KeepLinkAlso(where: seq<LinkPred>, p: LinkPred, r: LinkRow)
    ensures KeepLink(where + [p])(r) <==> KeepLink(where)(r) && LinkHolds(p, r)
  {
    assert (where + [p])[|where|] == p;
    assert forall k :: 0 <= k < |where| ==> (where + [p])[k] == where[k];
  }

  lemma KeepGroupAlso(where: seq<GroupPred>, p: GroupPred, r: GroupRow)
    ensures KeepGroup(where + [p])(r) <==> KeepGroup(where)(r) && GroupHolds(p, r)
  {
    assert (where + [p])[|where|] == p;
    assert forall k :: 0 <= k < |where| ==> (where + [p])[k] == where[k];
  }

  // ---------------------------------------------------------------- a client's own conditions

  /** A client's conditions let a row through exactly when every test holds of it. */
  lemma AccountTested(where: seq<AccountPred>, r: AccountRow)
    requires OnlyTests(where)
    ensures KeepAccount(where)(r) <==> forall k :: 0 <= k < |where| ==> where[k].test(r)
  {
    assert forall k :: 0 <= k < |where| ==> (AccountHolds(where[k], r) <==> where[k].test(r));
  }

  lemma LinkTested(where: seq<LinkPred>, r: LinkRow)
    requires OnlyLinkTests(where)
    ensures KeepLink(where)(r) <==> forall k :: 0 <= k < |where| ==> where[k].test(r)
  {
    assert forall k :: 0 <= k < |where| ==> (LinkHolds(where[k], r) <==> where[k].test(r));
  }

  lemma GroupTested(where: seq<GroupPred>, r: GroupRow)
    requires OnlyGroupTests(where)
    ensures KeepGroup(where)(r) <==> forall k :: 0 <= k < |where| ==> where[k].test(r)
  {
    assert forall k :: 0 <= k < |where| ==> (GroupHolds(where[k], r) <==> where[k].test(r));
  }

  // ---------------------------------------------------------------- answers in any order

  /** The rows are the table's rows that pass, in some order. */
  ghost predicate AccountsAnswer(rows: seq<AccountRow>, db: Snapshot, where: seq<AccountPred>) {
    multiset(rows) == multiset(Filter(db.accounts, KeepAccount(where)))
  }

  ghost predicate LinksAnswer(rows: seq<LinkRow>, db: Snapshot, where: seq<LinkPred>) {
    multiset(rows) == multiset(Filter(db.links, KeepLink(where)))
  }

  ghost predicate GroupsAnswer(rows: seq<GroupRow>, db: Snapshot, where: seq<GroupPred>) {
    multiset(rows) == multiset(Filter(db.groups, KeepGroup(where)))
  }

  lemma AccountAnswered(rows: seq<AccountRow>, db: Snapshot, where: seq<AccountPred>, r: AccountRow)
    requires AccountsAnswer(rows, db, where)
    ensures r in rows <==> r in db.accounts && KeepAccount(where)(r)
  {
    SameMembers(rows, Filter(db.accounts, KeepAccount(where)), r);
    FilterMember(db.accounts, KeepAccount(where), r);
  }

  lemma LinkAnswered(rows: seq<LinkRow>, db: Snapshot, where: seq<LinkPred>, r: LinkRow)
    requires LinksAnswer(rows, db, where)
    ensures r in rows <==> r in db.links && KeepLink(where)(r)
  {
    SameMembers(rows, Filter(db.links, KeepLink(where)), r);
    FilterMember(db.links, KeepLink(where), r);
  }

  lemma GroupAnswered(rows: seq<GroupRow>, db: Snapshot, where: seq<GroupPred>, r: GroupRow)
    requires GroupsAnswer(rows, db, where)
    ensures r in rows <==> r in db.groups && KeepGroup(where)(r)
  {
    SameMembers(rows, Filter(db.groups, KeepGroup(where)), r);
    FilterMember(db.groups, KeepGroup(where), r);
  }

  lemma {:induction false} AccountOnce(rows: seq<AccountRow>, r: AccountRow)
    requires DistinctAccounts(rows)
    ensures multiset(rows)[r] <= 1
  {
    if rows != [] {
      AccountOnce(rows[1..], r);
      assert rows == [rows[0]] + rows[1..];
      assert multiset(rows) == multiset([rows[0]]) + multiset(rows[1..]);
      if r == rows[0] {
        assert forall k :: 0 <= k < |rows[1..]| ==> rows[1..][k] != r;
        assert r !in rows[1..];
      }
    }
  }

  lemma {:induction false} GroupOnce(rows: seq<GroupRow>, r: GroupRow)
    requires DistinctGroups(rows)
    ensures multiset(rows)[r] <= 1
  {
    if rows != [] {
      GroupOnce(rows[1..], r);
      assert rows == [rows[0]] + rows[1..];
      assert multiset(rows) == multiset([rows[0]]) + multiset(rows[1..]);
      if r == rows[0] {
        assert forall k :: 0 <= k < |rows[1..]| ==> rows[1..][k] != r;
        assert r !in rows[1..];
      }
    }
  }

  /** Rows taken from a table whose ids are distinct, none more often than the table has it, have distinct ids. */
  lemma PartDistinct(rows: seq<AccountRow>, all: seq<AccountRow>)
    requires DistinctAccounts(all) && multiset(rows) <= multiset(all)
    ensures DistinctAccounts(rows)
  {
    forall i, j | 0 <= i < j < |rows| ensures rows[i].id != rows[j].id {
      assert rows[i] in multiset(rows) && rows[j] in multiset(rows);
      assert rows[i] in all && rows[j] in all;
      var a :| 0 <= a < |all| && all[a] == rows[i];
      var b :| 0 <= b < |all| && all[b] == rows[j];
      if rows[i] == rows[j] {
        TwiceIn(rows, i, j);
        AccountOnce(all, rows[i]);
        assert false;
      }
    }
  }

  lemma GroupsPartDistinct(rows: seq<GroupRow>, all: seq<GroupRow>)
    requires DistinctGroups(all) && multiset(rows) <= multiset(all)
    ensures DistinctGroups(rows)
  {
    forall i, j | 0 <= i < j < |rows| ensures rows[i].id != rows[j].id {
      assert rows[i] in multiset(rows) && rows[j] in multiset(rows);
      assert rows[i] in all && rows[j] in all;
      var a :| 0 <= a < |all| && all[a] == rows[i];
      var b :| 0 <= b < |all| && all[b] == rows[j];
      if rows[i] == rows[j] {
        TwiceIn(rows, i, j);
        GroupOnce(all, rows[i]);
        assert false;
      }
    }
  }

  lemma AnswerDistinct(rows: seq<AccountRow>, db: Snapshot, where: seq<AccountPred>)
    requires ValidSnapshot(db) && AccountsAnswer(rows, db, where)
    ensures DistinctAccounts(rows)
  {
    FilteredAccountsDistinct(db.accounts, KeepAccount(where));
    PartDistinct(rows, Filter(db.accounts, KeepAccount(where)));
  }

  lemma GroupAnswerDistinct(rows: seq<GroupRow>, db: Snapshot, where: seq<GroupPred>)
    requires ValidSnapshot(db) && GroupsAnswer(rows, db, where)
    ensures DistinctGroups(rows)
  {
    FilteredGroupsDistinct(db.groups, KeepGroup(where));
    GroupsPartDistinct(rows, Filter(db.groups, KeepGroup(where)));
  }

  // ---------------------------------------------------------------- finding

  lemma {:induction false} FoundAccount(rows: seq<AccountRow>, id: int)
    ensures FindAccount(rows, id).Some? ==> FindAccount(rows, id).value in rows && FindAccount(rows, id).value.id == id
    ensures FindAccount(rows, id) == None ==> forall r :: r in rows ==> r.id != id
  {
    if rows != [] {
      FoundAccount(rows[1..], id);
      assert rows == [rows[0]] + rows[1..];
    }
  }

  lemma {:induction false} FoundGroup(rows: seq<GroupRow>, id: int)
    ensures FindGroup(rows, id).Some? ==> FindGroup(rows, id).value in rows && FindGroup(rows, id).value.id == id
    ensures FindGroup(rows, id) == None ==> forall r :: r in rows ==> r.id != id
  {
    if rows != [] {
      FoundGroup(rows[1..], id);
      assert rows == [rows[0]] + rows[1..];
    }
  }

  lemma SameAccount(db: Snapshot, keep: AccountRow -> bool, a: AccountRow, b: AccountRow)
    requires ValidSnapshot(db) && a in Filter(db.accounts, keep) && b in Filter(db.accounts, keep) && a.id == b.id
    ensures a == b
  {
    FilterMember(db.accounts, keep, a);
    FilterMember(db.accounts, keep, b);
  }

  lemma SameGroup(db: Snapshot, keep: GroupRow -> bool, a: GroupRow, b: GroupRow)
    requires ValidSnapshot(db) && a in Filter(db.groups, keep) && b in Filter(db.groups, keep) && a.id == b.id
    ensures a == b
  {
    FilterMember(db.groups, keep, a);
    FilterMember(db.groups, keep, b);
  }

  /** A lookup by id finds a row that passes exactly when the table has one with that id. */
  lemma FindsAccount(db: Snapshot, where: seq<AccountPred>, id: int, r: AccountRow)
    requires ValidSnapshot(db)
    ensures FindAccount(Filter(db.accounts, KeepAccount(where)), id) == Some(r)
            <==> r in db.accounts && KeepAccount(where)(r) && r.id == id
  {
    var all := Filter(db.accounts, KeepAccount(where));
    FoundAccount(all, id);
    FilterMember(db.accounts, KeepAccount(where), r);
    if r in all && r.id == id {
      SameAccount(db, KeepAccount(where), FindAccount(all, id).value, r);
    }
  }

  lemma FindsGroup(db: Snapshot, where: seq<GroupPred>, id: int, g: GroupRow)
    requires ValidSnapshot(db)
    ensures FindGroup(Filter(db.groups, KeepGroup(where)), id) == Some(g)
            <==> g in db.groups && KeepGroup(where)(g) && g.id == id
  {
    var all := Filter(db.groups, KeepGroup(where));
    FoundGroup(all, id);
    FilterMember(db.groups, KeepGroup(where), g);
    if g in all && g.id == id {
      SameGroup(db, KeepGroup(where), FindGroup(all, id).value, g);
    }
  }

  lemma {:induction false} LastOfDistinct<T>(ids: seq<int>, items: seq<T>, k: nat)
    requires |ids| == |items| && k < |ids| && Distinct(ids)
    ensures LastOf(ids, items, ids[k]) == Some(items[k])
  {
    if k < |ids| - 1 {
      LastOfDistinct(ids[..|ids| - 1], items[..|items| - 1], k);
    }
  }
}
