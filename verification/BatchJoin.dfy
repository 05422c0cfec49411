/** The value-level core of the three edge loaders: how fetched neighbours are dealt out to nodes by key. */
module BatchJoin {
  import opened Wrappers
  import opened Schema

  // ---------------------------------------------------------------- unique edges, by foreign key

  /** The keys to fetch: each key that some node has, once, in order of first appearance. */
  function DistinctKeys(keys: seq<Option<int>>): (ids: seq<int>)
    ensures forall id :: id in ids <==> Some(id) in keys
    ensures forall a, b :: 0 <= a < b < |ids| ==> ids[a] != ids[b]
  {
    if keys == [] then [] else
      var before, key := DistinctKeys(keys[..|keys| - 1]), keys[|keys| - 1];
      assert keys == keys[..|keys| - 1] + [key];
      if key.Some? && key.value !in before then before + [key.value] else before
  }

  lemma DistinctNext(keys: seq<Option<int>>, key: Option<int>)
    ensures DistinctKeys(keys + [key])
            == if key.Some? && Some(key.value) !in keys then DistinctKeys(keys) + [key.value] else DistinctKeys(keys)
  {
    assert (keys + [key])[..|keys|] == keys;
  }

  /** The last item filed under an id. */
  function LastOf<T>(ids: seq<int>, items: seq<T>, id: int): (r: Option<T>)
    requires |ids| == |items|
    ensures r == None <==> id !in ids
  {
    if ids == [] then None
    else if ids[|ids| - 1] == id then Some(items[|ids| - 1])
    else
      assert ids == ids[..|ids| - 1] + [ids[|ids| - 1]];
      LastOf(ids[..|ids| - 1], items[..|ids| - 1], id)
  }

  // ---------------------------------------------------------------- list edges, by the neighbour's key

  /** The items whose owner has this id, in order. */
  function Owned<T>(owners: seq<Option<int>>, items: seq<T>, id: int): seq<T>
    requires |owners| == |items|
  {
    if owners == [] then []
    else
      var n := |owners| - 1;
      Owned(owners[..n], items[..n], id) + if owners[n] == Some(id) then [items[n]] else []
  }

  /** A map from id to node keeps the last node of each id. */
  predicate LastWithId(ids: seq<int>, i: nat)
    requires i < |ids|
  {
    forall j :: i < j < |ids| ==> ids[j] != ids[i]
  }

  /** What the first n nodes get, when only the last node of an id gets any. */
  function ShareTotal<T>(ids: seq<int>, owners: seq<Option<int>>, items: seq<T>, n: nat): nat
    requires |owners| == |items| && n <= |ids|
  {
    if n == 0 then 0
    else
      ShareTotal(ids, owners, items, n - 1)
      + if LastWithId(ids, n - 1) then |Owned(owners, items, ids[n - 1])| else 0
  }

  lemma {:induction false} LastIndex(ids: seq<int>, id: int, n: nat) returns (at: nat)
    requires n <= |ids| && (exists k :: 0 <= k < n && ids[k] == id) && forall k :: n <= k < |ids| ==> ids[k] != id
    ensures at < |ids| && ids[at] == id && LastWithId(ids, at)
  {
    if ids[n - 1] == id {
      at := n - 1;
    } else {
      at := LastIndex(ids, id, n - 1);
    }
  }

  lemma {:induction false} NothingShared<T>(ids: seq<int>, items: seq<T>, n: nat)
    requires n <= |ids| && items == []
    ensures ShareTotal(ids, [], items, n) == 0
  {
    if n > 0 {
      NothingShared(ids, items, n - 1);
    }
  }

  lemma {:induction false} OneMoreShared<T>(ids: seq<int>, owners: seq<Option<int>>, items: seq<T>, n: nat, at: nat)
    requires 0 < |owners| == |items| && n <= |ids| && at < |ids|
    requires owners[|owners| - 1] == Some(ids[at]) && LastWithId(ids, at)
    ensures var m := |owners| - 1;
            ShareTotal(ids, owners, items, n) == ShareTotal(ids, owners[..m], items[..m], n) + if at < n then 1 else 0
  {
    if n > 0 {
      OneMoreShared(ids, owners, items, n - 1, at);
    }
  }

  /** Conservation for any ids, repeated ones included: every fetched item goes to exactly one node's list. */
  lemma {:induction false} SharesConserved<T>(owners: seq<Option<int>>, items: seq<T>, ids: seq<int>)
    requires |owners| == |items|
    requires forall k :: 0 <= k < |owners| ==> owners[k].Some? && owners[k].value in ids
    ensures ShareTotal(ids, owners, items, |ids|) == |items|
  {
    if owners == [] {
      NothingShared(ids, items, |ids|);
    } else {
      var m := |owners| - 1;
      SharesConserved(owners[..m], items[..m], ids);
      var at := LastIndex(ids, owners[m].value, |ids|);
      OneMoreShared(ids, owners, items, |ids|, at);
    }
  }

  // ---------------------------------------------------------------- many-to-many edges

  /** One row of the joined neighbour query: the account id column, then the group. */
  type JoinRow = (int, GroupRow)

  predicate Seen(rows: seq<JoinRow>, groupId: int) {
    exists k :: 0 <= k < |rows| && rows[k].1.id == groupId
  }

  predicate Links(rows: seq<JoinRow>, accountId: int, groupId: int) {
    exists k :: 0 <= k < |rows| && rows[k].0 == accountId && rows[k].1.id == groupId
  }

  /** The neighbours: the group of each row whose group id was not seen before. */
  function FirstSeen(rows: seq<JoinRow>): seq<GroupRow> {
    if rows == [] then [] else
      var n := |rows| - 1;
      FirstSeen(rows[..n]) + if Seen(rows[..n], rows[n].1.id) then [] else [rows[n].1]
  }

  /** The neighbours linked to one account, in neighbour order. */
  function LinkedTo(neighbors: seq<GroupRow>, rows: seq<JoinRow>, accountId: int): seq<GroupRow> {
    if neighbors == [] then [] else
      var n := |neighbors| - 1;
      LinkedTo(neighbors[..n], rows, accountId)
      + if Links(rows, accountId, neighbors[n].id) then [neighbors[n]] else []
  }

  lemma {:induction false} FirstSeenIds(rows: seq<JoinRow>)
    ensures DistinctGroups(FirstSeen(rows))
    ensures forall id :: Seen(rows, id) <==> exists k :: 0 <= k < |FirstSeen(rows)| && FirstSeen(rows)[k].id == id
  {
    if rows != [] {
      var n := |rows| - 1;
      var front, before, after := rows[..n], FirstSeen(rows[..n]), FirstSeen(rows);
      FirstSeenIds(front);
      forall id ensures Seen(rows, id) <==> exists k :: 0 <= k < |after| && after[k].id == id {
        if Seen(front, id) {
          var k :| 0 <= k < |front| && front[k].1.id == id;
          assert rows[k].1.id == id;
          var m :| 0 <= m < |before| && before[m].id == id;
          assert after[m].id == id;
        } else if rows[n].1.id == id {
          assert after[|before|].id == id;
        } else {
          assert forall k :: 0 <= k < |after| ==> after[k] in before || after[k] == rows[n].1;
        }
      }
    }
  }

  /** An account's list is a subsequence of the neighbours, given by increasing positions. */
  lemma {:induction false} LinkedOrder(neighbors: seq<GroupRow>, rows: seq<JoinRow>, accountId: int, i: nat, j: nat)
    returns (a: nat, b: nat)
    requires i < j < |LinkedTo(neighbors, rows, accountId)|
    ensures a < b < |neighbors|
    ensures neighbors[a] == LinkedTo(neighbors, rows, accountId)[i]
            && neighbors[b] == LinkedTo(neighbors, rows, accountId)[j]
  {
    var n := |neighbors| - 1;
    var front := LinkedTo(neighbors[..n], rows, accountId);
    if j < |front| {
      a, b := LinkedOrder(neighbors[..n], rows, accountId, i, j);
    } else {
      a := LinkedPosition(neighbors[..n], rows, accountId, i);
      b := n;
    }
  }

  lemma {:induction false} LinkedPosition(neighbors: seq<GroupRow>, rows: seq<JoinRow>, accountId: int, i: nat)
    returns (a: nat)
    requires i < |LinkedTo(neighbors, rows, accountId)|
    ensures a < |neighbors| && neighbors[a] == LinkedTo(neighbors, rows, accountId)[i]
    ensures Links(rows, accountId, neighbors[a].id)
  {
    var n := |neighbors| - 1;
    if i < |LinkedTo(neighbors[..n], rows, accountId)| {
      a := LinkedPosition(neighbors[..n], rows, accountId, i);
    } else {
      a := n;
    }
  }

  lemma {:induction false} LinkedMember(neighbors: seq<GroupRow>, rows: seq<JoinRow>, accountId: int, g: GroupRow)
    ensures g in LinkedTo(neighbors, rows, accountId) <==> g in neighbors && Links(rows, accountId, g.id)
  {
    if neighbors != [] {
      var n := |neighbors| - 1;
      LinkedMember(neighbors[..n], rows, accountId, g);
      assert neighbors == neighbors[..n] + [neighbors[n]];
    }
  }

  /**
   * Many-to-many loading over any row stream, repeats included: an account's list has each of its linked group ids
   * exactly once and nothing else.
   */
  lemma LinkedExactly(rows: seq<JoinRow>, accountId: int)
    ensures var groups := LinkedTo(FirstSeen(rows), rows, accountId);
            && DistinctGroups(groups)
            && forall id :: Links(rows, accountId, id) <==> exists k :: 0 <= k < |groups| && groups[k].id == id
  {
    var neighbors := FirstSeen(rows);
    var groups := LinkedTo(neighbors, rows, accountId);
    FirstSeenIds(rows);
    forall i, j | 0 <= i < j < |groups| ensures groups[i].id != groups[j].id {
      var a, b := LinkedOrder(neighbors, rows, accountId, i, j);
    }
    forall id ensures Links(rows, accountId, id) <==> exists k :: 0 <= k < |groups| && groups[k].id == id {
      if Links(rows, accountId, id) {
        assert Seen(rows, id);
        var k :| 0 <= k < |neighbors| && neighbors[k].id == id;
        LinkedMember(neighbors, rows, accountId, neighbors[k]);
      }
      if k :| 0 <= k < |groups| && groups[k].id == id {
        var a := LinkedPosition(neighbors, rows, accountId, k);
      }
    }
  }

  /** A key that orders rows by their group alone, as an ORDER BY over group columns does. */
  predicate SortedBy(rows: seq<GroupRow>, key: GroupRow -> int) {
    forall i, j :: 0 <= i < j < |rows| ==> key(rows[i]) <= key(rows[j])
  }

  predicate StreamSortedBy(rows: seq<JoinRow>, key: GroupRow -> int) {
    forall i, j :: 0 <= i < j < |rows| ==> key(rows[i].1) <= key(rows[j].1)
  }

  lemma {:induction false} FirstSeenOrigin(rows: seq<JoinRow>, i: nat) returns (a: nat)
    requires i < |FirstSeen(rows)|
    ensures a < |rows| && rows[a].1 == FirstSeen(rows)[i]
  {
    var n := |rows| - 1;
    if i < |FirstSeen(rows[..n])| {
      a := FirstSeenOrigin(rows[..n], i);
    } else {
      a := n;
    }
  }

  lemma {:induction false} FirstSeenSorted(rows: seq<JoinRow>, key: GroupRow -> int)
    requires StreamSortedBy(rows, key)
    ensures SortedBy(FirstSeen(rows), key)
  {
    if rows != [] {
      var n := |rows| - 1;
      var before := FirstSeen(rows[..n]);
      FirstSeenSorted(rows[..n], key);
      forall i | 0 <= i < |before| ensures key(before[i]) <= key(rows[n].1) {
        var a := FirstSeenOrigin(rows[..n], i);
        assert rows[a].1 == before[i];
      }
    }
  }

  /** Rows sorted by a group-only key give every account a list sorted by that key. */
  lemma LinkedSorted(rows: seq<JoinRow>, accountId: int, key: GroupRow -> int)
    requires StreamSortedBy(rows, key)
    ensures SortedBy(LinkedTo(FirstSeen(rows), rows, accountId), key)
  {
    FirstSeenSorted(rows, key);
    var groups := LinkedTo(FirstSeen(rows), rows, accountId);
    forall i, j | 0 <= i < j < |groups| ensures key(groups[i]) <= key(groups[j]) {
      var a, b := LinkedOrder(FirstSeen(rows), rows, accountId, i, j);
    }
  }

  lemma FirstSeenNext(rows: seq<JoinRow>, row: JoinRow)
    ensures FirstSeen(rows + [row]) == FirstSeen(rows) + if Seen(rows, row.1.id) then [] else [row.1]
  {
    assert (rows + [row])[..|rows|] == rows;
  }

  lemma LinkedToNext(neighbors: seq<GroupRow>, rows: seq<JoinRow>, accountId: int, g: GroupRow)
    ensures LinkedTo(neighbors + [g], rows, accountId)
            == LinkedTo(neighbors, rows, accountId) + if Links(rows, accountId, g.id) then [g] else []
  {
    assert (neighbors + [g])[..|neighbors|] == neighbors;
  }

  // ---------------------------------------------------------------- an account's own order

  function OwnRows(rows: seq<JoinRow>, accountId: int): seq<JoinRow> {
    if rows == [] then [] else
      var n := |rows| - 1;
      OwnRows(rows[..n], accountId) + if rows[n].0 == accountId then [rows[n]] else []
  }

  function GroupIds(groups: seq<GroupRow>): seq<int> {
    seq(|groups|, k requires 0 <= k < |groups| => groups[k].id)
  }

  /** The row where the stream first shows a group. */
  function FirstShow(rows: seq<JoinRow>, id: int): (at: nat)
    requires Seen(rows, id)
    ensures at < |rows| && rows[at].1.id == id && forall k :: 0 <= k < at ==> rows[k].1.id != id
  {
    if rows[0].1.id == id then 0 else
      assert Seen(rows[1..], id) by {
        var k :| 0 <= k < |rows| && rows[k].1.id == id;
        assert rows[1..][k - 1] == rows[k];
      }
      assert forall k :: 1 <= k < |rows| ==> rows[k] == rows[1..][k - 1];
      1 + FirstShow(rows[1..], id)
  }

  /** Row i is the account's first row of its group. */
  predicate OwnFirst(rows: seq<JoinRow>, accountId: int, i: nat)
    requires i < |rows|
  {
    rows[i].0 == accountId && forall k :: 0 <= k < i && rows[k].0 == accountId ==> rows[k].1.id != rows[i].1.id
  }

  /** One of the rows up to k shows the group. */
  predicate ShownBy(rows: seq<JoinRow>, k: nat, id: int)
    requires k < |rows|
  {
    exists m :: 0 <= m <= k && rows[m].1.id == id
  }

  /**
   * Of two groups of the account, the one its own rows show first is also shown first by the whole stream: no other
   * account's row shows the second before any row showed the first.
   */
  predicate KeepsOwnOrder(rows: seq<JoinRow>, accountId: int) {
    forall i, j, k | 0 <= i < j < |rows| && 0 <= k < |rows| ::
      OwnFirst(rows, accountId, i) && OwnFirst(rows, accountId, j) && rows[k].1.id == rows[j].1.id ==>
        ShownBy(rows, k, rows[i].1.id)
  }

  /** Group ids in the order of their first rows. */
  predicate InShowOrder(rows: seq<JoinRow>, ids: seq<int>) {
    && (forall k :: 0 <= k < |ids| ==> Seen(rows, ids[k]))
    && forall i, j :: 0 <= i < j < |ids| ==> FirstShow(rows, ids[i]) < FirstShow(rows, ids[j])
  }

  lemma ShowStays(rows: seq<JoinRow>, n: nat, id: int)
    requires n <= |rows| && Seen(rows[..n], id)
    ensures Seen(rows, id) && FirstShow(rows, id) == FirstShow(rows[..n], id)
  {
    var at := FirstShow(rows[..n], id);
    assert rows[at] == rows[..n][at];
    assert forall k :: 0 <= k < n ==> rows[..n][k] == rows[k];
  }

  lemma ShowsNew(rows: seq<JoinRow>, n: nat)
    requires n < |rows| && !Seen(rows[..n], rows[n].1.id)
    ensures Seen(rows, rows[n].1.id) && FirstShow(rows, rows[n].1.id) == n
  {
    assert forall k :: 0 <= k < n ==> rows[..n][k] == rows[k];
  }

  lemma {:induction false} FirstSeenInOrder(rows: seq<JoinRow>)
    ensures InShowOrder(rows, GroupIds(FirstSeen(rows)))
  {
    if rows != [] {
      var n := |rows| - 1;
      var before, ids := GroupIds(FirstSeen(rows[..n])), GroupIds(FirstSeen(rows));
      FirstSeenInOrder(rows[..n]);
      forall k | 0 <= k < |before|
        ensures Seen(rows, before[k]) && FirstShow(rows, before[k]) == FirstShow(rows[..n], before[k])
      {
        ShowStays(rows, n, before[k]);
      }
      assert forall k :: 0 <= k < |before| ==> ids[k] == before[k];
      if !Seen(rows[..n], rows[n].1.id) {
        assert ids == before + [rows[n].1.id];
        ShowsNew(rows, n);
      } else {
        assert ids == before;
      }
    }
  }

  /** An account's list is in the order in which the whole stream first shows its groups. */
  lemma LinkedInOrder(rows: seq<JoinRow>, accountId: int)
    ensures InShowOrder(rows, GroupIds(LinkedTo(FirstSeen(rows), rows, accountId)))
  {
    var neighbors := FirstSeen(rows);
    var ids := GroupIds(LinkedTo(neighbors, rows, accountId));
    FirstSeenInOrder(rows);
    forall k | 0 <= k < |ids| ensures Seen(rows, ids[k]) {
      var a := LinkedPosition(neighbors, rows, accountId, k);
      assert GroupIds(neighbors)[a] == ids[k];
    }
    forall i, j | 0 <= i < j < |ids| ensures FirstShow(rows, ids[i]) < FirstShow(rows, ids[j]) {
      var a, b := LinkedOrder(neighbors, rows, accountId, i, j);
      assert GroupIds(neighbors)[a] == ids[i] && GroupIds(neighbors)[b] == ids[j];
    }
  }

  lemma Inhabited(s: seq<int>)
    ensures s == [] || s[0] in s
  {
  }

  /** Two lists of the same ids, both in the order of the stream, are equal. */
  lemma {:induction false} OneShowOrder(rows: seq<JoinRow>, a: seq<int>, b: seq<int>)
    requires InShowOrder(rows, a) && InShowOrder(rows, b) && forall id :: id in a <==> id in b
    ensures a == b
    decreases |a|
  {
    if a == [] || b == [] {
      Inhabited(a);
      Inhabited(b);
    } else {
      SameHead(rows, a, b);
      SameHead(rows, b, a);
      var a', b' := a[1..], b[1..];
      assert a == [a[0]] + a' && b == [b[0]] + b';
      forall id ensures id in a' <==> id in b' {
        TailMember(rows, a, id);
        TailMember(rows, b, id);
      }
      OneShowOrder(rows, a', b');
    }
  }

  lemma TailMember(rows: seq<JoinRow>, a: seq<int>, id: int)
    requires InShowOrder(rows, a) && a != []
    ensures id in a[1..] <==> id in a && id != a[0]
  {
    assert a == [a[0]] + a[1..];
    if id in a[1..] {
      var k :| 0 <= k < |a[1..]| && a[1..][k] == id;
      assert FirstShow(rows, a[0]) < FirstShow(rows, a[k + 1]);
    }
  }

  lemma SameHead(rows: seq<JoinRow>, a: seq<int>, b: seq<int>)
    requires InShowOrder(rows, a) && InShowOrder(rows, b) && (forall id :: id in a <==> id in b) && a != [] && b != []
    ensures a[0] == b[0]
  {
    assert a[0] in b && b[0] in a;
    var i :| 0 <= i < |b| && b[i] == a[0];
    var j :| 0 <= j < |a| && a[j] == b[0];
    assert FirstShow(rows, b[0]) <= FirstShow(rows, b[i]);
    assert FirstShow(rows, a[0]) <= FirstShow(rows, a[j]);
    assert rows[FirstShow(rows, a[0])].1.id == rows[FirstShow(rows, b[0])].1.id;
  }

  lemma {:induction false} OwnSeen(rows: seq<JoinRow>, accountId: int, id: int)
    ensures Seen(OwnRows(rows, accountId), id) <==> Links(rows, accountId, id)
  {
    if rows != [] {
      var n := |rows| - 1;
      var before, own := OwnRows(rows[..n], accountId), OwnRows(rows, accountId);
      OwnSeen(rows[..n], accountId, id);
      LinksNext(rows, accountId, id);
      SeenLast(before, rows[n], id);
      assert before + [] == before;
    }
  }

  lemma SeenLast(rows: seq<JoinRow>, row: JoinRow, id: int)
    ensures Seen(rows + [row], id) <==> Seen(rows, id) || row.1.id == id
  {
    if Seen(rows, id) {
      var k :| 0 <= k < |rows| && rows[k].1.id == id;
      assert (rows + [row])[k] == rows[k];
    }
    assert (rows + [row])[|rows|] == row;
  }

  lemma LinksNext(rows: seq<JoinRow>, accountId: int, id: int)
    requires rows != []
    ensures var n := |rows| - 1;
            Links(rows, accountId, id)
            <==> Links(rows[..n], accountId, id) || (rows[n].0 == accountId && rows[n].1.id == id)
  {
    var n := |rows| - 1;
    if Links(rows, accountId, id) {
      var k :| 0 <= k < |rows| && rows[k].0 == accountId && rows[k].1.id == id;
      if k < n {
        assert rows[..n][k] == rows[k];
      }
    }
    if Links(rows[..n], accountId, id) {
      var k :| 0 <= k < n && rows[..n][k].0 == accountId && rows[..n][k].1.id == id;
      assert rows[k] == rows[..n][k];
    }
  }

  /** The account's own order of groups: increasing positions of its first rows. */
  lemma {:induction false} OwnPositions(rows: seq<JoinRow>, accountId: int, i: nat, j: nat) returns (a: nat, b: nat)
    requires i < j < |FirstSeen(OwnRows(rows, accountId))|
    ensures a < b < |rows| && OwnFirst(rows, accountId, a) && OwnFirst(rows, accountId, b)
    ensures rows[a].1 == FirstSeen(OwnRows(rows, accountId))[i] && rows[b].1 == FirstSeen(OwnRows(rows, accountId))[j]
  {
    var n := |rows| - 1;
    var before := FirstSeen(OwnRows(rows[..n], accountId));
    OwnNext(rows, accountId);
    if j < |before| {
      a, b := OwnPositions(rows[..n], accountId, i, j);
      FirstStays(rows, accountId, a);
      FirstStays(rows, accountId, b);
    } else {
      a := OwnPosition(rows[..n], accountId, i);
      b := n;
      FirstStays(rows, accountId, a);
    }
  }

  lemma FirstStays(rows: seq<JoinRow>, accountId: int, i: nat)
    requires rows != [] && i < |rows| - 1
    ensures OwnFirst(rows[..|rows| - 1], accountId, i) <==> OwnFirst(rows, accountId, i)
  {
    assert forall k :: 0 <= k <= i ==> rows[..|rows| - 1][k] == rows[k];
  }

  lemma OwnNext(rows: seq<JoinRow>, accountId: int)
    requires rows != []
    ensures var n := |rows| - 1;
            FirstSeen(OwnRows(rows, accountId))
            == FirstSeen(OwnRows(rows[..n], accountId)) + if OwnFirst(rows, accountId, n) then [rows[n].1] else []
  {
    var n := |rows| - 1;
    var before := OwnRows(rows[..n], accountId);
    if rows[n].0 == accountId {
      FirstSeenNext(before, rows[n]);
      OwnSeen(rows[..n], accountId, rows[n].1.id);
      assert forall k :: 0 <= k < n ==> rows[..n][k] == rows[k];
      assert Links(rows[..n], accountId, rows[n].1.id) <==> !OwnFirst(rows, accountId, n) by {
        if !OwnFirst(rows, accountId, n) {
          var k :| 0 <= k < n && rows[k].0 == accountId && rows[k].1.id == rows[n].1.id;
          assert rows[..n][k] == rows[k];
        }
      }
    } else {
      assert before + [] == before;
      assert FirstSeen(before) + [] == FirstSeen(before);
    }
  }

  lemma {:induction false} OwnPosition(rows: seq<JoinRow>, accountId: int, i: nat) returns (a: nat)
    requires i < |FirstSeen(OwnRows(rows, accountId))|
    ensures a < |rows| && OwnFirst(rows, accountId, a) && rows[a].1 == FirstSeen(OwnRows(rows, accountId))[i]
  {
    var n := |rows| - 1;
    OwnNext(rows, accountId);
    if i < |FirstSeen(OwnRows(rows[..n], accountId))| {
      a := OwnPosition(rows[..n], accountId, i);
      FirstStays(rows, accountId, a);
    } else {
      a := n;
    }
  }

  /** Every first row of the account has its place in the account's own order. */
  lemma {:induction false} PlaceOf(rows: seq<JoinRow>, accountId: int, a: nat) returns (i: nat)
    requires a < |rows| && OwnFirst(rows, accountId, a)
    ensures i < |FirstSeen(OwnRows(rows, accountId))| && FirstSeen(OwnRows(rows, accountId))[i] == rows[a].1
    ensures a == |rows| - 1 ==> i == |FirstSeen(OwnRows(rows, accountId))| - 1
    ensures a < |rows| - 1 ==> i < |FirstSeen(OwnRows(rows[..|rows| - 1], accountId))|
  {
    var n := |rows| - 1;
    OwnNext(rows, accountId);
    if a < n {
      FirstStays(rows, accountId, a);
      i := PlaceOf(rows[..n], accountId, a);
    } else {
      i := |FirstSeen(OwnRows(rows, accountId))| - 1;
    }
  }

  lemma {:induction false} PlacesInOrder(rows: seq<JoinRow>, accountId: int, a: nat, b: nat) returns (i: nat, j: nat)
    requires a < b < |rows| && OwnFirst(rows, accountId, a) && OwnFirst(rows, accountId, b)
    ensures i < j < |FirstSeen(OwnRows(rows, accountId))|
    ensures FirstSeen(OwnRows(rows, accountId))[i] == rows[a].1 && FirstSeen(OwnRows(rows, accountId))[j] == rows[b].1
  {
    var n := |rows| - 1;
    OwnNext(rows, accountId);
    FirstStays(rows, accountId, a);
    if b < n {
      FirstStays(rows, accountId, b);
      i, j := PlacesInOrder(rows[..n], accountId, a, b);
    } else {
      i := PlaceOf(rows, accountId, a);
      j := PlaceOf(rows, accountId, b);
    }
  }

  lemma SameGroups(rows: seq<JoinRow>, accountId: int, id: int)
    ensures id in GroupIds(LinkedTo(FirstSeen(rows), rows, accountId))
            <==> id in GroupIds(FirstSeen(OwnRows(rows, accountId)))
  {
    var list, own := LinkedTo(FirstSeen(rows), rows, accountId), FirstSeen(OwnRows(rows, accountId));
    LinkedExactly(rows, accountId);
    FirstSeenIds(OwnRows(rows, accountId));
    OwnSeen(rows, accountId, id);
    assert forall k :: 0 <= k < |list| ==> GroupIds(list)[k] == list[k].id;
    assert forall k :: 0 <= k < |own| ==> GroupIds(own)[k] == own[k].id;
    assert id in GroupIds(list) <==> exists k :: 0 <= k < |list| && list[k].id == id;
    assert id in GroupIds(own) <==> exists k :: 0 <= k < |own| && own[k].id == id;
  }

  lemma OwnInOrder(rows: seq<JoinRow>, accountId: int)
    requires KeepsOwnOrder(rows, accountId)
    ensures InShowOrder(rows, GroupIds(FirstSeen(OwnRows(rows, accountId))))
  {
    var own := GroupIds(FirstSeen(OwnRows(rows, accountId)));
    forall k | 0 <= k < |own| ensures Seen(rows, own[k]) {
      var a := OwnPosition(rows, accountId, k);
      assert rows[a].1.id == own[k];
    }
    forall i, j | 0 <= i < j < |own| ensures FirstShow(rows, own[i]) < FirstShow(rows, own[j]) {
      var a, b := OwnPositions(rows, accountId, i, j);
      assert rows[a].1.id == own[i] && rows[b].1.id == own[j];
      KeptPair(rows, accountId, a, b);
    }
  }

  lemma KeptPair(rows: seq<JoinRow>, accountId: int, a: nat, b: nat)
    requires KeepsOwnOrder(rows, accountId) && a < b < |rows|
    requires OwnFirst(rows, accountId, a) && OwnFirst(rows, accountId, b)
    ensures Seen(rows, rows[a].1.id) && Seen(rows, rows[b].1.id)
    ensures FirstShow(rows, rows[a].1.id) < FirstShow(rows, rows[b].1.id)
  {
    assert rows[a].1.id != rows[b].1.id;
    KeptAt(rows, accountId, a, b, FirstShow(rows, rows[b].1.id));
    ShownBefore(rows, rows[a].1.id, rows[b].1.id);
  }

  lemma KeptAt(rows: seq<JoinRow>, accountId: int, a: nat, b: nat, k: nat)
    requires KeepsOwnOrder(rows, accountId) && a < b < |rows|
    requires OwnFirst(rows, accountId, a) && OwnFirst(rows, accountId, b)
    requires k < |rows| && rows[k].1.id == rows[b].1.id
    ensures ShownBy(rows, k, rows[a].1.id)
  {
  }

  lemma ShownBefore(rows: seq<JoinRow>, early: int, late: int)
    requires early != late && Seen(rows, early) && Seen(rows, late) && ShownBy(rows, FirstShow(rows, late), early)
    ensures FirstShow(rows, early) < FirstShow(rows, late)
  {
    var m :| 0 <= m <= FirstShow(rows, late) && rows[m].1.id == early;
  }

  lemma OwnOrderKept(rows: seq<JoinRow>, accountId: int)
    requires KeepsOwnOrder(rows, accountId)
    ensures GroupIds(LinkedTo(FirstSeen(rows), rows, accountId)) == GroupIds(FirstSeen(OwnRows(rows, accountId)))
  {
    var ids, own := GroupIds(LinkedTo(FirstSeen(rows), rows, accountId)), GroupIds(FirstSeen(OwnRows(rows, accountId)));
    forall id ensures id in ids <==> id in own {
      SameGroups(rows, accountId, id);
    }
    LinkedInOrder(rows, accountId);
    OwnInOrder(rows, accountId);
    OneShowOrder(rows, ids, own);
  }

  lemma KeptMeansOrder(rows: seq<JoinRow>, accountId: int)
    requires GroupIds(LinkedTo(FirstSeen(rows), rows, accountId)) == GroupIds(FirstSeen(OwnRows(rows, accountId)))
    ensures KeepsOwnOrder(rows, accountId)
  {
    var own := GroupIds(FirstSeen(OwnRows(rows, accountId)));
    LinkedInOrder(rows, accountId);
    forall i, j, k | 0 <= i < j < |rows| && 0 <= k < |rows|
      && OwnFirst(rows, accountId, i) && OwnFirst(rows, accountId, j) && rows[k].1.id == rows[j].1.id
      ensures ShownBy(rows, k, rows[i].1.id)
    {
      var a, b := PlacesInOrder(rows, accountId, i, j);
      assert own[a] == rows[i].1.id && own[b] == rows[j].1.id;
      assert FirstShow(rows, own[a]) < FirstShow(rows, own[b]) <= k;
    }
  }

  /**
   * An account's list follows the order of the account's own rows exactly when the stream keeps that order: no row of
   * another account shows a later group of this account before any row showed an earlier one.
   */
  lemma OwnOrderIff(rows: seq<JoinRow>, accountId: int)
    ensures GroupIds(LinkedTo(FirstSeen(rows), rows, accountId)) == GroupIds(FirstSeen(OwnRows(rows, accountId)))
            <==> KeepsOwnOrder(rows, accountId)
  {
    if KeepsOwnOrder(rows, accountId) {
      OwnOrderKept(rows, accountId);
    }
    if GroupIds(LinkedTo(FirstSeen(rows), rows, accountId)) == GroupIds(FirstSeen(OwnRows(rows, accountId))) {
      KeptMeansOrder(rows, accountId);
    }
  }

  /** The sort key tells groups apart: no ties between different groups. */
  predicate KeyTellsGroups(rows: seq<JoinRow>, key: GroupRow -> int) {
    forall i, j :: 0 <= i < |rows| && 0 <= j < |rows| ==>
      (key(rows[i].1) == key(rows[j].1) <==> rows[i].1.id == rows[j].1.id)
  }

  /** A stream sorted by such a key gives every account its own order, which is the sorted one. */
  lemma SortedKeepsOwnOrder(rows: seq<JoinRow>, accountId: int, key: GroupRow -> int)
    requires StreamSortedBy(rows, key) && KeyTellsGroups(rows, key)
    ensures GroupIds(LinkedTo(FirstSeen(rows), rows, accountId)) == GroupIds(FirstSeen(OwnRows(rows, accountId)))
  {
    forall i, j, k | 0 <= i < j < |rows| && 0 <= k < |rows|
      && OwnFirst(rows, accountId, i) && OwnFirst(rows, accountId, j) && rows[k].1.id == rows[j].1.id
      ensures ShownBy(rows, k, rows[i].1.id)
    {
      assert rows[i].1.id != rows[j].1.id;
      assert key(rows[k].1) == key(rows[j].1) && key(rows[i].1) < key(rows[j].1);
      var m := if k < i then k else i;
      assert key(rows[m].1) <= key(rows[i].1);
      assert i <= k;
    }
    OwnOrderKept(rows, accountId);
  }

  /** In the stream, one group id always comes with the same group row. */
  predicate OneRowPerGroup(rows: seq<JoinRow>) {
    forall a, b :: 0 <= a < |rows| && 0 <= b < |rows| && rows[a].1.id == rows[b].1.id ==> rows[a].1 == rows[b].1
  }

  /** The same list of rows, when a group id always comes with the same row. */
  lemma OwnOrderRows(rows: seq<JoinRow>, accountId: int)
    requires OneRowPerGroup(rows)
    ensures LinkedTo(FirstSeen(rows), rows, accountId) == FirstSeen(OwnRows(rows, accountId))
            <==> KeepsOwnOrder(rows, accountId)
  {
    var list, own := LinkedTo(FirstSeen(rows), rows, accountId), FirstSeen(OwnRows(rows, accountId));
    OwnOrderIff(rows, accountId);
    if GroupIds(list) == GroupIds(own) {
      forall k | 0 <= k < |own| ensures |list| == |own| && list[k] == own[k] {
        assert |list| == |GroupIds(list)| == |GroupIds(own)| == |own|;
        var a := OwnPosition(rows, accountId, k);
        var b := LinkedPosition(FirstSeen(rows), rows, accountId, k);
        var c := FirstSeenOrigin(rows, b);
        assert rows[a].1.id == GroupIds(own)[k] == GroupIds(list)[k] == rows[c].1.id;
      }
    }
  }

  /** Three rows: the first account links g, the second h and then g. */
  function Crossing(first: int, second: int, g: GroupRow, h: GroupRow): seq<JoinRow> {
    [(first, g), (second, h), (second, g)]
  }

  lemma CrossingList(first: int, second: int, g: GroupRow, h: GroupRow)
    requires first != second && g.id != h.id
    ensures LinkedTo(FirstSeen(Crossing(first, second, g, h)), Crossing(first, second, g, h), second) == [g, h]
  {
    var r1: seq<JoinRow> := [(first, g)];
    var r2: seq<JoinRow> := [(first, g), (second, h)];
    var rows := Crossing(first, second, g, h);
    FirstSeenNext([], (first, g));
    FirstSeenNext(r1, (second, h));
    FirstSeenNext(r2, (second, g));
    assert [] + [(first, g)] == r1 && r1 + [(second, h)] == r2 && r2 + [(second, g)] == rows;
    assert r2[0].1.id == g.id;
    assert FirstSeen(rows) == [g] + [h];
    LinkedToNext([], rows, second, g);
    LinkedToNext([g], rows, second, h);
    assert rows[2] == (second, g) && rows[1] == (second, h);
    assert [] + [g] == [g];
  }

  lemma OwnRowsNext(rows: seq<JoinRow>, row: JoinRow, accountId: int)
    ensures OwnRows(rows + [row], accountId) == OwnRows(rows, accountId) + if row.0 == accountId then [row] else []
  {
    assert (rows + [row])[..|rows|] == rows;
  }

  lemma CrossingOwn(first: int, second: int, g: GroupRow, h: GroupRow)
    requires first != second && g.id != h.id
    ensures FirstSeen(OwnRows(Crossing(first, second, g, h), second)) == [h, g]
  {
    var r1: seq<JoinRow> := [(first, g)];
    var r2: seq<JoinRow> := [(first, g), (second, h)];
    OwnRowsNext([], (first, g), second);
    OwnRowsNext(r1, (second, h), second);
    OwnRowsNext(r2, (second, g), second);
    assert [] + [(first, g)] == r1 && r1 + [(second, h)] == r2 && r2 + [(second, g)] == Crossing(first, second, g, h);
    var own: seq<JoinRow> := [(second, h)];
    assert OwnRows(Crossing(first, second, g, h), second) == own + [(second, g)];
    FirstSeenNext([], (second, h));
    FirstSeenNext(own, (second, g));
    assert [] + [(second, h)] == own && [] + [h] == [h];
  }

  /**
   * A key with ties does not keep it. Sorted by a key that is the same for g and h, the second account's rows name h
   * before g, and its list holds g before h, because a row of the first account shows g earlier.
   */
  lemma OwnOrderIsNotKept(first: int, second: int, g: GroupRow, h: GroupRow, key: GroupRow -> int)
    requires first != second && g.id != h.id && key(g) == key(h)
    ensures var rows := Crossing(first, second, g, h);
            && StreamSortedBy(rows, key) && !KeepsOwnOrder(rows, second)
            && LinkedTo(FirstSeen(rows), rows, second) == [g, h] && FirstSeen(OwnRows(rows, second)) == [h, g]
  {
    CrossingList(first, second, g, h);
    CrossingOwn(first, second, g, h);
    assert GroupIds([g, h])[0] == g.id && GroupIds([h, g])[0] == h.id;
    OwnOrderIff(Crossing(first, second, g, h), second);
  }
}
