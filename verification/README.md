# Verification of the account data layer and the audit gate

Dafny models, with proofs, of the parts of this repository that hold algorithms with state:

- **Eager loading** of accounts and their edges (`BatchJoin`, `EagerTree`, `EagerLaws`, `EagerLoad`, over the rows and
  columns of `Schema` and `Tables`). One query per edge fetches the neighbours of all nodes, and maps from id to node deal
  them out. `EagerTree` has whole query trees of any depth as values, and proves the batched loader equal to looking each
  edge up for each row alone; `EagerLaws` has what follows for second runs, projection, and edges that say the same.
  `EagerLoad` has the loaders on the heap as the program runs them, proved against the same lookups.
- **Bulk create** (`BulkCreate`, `AccountCreate`). Every builder contributes a closure that invokes the next one; the
  last one runs the batch; hooks wrap each. `BulkCreate` gives the chain a recursive meaning, with a class over shared
  arrays that refines it, and proves when the batch runs, with what, and in which order. `AccountCreate` adds the
  defaults and the check of one builder.
- **The row codec** (`AccountFields`): what `createSpec` writes is what `scanValues` and `assignValues` read back.
- **Query builders** (`QueryBuilder`, `BuilderLaws`): Go slices with shared backing arrays, nested builders, and `Clone`;
  and what any sequence of calls leaves in each part of a builder.
- **The audit gate** (`ExceptionFile`, `AuditReport`, `AuditGate`): the exception-list parser with its printer, the
  findings of a report, and the verdict.

`dafny verify dfyconfig.toml` checks everything.

Behaviour worth knowing, each with a lemma:

- An account's eagerly loaded groups follow the order of the whole joined stream. They follow the account's own rows
  exactly when no row shows a later group of the account before any row showed an earlier one (`BatchJoin.OwnOrderIff`).
  Sorting by a key that tells groups apart is enough (`BatchJoin.SortedKeepsOwnOrder`); a key with ties is not
  (`BatchJoin.OwnOrderIsNotKept`).
- A query cannot be run again if a groups edge anywhere in its tree read a joined row in the first run: the second run
  ends in a failed type assertion. Otherwise it loads the same again (`EagerLaws.SecondRun`; a selector is taken to select
  again what it had selected). The conditions that the first run left on the parent, children and join-row queries do no
  harm.
- A limit or offset on an edge query cuts the batch of all nodes, not the list of each: every node gets what its own
  lookup gives exactly when the page drops no row (`EagerLaws.PagedParents`, `PagedChildren` and `PagedGroups`).
- A hook that swallows an error, succeeds without calling next, fails after next succeeded, or calls next again after a
  success breaks the all-or-nothing promise of a bulk save; no other hook does, and retrying after a failure is safe
  (`BulkCreate.HonestIsExact`, `BulkCreate.RetrierIsHonest`).
- A clone loses modifiers, at every level (`QueryBuilder.CloneIsExactIff`).
- A numeric `source` in a report, which the comment at line 128 of the audit tool means to accept, aborts the tool at
  line 109 unless the first truthy one of the item's title, url and advisory exists and is a text
  (`AuditReport.NumericSource`).
- A pass of the gate depends on the order of the report exactly when some serious finding is contradicted on severity by
  the exception of its key (`AuditGate.OrderIrrelevantIff`).

The database is a snapshot of rows with unique primary keys; a query answers with the matching rows in any order, or with
a page of them. A batch insert is atomic. The JSON library's round trip, the library's deep copy of a query context, and
Python's `lower`, `fromisoformat` and `str` of a non-string are assumptions or parameters, and so are the clock and the
defaults' values.

## Model

| member | source | states |
|---|---|---|
| `EagerTree.QueryIsLookup` | backend/ent/account_query.go:550-625 | The first run of a whole query tree at any depth, each edge loaded by one batched query for all nodes, never fails and returns for every row what looking every edge up separately returns, whatever fields are selected and in whatever order each query answers; children and join rows are compared as multisets at every depth. Foreign keys may dangle; only primary keys are assumed |
| `EagerTree.QueryLoads` | backend/ent/account_query.go:550-625 | The same of a query tree of which some groups edges were run before: it fails exactly when one of those reads a joined row, at any depth |
| `EagerTree.LoadIsLookup` | backend/ent/account_query.go:584-624 | The same from any fetched rows on: groups, parent, children and join rows of every node are those of the one-row lookup, recursively, unless a groups edge that was run before reads a row |
| `EagerTree.LoadLinksIsLookup` | backend/ent/accountgroup_query.go:334-377 | The same for join rows and their account and group edges |
| `EagerTree.DealtDistinct` | backend/ent/account_query.go:741-749 | Dealing single neighbours out by id gives each node the neighbour with its key, or none, and reports no unexpected key, when every fetched id was asked for |
| `EagerTree.DealtParents` | backend/ent/account_query.go:720-751 | The batch of all distinct keys, filtered by id and answered in any order, gives each node what a lookup of its own key gives |
| `EagerTree.DealtGroups` | backend/ent/accountgroup_query.go:408-436 | The same for the group of a join row, whatever columns the group query selects |
| `Tables.OwnedIsFiltered` | backend/ent/account_query.go:772-782 | Neighbours dealt to an owner by key are the neighbours made from that owner's own rows, in row order |
| `Tables.PartAgrees` | backend/ent/account_query.go:765-782 | Of the rows answered for many owners, in any order, those of one owner are those a lookup for it alone finds |
| `EagerTree.DealtChildren` | backend/ent/account_query.go:752-784 | The one query for all parents, answered in any order, gives each node exactly its own children, with no nil or unknown key |
| `EagerTree.DealtLinks` | backend/ent/account_query.go:815-844 | The one query for all accounts gives each node exactly its own join rows |
| `EagerTree.StreamMember` | backend/ent/account_query.go:638-646 | The joined query pairs an account with a group exactly when the account is asked for and the group passes the filter, is linked to it, and satisfies the joins that earlier runs left behind |
| `EagerTree.LoadedGroups` | backend/ent/account_query.go:627-687 | Its rows in any order give each account exactly the groups that a lookup for that account alone finds |
| `EagerTree.ReadAsStored` | backend/ent/account_query.go:650-671 | On the first run, whatever columns the group query selects, the joined rows are read by position as they are: account id first, group id second |
| `EagerLaws.SecondRun` | backend/ent/account_query.go:550-625 | A second run of a whole query, with everything the first left on the builders of the tree, fails exactly when some groups edge at any depth read a joined row in the first; otherwise it returns the same trees |
| `EagerLaws.RunAgain` | backend/ent/account_query.go:584-624 | The same from any fetched rows on, for edges nested in edges |
| `EagerLaws.SecondParents` | backend/ent/account_query.go:736-749 | A second run of the parent loader: stuck exactly when a groups edge below the parent query read a row in the first; otherwise the same parents |
| `EagerLaws.SecondChildren` | backend/ent/account_query.go:762-782 | A second run of the children loader: stuck exactly when a groups edge below it read a row in the first; otherwise the same children |
| `EagerLaws.SecondGroups` | backend/ent/account_query.go:638-668 | A second run of the groups loader ends in the failed type assertion exactly when it reads a row; the columns are those that the closures of two runs select |
| `EagerLaws.PagedParents` | backend/ent/account_query.go:736-749 | With a limit or offset on the parent query, every node still gets the parent of its own lookup exactly when the page drops no row of the batch |
| `EagerLaws.PagedChildren` | backend/ent/account_query.go:762-782 | The same for the children of every node |
| `EagerLaws.PagedGroups` | backend/ent/account_query.go:638-685 | The same for the groups of every node: exactly when the page drops no pair of account and group |
| `EagerLaws.ProjectionIndependence` | backend/ent/account_query.go:866-880 | Two query trees that differ only in selected fields, on the outer query or on any edge, load the same trees or both fail; a first run does not fail |
| `EagerLaws.TwoHopsAgree` | backend/ent/account_query.go:627-687 | The groups loaded directly and those reached over the join rows and their group edge are the same, each once |
| `EagerLaws.QueriedHopsAgree` | backend/ent/account_query.go:550-625 | The same of every node that a batched query returns |
| `EagerLaws.EachReachedOnce` | backend/ent/accountgroup_query.go:408-436 | No group is reached by two join rows of one account |
| `EagerLaws.QueryReturns` | backend/ent/account_query.go:881-886 | Whatever its batched loading and the order of answers, a query that succeeds returns an account, once, exactly when it is in the table and every predicate the caller added holds of it |
| `EagerLaws.TreeEdges` | backend/ent/account_query.go:584-624 | A returned tree has exactly the requested edges |
| `EagerLaws.TreeParent` | backend/ent/account_query.go:720-751 | Its parent edge holds the tree of p, built by the parent query, exactly when p is in the table, the row names p as parent, and p passes every predicate of that query |
| `EagerLaws.TreeChildren` | backend/ent/account_query.go:752-784 | Its children are the trees of exactly the accounts in the table that name the row as parent and pass every predicate of the children query |
| `EagerLaws.TreeLinks` | backend/ent/account_query.go:815-844 | Its join rows are the trees of exactly those that name the account and pass every predicate of their query |
| `EagerLaws.TreeGroups` | backend/ent/account_query.go:627-687 | Its groups are exactly those that some join row links to the account and that pass every predicate of the group query |
| `EagerLaws.JoinRowEdges` | backend/ent/accountgroup_query.go:379-436 | The account and the group of a join row are those that its own two keys name and that pass every predicate of their queries |
| `EagerLaws.ChildRows` | backend/ent/account_query.go:752-784 | The loaded children of p are exactly the accounts in the table that name p as parent and pass every predicate of the children query |
| `EagerLaws.ParentRow` | backend/ent/account_query.go:720-751 | The loaded parent is p exactly when p is in the table, the key is the id of p, and p passes every predicate of the parent query |
| `EagerLaws.ParentChildDuality` | backend/ent/account_query.go:720-784 | Of accounts that pass the predicates of both edge queries, c is among the loaded children of p exactly when the loaded parent of c is p |
| `BatchJoin.DistinctKeys` | backend/ent/account_query.go:721-735 | The keys to fetch are the non-nil keys of the nodes, each once |
| `BatchJoin.SharesConserved` | backend/ent/account_query.go:753-782 | With any node ids, repeated ones included, the shares add up to the number of fetched rows |
| `BatchJoin.FirstSeenIds` | backend/ent/account_query.go:661-671 | The neighbours of a row stream have distinct ids, and they are the ids the stream shows |
| `BatchJoin.LinkedOrder` | backend/ent/account_query.go:677-685 | An account's list is a subsequence of the one neighbour list |
| `BatchJoin.LinkedExactly` | backend/ent/account_query.go:661-685 | For any row stream, repeats included, an account's list has each linked group id exactly once and no other |
| `BatchJoin.LinkedSorted` | backend/ent/account_query.go:661-685 | A stream sorted by a key of the group alone gives every account a sorted list |
| `BatchJoin.OwnOrderIff` | backend/ent/account_query.go:661-685 | An account's list follows the order of the account's own rows exactly when no row shows a later group of it before any row showed an earlier one |
| `BatchJoin.OwnOrderRows` | backend/ent/account_query.go:661-685 | The same of the list of group rows, when a group id always comes with the same row |
| `BatchJoin.SortedKeepsOwnOrder` | backend/ent/account_query.go:661-685 | A stream sorted by a key that tells groups apart gives every account its own order |
| `BatchJoin.OwnOrderIsNotKept` | backend/ent/account_query.go:661-685 | With ties in the key it need not: a sorted stream of three rows in which an account's rows name h and then g, and its list holds g and then h |
| `EagerLoad.SqlAll` | backend/ent/account_query.go:550-625 | On the heap, for a query tree of any depth: the nodes are the rows in the table that pass every predicate the caller added, in any order or cut by a page, and unfold to exactly the trees of the rows' own lookups; at every depth each accessor says NotLoaded exactly when its edge was not requested, a list edge holds exactly the related rows, and a unique edge the row of its key or NotFound; it fails exactly when a groups edge that was run before reads a row |
| `EagerLoad.LoadEdges` | backend/ent/account_query.go:584-624 | The edges of fetched nodes, one after the other up to the first that fails |
| `EagerLoad.LoadedIsLookup` | backend/ent/account.go:109-147 | Nodes whose accessors are right at every depth, neighbours shared between them included, unfold to the tree that the one-row lookup gives |
| `EagerLoad.QueryAccounts` | backend/ent/account_query.go:563-583 | Fresh distinct nodes, one per answered row, scanned from the selected columns, with no edge loaded yet; every row passes every predicate the caller added, without a page every such row is there, and a page holds as many as its offset and limit leave |
| `EagerLoad.CutIsPage` | backend/ent/account_query.go:888-893 | A page holds the rows from its offset on, as many as its limit allows, in order; without one all rows |
| `EagerLoad.PagesTile` | backend/ent/account_query.go:888-893 | Two consecutive pages are the one page of both sizes: paging skips and repeats no row |
| `EagerLoad.LoadParent` | backend/ent/account_query.go:720-751 | Each node gets the last fetched row with its key, shared by all nodes with that key and with its own edges loaded, for any node list; other nodes stay as they were; the error branch is not reached |
| `EagerLoad.ListByKey` | backend/ent/account_query.go:721-732 | The distinct keys, and under each key exactly the nodes that have it |
| `EagerLoad.AssignParents` | backend/ent/account_query.go:741-749 | Every listed node gets its neighbour and no other node changes |
| `EagerLoad.ChosenIsLookup` | backend/ent/account_query.go:736-749 | That neighbour is the unique filtered row with the key; a page on the edge query can only miss it |
| `EagerLoad.LoadChildren` | backend/ent/account_query.go:752-784 | Every fetched row, with its own edges loaded, is in the list of the last node with the id it names, in fetch order; earlier nodes with that id get an empty list; neither error branch is reached, whatever fields are selected |
| `EagerLoad.IndexById` | backend/ent/account_query.go:753-761 | The map holds the last node of each id, and every list starts empty |
| `EagerLoad.AppendChild` | backend/ent/account_query.go:772-782 | One step: exactly one list grows, by the row at hand |
| `EagerLoad.AssignChildren` | backend/ent/account_query.go:772-782 | All steps: every list is its share of the fetched rows |
| `EagerLoad.ChildrenConserved` | backend/ent/account_query.go:753-782 | After loading, the lengths of all Children lists add up to the number of fetched rows, whether or not node ids repeat |
| `EagerLoad.LoadGroups` | backend/ent/account_query.go:627-687 | One object per group id; the last node of each account id gets its linked groups in neighbour order, earlier ones an empty list, whatever columns are selected and in whatever order a set of nodes is walked; a query that was run before ends in the failed assertion exactly when it reads a row |
| `EagerLoad.ScanJoined` | backend/ent/account_query.go:650-671 | Reading account id and group id by position, after the scan each seen group has one object, and its set holds exactly the nodes whose rows named it; after earlier runs the first row ends it |
| `EagerLoad.AppendGroup` | backend/ent/account_query.go:682-684 | A walk over a set of nodes in any order appends the group once to each of them and to no other |
| `EagerLoad.AssignGroups` | backend/ent/account_query.go:677-685 | Every list is the account's part of the neighbours |
| `EagerLoad.GroupsExactly` | backend/ent/account_query.go:627-687 | Such a list has each linked group id exactly once and no other |
| `EagerLoad.GroupsShared` | backend/ent/account_query.go:661-685 | Two accounts linked to one group hold the same object |
| `EagerLoad.ParentsRight` | backend/ent/account.go:129-138 | After loading, the parent accessor is right on every node |
| `EagerLoad.AllGroupsRight` | backend/ent/account.go:109-116 | After loading, the groups accessor is right on every node |
| `EagerLoad.AllChildrenRight` | backend/ent/account.go:140-147 | After loading, the children accessor is right on every node |
| `Schema.AccountReadHasKeys` | backend/ent/account_query.go:866-880 | Every selection reads the id first, the proxy and parent keys when those edges are requested, and the parent key when an outer children edge added it |
| `Schema.LinkReadHasKeys` | backend/ent/accountgroup_query.go:456-467 | Every selection of a join-row query reads the keys its requested edges need |
| `Schema.FirstRunReads` | backend/ent/account_query.go:638-671 | Whatever is selected, the columns that one run selects have the account id at the first position and the group id at the second, and the scanned group gets its id |
| `Schema.LaterRunsRead` | backend/ent/account_query.go:638-668 | From the second run on, the second column is the account id of the run before, which a group query cannot scan: the row cannot be read |
| `Schema.UnselectedReadsAll` | backend/ent/account_query.go:858-866 | A query without a selection reads every column: the node of an inserted row comes back whole |
| `Schema.AccountReadExactly` | backend/ent/account_query.go:866-880 | With a selection, a column is read exactly when it is the id, selected, or the proxy or parent key of a requested edge |
| `Schema.LinkReadExactly` | backend/ent/accountgroup_query.go:456-467 | A join-row column is read exactly when it is selected or the key of a requested edge; the four of the table without a selection |
| `Schema.GroupReadExactly` | backend/ent/group_query.go:1051-1058 | With a selection, a group column is read exactly when it is the id or selected |
| `Schema.ScanAccountIsAssigned` | backend/ent/account.go:168-189 | The two fields that loading looks at are what scanning and assigning the inserted row through those columns leaves in the struct |
| `QueryBuilder.Append` | backend/ent/account_query.go:45-45 | Go append: the items are the old ones and the new ones; the backing array is shared exactly while it has room |
| `QueryBuilder.SharedSlicesInterfere` | backend/ent/account_query.go:395-397 | Why clones copy: two headers on one array with room overwrite each other |
| `QueryBuilder.Builder.Clone` | backend/ent/account_query.go:388-408 | Terminates on every tree of nested builders and returns one made of fresh objects only, equal in everything but modifiers, interceptors and traversal included |
| `QueryBuilder.Builder.CloneEdges` | backend/ent/account_query.go:398-403 | The nested builders are cloned one by one; the original stays as it was |
| `QueryBuilder.Builder.Where` | backend/ent/account_query.go:44-47 | Adds predicates to this builder and keeps all others apart and unchanged |
| `QueryBuilder.Builder.OrderBy` | backend/ent/account_query.go:69-72 | Adds order terms likewise |
| `QueryBuilder.Builder.SetContext` | backend/ent/account_query.go:50-66 | Writes one context setting likewise |
| `QueryBuilder.Builder.With` | backend/ent/account_query.go:412-419 | Replaces the nested builder of one edge by a new one |
| `QueryBuilder.Builder.Call` | backend/ent/account_query.go:412-474 | Any of these calls on a builder at any depth changes the tree there and nowhere else |
| `QueryBuilder.Interleave` | backend/ent/account_query.go:44-72 | Calls on two separate trees in any interleaving: each tree sees its own calls only |
| `QueryBuilder.CloneThenUse` | backend/ent/account_query.go:388-408 | Clone, then configure original and clone in any interleaving, at any depth: each ends as if the other had never been touched |
| `QueryBuilder.CloneIsExactIff` | backend/ent/accountgroup_query.go:220-236 | Cloning is exact for trees without modifiers and only for them; a clone has none |
| `BuilderLaws.LimitIs` | backend/ent/account_query.go:50-53 | After any calls on two trees in any interleaving, the limit of a tree is the argument of the last Limit on its outer builder, or what it was before |
| `BuilderLaws.OffsetIs` | backend/ent/account_query.go:56-59 | The offset is the argument of the last Offset likewise |
| `BuilderLaws.UniqueIs` | backend/ent/account_query.go:63-66 | Uniqueness is the argument of the last Unique likewise |
| `BuilderLaws.PredicatesAre` | backend/ent/account_query.go:44-47 | The predicates are those that were there and then the arguments of the Where calls in call order, and nothing else |
| `BuilderLaws.OrderIs` | backend/ent/account_query.go:69-72 | The order terms are the old ones and those of the Order calls likewise |
| `BuilderLaws.FieldsAre` | backend/ent/account_query.go:511-517 | The selected fields are the old ones and those of the Select calls likewise |
| `BuilderLaws.ModifiersAre` | backend/ent/account_query.go:942-963 | The modifiers are the old ones and those that the row-lock calls append likewise |
| `BuilderLaws.OriginStays` | backend/ent/account_query.go:44-72 | No call changes the interceptors or the traversal a query comes from |
| `BuilderLaws.EdgeRequested` | backend/ent/account_query.go:412-474 | Behind an edge is an empty builder after the last With for it, which receives exactly the later calls that go through that edge |
| `BuilderLaws.EdgeKept` | backend/ent/account_query.go:412-474 | An edge that is not requested anew is there exactly if it was, and its builder receives exactly the calls that go through it |
| `BuilderLaws.CloneKeeps` | backend/ent/account_query.go:388-408 | A clone has the same context, order, predicates, origin and edges, with a clone behind every edge, and no modifiers |
| `BulkCreate.AccountCreateBulk.Save` | backend/ent/account_create.go:2095-2152 | The shared slices, mutations and history end as the recursive meaning of the save says |
| `BulkCreate.AccountCreateBulk.InvokeFrom` | backend/ent/account_create.go:2140-2143 | A mutator wrapped in its hooks, the first outermost, ends as that meaning says from any hook on |
| `BulkCreate.AccountCreateBulk.Closure` | backend/ent/account_create.go:2106-2139 | Check, spec, next mutator or batch, id and done mark, in this order |
| `BulkCreate.AccountCreateBulk.BatchCreate` | backend/ent/account_create.go:2120-2127 | The batch over all specs; a constraint failure is wrapped |
| `BulkCreate.BatchesAtMost` | backend/ent/account_create.go:2102-2150 | Whatever the hooks do, a call of the chain runs the batch at most as often as the hooks' call limits multiply to |
| `BulkCreate.SaveBatchesAtMost` | backend/ent/account_create.go:2102-2150 | The same for a whole save |
| `BulkCreate.BatchesExactly` | backend/ent/account_create.go:2102-2150 | With hooks that call next at most once, one batch exactly when the rest of the chain is reached and passes |
| `BulkCreate.ReachesIff` | backend/ent/account_create.go:2106-2143 | Reaching the batch means: the hooks of every builder let its mutation through, and every check passes on what they made of it |
| `BulkCreate.BatchRunsIff` | backend/ent/account_create.go:2102-2150 | With hooks that call next at most once, deciding by the mutation, the batch runs at most once, and exactly when all hooks let their mutation through and all checks pass |
| `BulkCreate.SubmitsChecked` | backend/ent/account_create.go:2111-2127 | For any hooks, however they edit, refuse, retry and translate errors: every batch has one spec per builder, each made from fields that passed the check |
| `BulkCreate.SaveSubmitsChecked` | backend/ent/account_create.go:2095-2152 | The same for a whole save |
| `BulkCreate.StuckBlocks` | backend/ent/account_create.go:2111-2113 | A builder whose check rejects what its hooks can make of its mutation keeps the save from running any batch |
| `BulkCreate.HonestChain` | backend/ent/account_create.go:2102-2150 | From any point of a chain of honest hooks, retrying ones included: success stores one more batch, of exactly the specs made, with all later builders done; failure stores nothing and marks nothing |
| `BulkCreate.OnceContents` | backend/ent/account_create.go:2140-2142 | After a success of hooks that call next once, each spec holds what the builder's hooks, first to last, made of its mutation |
| `BulkCreate.SavedContents` | backend/ent/account_create.go:2095-2152 | The one batch of a successful save with such hooks, or none, holds that for every builder |
| `BulkCreate.HonestIsAllOrNothing` | backend/ent/account_create.go:2095-2152 | A save with honest hooks, or none, is all or nothing: one batch of n specs in builder order with every node carrying the id the database returned for its row, or no row and no done mark; no builders, no batch |
| `BulkCreate.HonestIsExact` | backend/ent/account_create.go:2106-2143 | Honesty is exactly what that needs: a hook keeps it in every save whose other hooks are honest, wherever it stands, if and only if it is honest |
| `BulkCreate.HonestTrace` | backend/ent/account_create.go:2106-2143 | A success of honest hooks that call next once has one history: hooks and checks in builder order, the batch, done marks and hook exits in reverse |
| `BulkCreate.HonestSave` | backend/ent/account_create.go:2095-2152 | The whole history of such a save |
| `BulkCreate.FirstFailing` | backend/ent/account_create.go:2111-2113 | The first builder whose check fails |
| `BulkCreate.PlainTrace` | backend/ent/account_create.go:2102-2150 | Without hooks: checks in order up to the first failing one, whose error is returned; else one batch, and if accepted done marks from the last builder to the first |
| `BulkCreate.PlainSave` | backend/ent/account_create.go:2095-2152 | The whole history and batch of a save without hooks, and its error: that of the first failing check, the Constraint error if the batch fails on a constraint, or the database's own |
| `AccountCreate.AccountCreate.Defaults` | backend/ent/account_create.go:527-585 | The mutation and the error are those of the composition of the eleven default blocks |
| `AccountCreate.DefaultsFail` | backend/ent/account_create.go:528-555 | Fails exactly when one of the four fields with a default function is unset and its function nil |
| `AccountCreate.DefaultsKeep` | backend/ent/account_create.go:527-585 | Never overwrites a set field, writes nothing but defaults, and on success sets every field that has one |
| `AccountCreate.DefaultsFill` | backend/ent/account_create.go:527-585 | Field by field: the eleven fields with a default are filled with it if unset, and all others stay as they are |
| `AccountCreate.DefaultsStop` | backend/ent/account_create.go:528-555 | The field that stops the defaults is the first unset one of created time, updated time, credentials and extra whose default function is nil |
| `AccountCreate.CheckIff` | backend/ent/account_create.go:588-662 | The check passes exactly when the two times, name, platform, type, the two documents, concurrency, priority, rate multiplier, status, the two switches and the quota dimension are set, the validators of name, platform, type, status and (if set) session window status accept them, and the quota dimension is global or spark |
| `AccountCreate.CheckNames` | backend/ent/account_create.go:588-662 | A check that does not pass names the bad field whose block comes first in the source, and crashes exactly when that field is set and its validator nil |
| `AccountCreate.FirstBadField` | backend/ent/account_create.go:588-662 | The check passes exactly when every field does, and otherwise names the first bad one in check order |
| `AccountCreate.LoadedNeverCrashes` | backend/ent/account_create.go:598-602 | With the runtime's validators set, a check never calls a nil validator |
| `AccountCreate.FailedDefaultsFailCheck` | backend/ent/account_create.go:527-662 | Whenever defaults fail, the check of the same mutation does not pass |
| `AccountCreate.SubmittedSpecsComplete` | backend/ent/account_create.go:2104-2127 | Although the error of defaults is discarded, every batch of a bulk save, for any hooks, has one spec per builder, each with all required fields set and every validated field accepted, in the terms of `CheckIff` |
| `AccountCreate.FailedDefaultsStopSave` | backend/ent/account_create.go:2104-2113 | A builder whose defaults failed stops the whole save unless one of its hooks sets the missing field |
| `AccountFields.ScanValues` | backend/ent/account.go:168-189 | One destination per column, of the kind of that column |
| `AccountFields.ScannedAccount.AssignValues` | backend/ent/account.go:193-417 | The fields are assigned column by column, a JSON text merged into the document that is there; the first bad value stops it with the earlier ones in place; too few values change nothing |
| `AccountFields.NeverUnexpected` | backend/ent/account.go:168-417 | For every column list, the destinations scanValues makes never have an unexpected type in assignValues |
| `AccountFields.AssignFails` | backend/ent/account.go:193-417 | Assigning a column fails exactly on a destination of another kind than the column's, or on a JSON text that does not decode |
| `AccountFields.JsonMerged` | backend/ent/account.go:249-264 | A JSON text is decoded into the document that is there, and the field holds the outcome or keeps its value and the assignment fails |
| `AccountFields.StopsThere` | backend/ent/account.go:193-417 | The first column whose value is bad stops the assignment, with its error and with everything assigned before it |
| `AccountFields.UnknownSelected` | backend/ent/account.go:412-414 | The value of a column the program does not know is kept under its name |
| `AccountFields.AssignedByColumn` | backend/ent/account.go:193-417 | Repeated and reordered columns: each listed field ends with its value, the others stay |
| `AccountFields.CellReadsBack` | backend/ent/account_create.go:682-857 | A value written by createSpec is scanned and assigned back, column by column |
| `AccountFields.RowReadsBack` | backend/ent/account_create.go:682-857 | The inserted row reads back through any column list: listed fields as createSpec gave them to the node, unlisted ones zero |
| `AccountFields.CreatedNodeIsMutation` | backend/ent/account_create.go:682-857 | createSpec drops no field that a create's mutation sets |
| `AccountFields.NodeReadsBack` | backend/ent/account_create.go:682-857 | Reading all columns, in any order, rebuilds the node createSpec returned, with the id the database picked |
| `ExceptionFile.ParseExceptions` | tools/check_pnpm_audit_exceptions.py:23-48 | The loop over two variables computes the line-by-line meaning of the list, or stops at a dash line without a colon |
| `ExceptionFile.StripAround` | tools/check_pnpm_audit_exceptions.py:29-29 | Stripping removes white space around a text and nothing else |
| `ExceptionFile.Stripped` | tools/check_pnpm_audit_exceptions.py:29-29 | Every text is its stripped text with white space around it |
| `ExceptionFile.SplitPrinted` | tools/check_pnpm_audit_exceptions.py:12-20 | A written field splits back into its key and value, whether the value is bare, single-quoted or double-quoted, and whatever blanks surround either |
| `ExceptionFile.StepDash` | tools/check_pnpm_audit_exceptions.py:34-42 | A written dash line finishes the record before it and starts one with its field |
| `ExceptionFile.NotHeader` | tools/check_pnpm_audit_exceptions.py:32-33 | A written line looks like a header only if its key is the header's word |
| `ExceptionFile.StepMore` | tools/check_pnpm_audit_exceptions.py:43-45 | A written further line adds its field to the current record |
| `ExceptionFile.NoColonStops` | tools/check_pnpm_audit_exceptions.py:34-41 | A dash line whose text has no colon stops the parser |
| `ExceptionFile.StrayLine` | tools/check_pnpm_audit_exceptions.py:43-45 | A line that is no dash line changes nothing before the first record, and never if it has no colon |
| `ExceptionFile.IdleLine` | tools/check_pnpm_audit_exceptions.py:28-31 | A blank line, or one whose first non-blank character is #, put anywhere in any list changes nothing |
| `ExceptionFile.RunEntries` | tools/check_pnpm_audit_exceptions.py:25-48 | Written records are read one after the other, whatever was being read before |
| `ExceptionFile.LinesOfJoin` | tools/check_pnpm_audit_exceptions.py:28-28 | Lines joined with any of the three line ends are read as the same lines, and the last one needs no end |
| `ExceptionFile.RoundTrip` | tools/check_pnpm_audit_exceptions.py:12-48 | A written list of non-empty records parses back to them, for any mix of bare, single-quoted and double-quoted values, whatever the quoted ones hold on one line, any blanks around the texts and any line end; a repeated field keeps its last value |
| `AuditReport.IterVulns` | tools/check_pnpm_audit_exceptions.py:64-111 | The loops yield the findings of the report, or crash exactly when it is no object, an advisory is malformed, or a package is |
| `AuditReport.VulnerabilityLoop` | tools/check_pnpm_audit_exceptions.py:83-111 | The loops over one package yield the ids of its via items, or crash exactly when a title to be joined is no text |
| `AuditReport.FindingsInOrder` | tools/check_pnpm_audit_exceptions.py:64-111 | The findings are what the advisories and via items that yield do yield, each place once, in the order of the report; nothing else is yielded and nothing left out |
| `AuditReport.FirstTruthy` | tools/check_pnpm_audit_exceptions.py:91-102 | The first truthy value, or the last if there is none |
| `AuditReport.Falsy` | tools/check_pnpm_audit_exceptions.py:51-111 | Exactly null, false, zero and the empty text, list and object are falsy |
| `AuditReport.GetMember` | tools/check_pnpm_audit_exceptions.py:51-111 | In an object with distinct members, get finds the member of a key, and nothing exactly if there is none |
| `AuditReport.AdvisoryYields` | tools/check_pnpm_audit_exceptions.py:65-71 | An advisory yields its module name or else its name, its severity, and the id that precedence picks |
| `AuditReport.AdvisoryIdIs` | tools/check_pnpm_audit_exceptions.py:51-61 | That id, value by value: GHSA id, url, first CVE, id as text, title, advisory, overview |
| `AuditReport.ViaPrecedence` | tools/check_pnpm_audit_exceptions.py:88-109 | The order in which a via object's ids and titles are tried, value by value |
| `AuditReport.ViaYields` | tools/check_pnpm_audit_exceptions.py:77-111 | A place of a package's via list yields the package's name and severity with the object's or text's id, and nothing without an id |
| `AuditReport.OneAdvisoryYields` | tools/check_pnpm_audit_exceptions.py:64-71 | A report of one advisory yields exactly what that advisory does, or crashes with it |
| `AuditReport.OneTextYields` | tools/check_pnpm_audit_exceptions.py:73-111 | A package whose via is a text yields that text, and nothing if it is empty |
| `AuditReport.OneItemYields` | tools/check_pnpm_audit_exceptions.py:73-111 | A package with one via object yields the object's id, or crashes on a title that is no text |
| `AuditReport.AdvisoryIdPrecedence` | tools/check_pnpm_audit_exceptions.py:51-61 | The order in which an advisory's GHSA id, url, CVE, id, title and texts are tried |
| `AuditReport.AdvisoryCrashIff` | tools/check_pnpm_audit_exceptions.py:51-61 | An advisory crashes exactly when it is no object, or only malformed CVE ids are left to try |
| `AuditReport.JoinableIff` | tools/check_pnpm_audit_exceptions.py:97-109 | The collected titles join exactly when each object item's first truthy title, url, advisory or source is a text |
| `AuditReport.NumericSource` | tools/check_pnpm_audit_exceptions.py:88-109 | An item with a non-zero numeric source always has an id; its title joins exactly when the first truthy one of title, url and advisory exists and is a text, and if it does not the run crashes |
| `AuditGate.BuildIndex` | tools/check_pnpm_audit_exceptions.py:153-185 | The loop builds the index and the errors of the records before it |
| `AuditGate.IndexHasKeys` | tools/check_pnpm_audit_exceptions.py:175-185 | Every valid record's key is in the index |
| `AuditGate.IndexSource` | tools/check_pnpm_audit_exceptions.py:176-185 | Every rule of the index was read from a record of its key |
| `AuditGate.IndexErrors` | tools/check_pnpm_audit_exceptions.py:156-185 | No error exactly when all records are valid and their keys distinct |
| `AuditGate.RuleIff` | tools/check_pnpm_audit_exceptions.py:156-185 | Field by field: which exceptions are valid, the severity and date a valid one gives, and which error each other one is reported with |
| `AuditGate.IndexReports` | tools/check_pnpm_audit_exceptions.py:156-185 | The errors of the index are exactly the errors of the invalid records and the repeats of an indexed key |
| `AuditGate.KeysAgree` | tools/check_pnpm_audit_exceptions.py:119-131 | From the texts: an exception and a finding have one key exactly when their packages are equal once stripped and their advisories once stripped and lower-cased; a number counts as its text |
| `AuditGate.CheckFindings` | tools/check_pnpm_audit_exceptions.py:187-219 | The loop over four variables computes the fold over the findings |
| `AuditGate.SeenKeys` | tools/check_pnpm_audit_exceptions.py:192-206 | The seen set holds exactly the keys of the serious findings that have an advisory |
| `AuditGate.CleanIffAllFit` | tools/check_pnpm_audit_exceptions.py:193-219 | The pass over the findings ends clean exactly when each serious one is indexed and in force and the first of its key is not contradicted on severity |
| `AuditGate.ExactVerdict` | tools/check_pnpm_audit_exceptions.py:156-243 | Both passes end clean exactly when all exceptions are complete, dated and distinct, every serious finding is covered by one still in force, and the first finding of each key agrees on severity |
| `AuditGate.RunGate` | tools/check_pnpm_audit_exceptions.py:142-243 | Validated exactly when the verdict holds; aborted exactly when the list, the report or a severity raises; otherwise the errors and findings of the two passes |
| `AuditGate.CheckCrashes` | tools/check_pnpm_audit_exceptions.py:114-116 | The pass over the findings raises exactly on a severity that is truthy and no text |
| `AuditGate.PassErrors` | tools/check_pnpm_audit_exceptions.py:193-219 | The errors of the pass are exactly the missing advisory ids of serious findings and the contradicted severities of findings first of their key |
| `AuditGate.OneExceptionGate` | tools/check_pnpm_audit_exceptions.py:156-219 | One finding and one exception, from their texts: a pass exactly when the exception is well-formed and, if the severity is high or critical, its package and advisory match, its severity is that one and its date is not past |
| `AuditGate.ReportGate` | tools/check_pnpm_audit_exceptions.py:142-243 | The same end to end from the members of a one-advisory report: without exceptions validated exactly when the severity is neither high nor critical, with one exactly when that excuses it |
| `AuditGate.NumberGate` | tools/check_pnpm_audit_exceptions.py:119-219 | The same for an advisory that is known by a number only |
| `AuditGate.SourceGate` | tools/check_pnpm_audit_exceptions.py:88-219 | The same for a via object with a numeric source and a title |
| `AuditGate.WrittenGate` | tools/check_pnpm_audit_exceptions.py:23-243 | The same from the text of the exception list, in any style, to the verdict |
| `AuditGate.ReportedOnce` | tools/check_pnpm_audit_exceptions.py:207-219 | A key is listed as missing, or as expired, exactly when a serious finding has it and it is not indexed, or indexed and run out |
| `AuditGate.ReportedDistinct` | tools/check_pnpm_audit_exceptions.py:203-219 | Neither list names a key twice |
| `AuditGate.MoreFindings` | tools/check_pnpm_audit_exceptions.py:193-219 | More findings never turn a failure into a pass |
| `AuditGate.FreshException` | tools/check_pnpm_audit_exceptions.py:156-219 | A well-formed exception with a fresh key, anywhere in the list, never turns a pass into a failure |
| `AuditGate.EarlierDay` | tools/check_pnpm_audit_exceptions.py:216-219 | A pass on some day is a pass on every earlier day |
| `AuditGate.OrderIrrelevantIff` | tools/check_pnpm_audit_exceptions.py:191-219 | A pass holds for every order of the report exactly when no serious finding, first of its key or not, is contradicted on severity |
| `AuditGate.ReorderSafe` | tools/check_pnpm_audit_exceptions.py:191-219 | That is so when findings of one key carry one severity; then repeats do not matter either |
| `AuditGate.OrderDecides` | tools/check_pnpm_audit_exceptions.py:203-215 | Two findings that pass one way round and fail the other |

## Left out

- Interceptors and soft-delete rules: loading has none. Builders carry their interceptors, sql and path as values.
- SQL text, dialects, row locks, the driver, transactions and the sqlgraph library.
- Update, delete and upsert builders, fluent setters, the panicking variants, counting, grouping and scanning wrappers.
- The other entities: their code repeats the same templates.
- The proxy and usage-log edges, and on the heap also the join-row edges and the edges of join rows: their loaders repeat
  those of parent and children. The join-row ones are in `EagerTree` as values.
- EagerLoad.SqlAll: loads three of the six edges, at any depth, with no page on the queries of the edges; the join-row
  edges are in `EagerTree` as values. The single loaders take a page.
- EagerTree.QueryIsLookup: edge queries have no limit or offset; `EagerLaws` says for each edge when one would matter.
  Groups are compared as sets, with their order in `BatchJoin`.
- Distinct queries on join rows, whose selection need not hold the whole primary key.
- Groups' own edges.
- BulkCreate.AccountCreateBulk.Save: a hook decides by the mutation and by the errors it got back, not by the returned
  node, by other builders or by a memory of its own from an earlier call; it is given the same mutation and a context
  nobody reads, so the branch for a foreign mutation type does not occur. One builder listed twice in a bulk is not
  modelled, because each has its own slot.
- A panic inside a check ends a save; `AccountCreate.SavesAccounts` only says that such a check does not pass.
- A JSON text that fails to decode may leave a document half merged; the model leaves it as it was.
- Integer width: ids are unbounded. Floats are reals, and the rounding of `decimal(10,4)` columns is not modelled.
- Titles and message wording of the audit tool, its argument parsing, file reading and JSON decoding. The crash of a dash
  line without a colon is modelled as an error result.
- The many-to-many and one-to-many edges that `createSpec` adds to a spec: they write other tables' rows.
