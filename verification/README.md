# A verified model of account loading, bulk creation, the re-login workers and the audit gate

This project models four parts of the repository and proves what they are relied on for.

1. **Eager loading** of the account query builder (`backend/ent/account_query.go`, `backend/ent/account.go`). `Accounts`
   holds row decoding and the edge accessors, `JoinSpec` the nested-loop join as plain lists of identifiers,
   `EagerLoading` the hand-indexed loaders on the heap, `ColumnSelection` the columns a query selects. `QuerySpec` says
   what a run of a query with nested queries loads, and when it succeeds; `AccountQuery` is `sqlAll` with its edges,
   recursive as in the source, and proved against it. `RowSources` and `EdgeLookups` tell the same on the driver's
   answers alone: which query each edge sends, which of its rows a node gets, and what the edge accessors answer.
   `LoadConservation` says what the lists add up to, `Projection` what other selections change. `QueryClone` is the
   builder itself: Go slices with backing arrays, nested queries, and `Clone`.
2. **Bulk creation** (`backend/ent/account_create.go`). `AccountCreate` holds `defaults` and `check`, `BulkCreate` the
   chain of mutators wrapped in hooks that ends in one batch, and the two put together.
3. **The re-login workers** (`tools/openai_oauth_reauth_worker.py`). `PoolSpec` says what one reconcile call does to the
   slots and what every run keeps, `PoolInterleaving` that nothing changes when processes exit while a call is running,
   `WorkerPool` is the same on the heap with processes and stop flags, `SlotIdentity` the worker ids, `TaskProtocol` one
   round of a worker as seen by the server, `FailureText` the code table, and `FailureReport` the printer and reader of
   failure texts.
4. **The audit gate** (`tools/check_pnpm_audit_exceptions.py`). `AuditExceptions` is the list parser, `AuditFindings` the
   report reader, `AuditGate` the index, the scan and the verdict.

`Text` and `Wrappers` hold string operations and an option type. `dafny verify dfyconfig.toml` checks everything.

Objects that the source updates in place are classes with `modifies` clauses, and loops are loops; each such method is
proved against a function or predicate, about which the lemmas speak. Where code and specification would otherwise share
a definition, a second statement is written out with the names, texts and positions of the source, and proved equal.
What the environment does is a parameter: rows
returned by the driver, the answers of the server, what a runner process writes, which processes exit and when, what a
hook decides next, Go's map order (an arbitrary choice in the loop), library functions such as `str.lower` or
`json.Unmarshal`.

## Where a promise does not hold as stated

The code was kept as it is; each of these has its exact condition as a lemma or a contract.

- `Clone` is documented as a duplicate with all associated steps (`backend/ent/account_query.go:433-434`). It drops modifiers, so it
  is one exactly for queries without modifiers at any level (`QueryClone.CloneIsDuplicateExactlyWithoutModifiers`).
- Many-to-many loading fails exactly when the first row of some neighbour holds a document that does not decode, or a row
  names a parent that was not asked for (a nil parent is dereferenced; `EagerLoading.LoadToMany`).
- Of several parents with one ID only the last gets a list: a parent gets the neighbours linked to its ID exactly if no
  later parent has that ID or no row names it (`EagerLoading.OnlyTheLastGetsAList`, `EagerLoading.SharedIdLosesAList`).
- Bulk save checks the mutation a builder holds, not the one its hooks hand on. The row that reaches the batch is the one
  handed on, whatever it holds (`BulkCreate.Bulk.Create`, `BulkCreate.UncheckedRow`); so all rows have passed check if the
  hooks hand on what they were called with (`BulkCreate.Bulk.Save`).
- The order of a parent's list is that of the whole stream. It is that of the parent's own rows exactly if they introduce
  its neighbours in the order in which the stream does (`JoinSpec.OwnOrderExactly`; `JoinSpec.OwnRowOrderIsNotKept` is a
  stream where they do not).
- A failed poll is meant to leave the pool at its last size, and does so for every `WorkerError`. A reply that is JSON but
  no object raises an `AttributeError` instead, which ends the pool (`WorkerPool.RuntimeConcurrency`,
  `WorkerPool.RunWorkerPool`).
- The text of a failed run is read back exactly for exit codes of at most three digits; otherwise the reason is
  `worker_failed` (`FailureReport.RunFailureIsReadBack`).
- A slot's worker id fits 128 characters exactly while its suffix does (`SlotIdentity.LimitHoldsExactlyWhenSuffixFits`).
- `run_once` converts the task id before its `try` block, so an id that is no number is an exception of the round and is
  not reported (`TaskProtocol.RunOnce`, `TaskProtocol.RoundsWithoutTask`).
- Comparing each (package, advisory) key once gives the verdict of checking every finding exactly if findings under one
  key agree on severity or some finding has no id (`AuditGate.OnceIsPlainExactly`).

## Model

| member | source | states |
|---|---|---|
| Accounts.ScanValues | backend/ent/account.go:190-211 | one target per column, of the type assignValues will ask for, unknown and repeated columns included |
| Accounts.ScannedIsNeverMistyped | backend/ent/account.go:190-439 | the two switches agree on every column, so a scanned buffer is never refused for its type |
| Accounts.MistypedMeans | backend/ent/account.go:215-439 | column by column, named, which type of buffer is refused |
| Accounts.BufferMeans | backend/ent/account.go:215-439 | what each type of buffer gives a scalar field, nothing for NULL, and what it gives an ID, 0 for NULL |
| Accounts.Entity.AssignValue | backend/ent/account.go:215-439 | one column: exactly which error; only the named field changes, NULL changing nothing but the ID, and on an error nothing but that column's document |
| Accounts.Entity.AssignValues | backend/ent/account.go:215-439 | succeeds exactly if there are enough buffers, none is mistyped and every document unmarshals onto what those before it left; an error names the first column for which that fails; afterwards every scalar holds its last non-NULL value, every document the composition of its unmarshals, and unknown columns the last buffer |
| Accounts.LastScalarIsLast | backend/ent/account.go:215-439 | the value a field ends with is the one of the last non-NULL buffer under its column |
| Accounts.NullsLeaveUntouched | backend/ent/account.go:215-439 | a field all of whose buffers are NULL keeps its content |
| Accounts.Entity.SingleOrErr | backend/ent/account.go:124-131 | the edge if set, NotFound if only requested, NotLoaded otherwise (ParentOrErr likewise) |
| JoinSpec.FirstIdsExact | backend/ent/account_query.go:736-762 | the neighbours of a row stream, each once, in order of first appearance |
| JoinSpec.NaiveJoinExact | backend/ent/account_query.go:714-774 | a parent's list in the nested-loop join: exactly its linked neighbours, once each, in order of first appearance in the whole stream |
| JoinSpec.NaiveJoinUnique | backend/ent/account_query.go:714-774 | those facts determine the list |
| JoinSpec.SortedStreamGivesSortedLists | backend/ent/account_query.go:714-774 | a stream sorted by any column of the neighbour gives every parent a list in that order |
| JoinSpec.OwnOrderExactly | backend/ent/account_query.go:748-772 | a parent's list is in the order of its own rows if and only if they introduce its neighbours in the order of the whole stream |
| EagerLoading.AssignRow | backend/ent/account_query.go:736-762 | the join index after one more row is exact again; a neighbour is built from its first row only, and that is the only row whose documents can fail |
| EagerLoading.ReadNeighbors | backend/ent/account_query.go:736-762 | reading all rows succeeds exactly if the first row of every neighbour decodes, and leaves an exact index |
| EagerLoading.AssignToOwners | backend/ent/account_query.go:763-772 | in whatever order the set is visited, exactly its parents get the neighbour appended once; fails exactly on a nil parent |
| EagerLoading.StitchJoin | backend/ent/account_query.go:763-774 | through an exact index, every parent ends with the nested-loop join of the neighbours; succeeds exactly if every row names a parent |
| EagerLoading.LoadToMany | backend/ent/account_query.go:714-774 | loadGroups (and loadProxies): for every row stream and parent list each parent's list is the nested-loop join, its neighbours decoded from their first rows and no other edge touched; fails to decode exactly if such a row has a rejected document, else succeeds exactly if every row names a parent |
| EagerLoading.ShareHasIds | backend/ent/account_query.go:763-774 | a parent's list of entities has exactly the IDs of its nested-loop join, in that order, so what JoinSpec proves of the join holds of it |
| EagerLoading.OnlyTheLastGetsAList | backend/ent/account_query.go:714-774 | a parent gets the join of its ID if and only if no later parent has that ID or no row names it |
| EagerLoading.WantedExact | backend/ent/account_query.go:775-790 | the keys asked for are the distinct non-nil keys of the parents |
| EagerLoading.AssignToOne | backend/ent/account_query.go:790-806 | loadProxy (and loadParent): each parent, repeated or sharing a key or not, gets the last returned row with its key and nothing else of it changes; fails exactly on a row nobody asked for |
| EagerLoading.AssignChildren | backend/ent/account_query.go:915-932 | each child goes to exactly the parent its key names, in row order; fails exactly on a nil or unknown key |
| ColumnSelection.SpecColumns | backend/ent/account_query.go:1036-1058 | the ID first and once, everything selected, and the foreign keys of requested edges; all columns if nothing is selected |
| ColumnSelection.SelectionKeepsCounts | backend/ent/account_query.go:1036-1058 | a column is asked for as often as it was selected, the ID once, an added key once |
| RowSources.KeysAre | backend/ent/account_query.go:775-790 | the keys bound are the distinct non-nil keys in the column in order of first appearance; no other sequence is that |
| RowSources.ShareStands | backend/ent/account_query.go:736-772 | a node of a join gets, for each neighbour linked to it, the row in which that neighbour came first, in row order, told by position; nothing if a later node has its ID |
| RowSources.ReadableMeans | backend/ent/account_query.go:621-712 | a run can be decoded exactly if the rows of its own query can, and for each requested edge those of the query the edge sends: its path, the IDs or keys it binds |
| RowSources.HonestMeans | backend/ent/account_query.go:621-712 | the answers respect the query exactly if for each requested edge no row of its query belongs to a node that was not asked for |
| AccountQuery.ScanNodes | backend/ent/account_query.go:621-656 | succeeds exactly if every row decodes, and then every node holds exactly what its row says in every selected column |
| AccountQuery.FillJoin | backend/ent/account_query.go:657-663 | the block of a join edge, requested or not: how it ends, and exactly what it adds to every node |
| AccountQuery.FillProxy | backend/ent/account_query.go:664-669 | the block of the proxy edge: no query without a key; how it ends, and exactly what it adds to every node |
| AccountQuery.LoadChildren | backend/ent/account_query.go:900-932 | loadChildren with its nested query: succeeds exactly if the nested run does and every child names a node; a node gets the nested run's nodes whose rows name it, in row order |
| AccountQuery.SqlAll | backend/ent/account_query.go:621-712 | for a query with edges nested to any depth: it succeeds exactly if every row that has to be decoded can be and every row answers what was asked for; then nodes and neighbours are objects of their own, one for each row, and hold what their rows say, every requested edge of every node at every depth is the plain join of the rows, and no other edge is set; what that means in terms of the answers alone is proved in EdgeLookups |
| EdgeLookups.All | backend/ent/account_query.go:354-361 | from the plan and the answers: exactly when it succeeds, edge by edge; then one node for each row, decoded from it, each requested edge filled from the answer to that edge's own query, no other edge set, and the nested runs are those of the nested queries |
| EdgeLookups.NodesComeFromRows | backend/ent/account_query.go:621-656 | node k is decoded from row k of its own query, and its loadedTypes are the requested edges, named |
| EdgeLookups.ListComesFrom | backend/ent/account_query.go:657-690 | groups come from the join at the path of the groups edge, proxies from that of the proxies edge, bound to the IDs of the rows; children from the rows of the children edge that name the node: the list is decoded from these rows, by position, in order |
| EdgeLookups.SingleComesFrom | backend/ent/account_query.go:664-683 | proxy and parent come from the query of their own edge for the distinct keys in their own column: set exactly if a row has the node's key, and decoded from the last such row |
| EdgeLookups.NestedRunsAre | backend/ent/account_query.go:868-932 | the nested run of the parent edge is the run of its query for the distinct keys, made exactly if there are any; that of the children edge the run of its query for the IDs |
| EdgeLookups.LoadThenListOrErr | backend/ent/account.go:115-158 | a run followed by GroupsOrErr, ProxiesOrErr or ChildrenOrErr: NotLoaded exactly if not requested, else the neighbours decoded from exactly the rows of the answer to the edge's own query that are the node's, in order |
| EdgeLookups.LoadThenSingleOrErr | backend/ent/account.go:124-149 | a run followed by ProxyOrErr or ParentOrErr: NotLoaded exactly if not requested; the neighbour decoded from the last row of the edge's own query with the node's key; NotFound exactly if there is no key or no such row |
| LoadConservation.LoadConservesLinks | backend/ent/account_query.go:748-772 | the nested-loop joins of all parents hold exactly as many neighbours as there are distinct (parent, neighbour) pairs, even if parents share an ID |
| LoadConservation.RunConservesLinks | backend/ent/account_query.go:714-774 | the lists of a run, for groups and for proxies, hold as many neighbours as the answer to that edge's own query has distinct (node, neighbour) pairs |
| LoadConservation.RunConservesChildren | backend/ent/account_query.go:900-932 | the nodes of a run share out the nodes of the children's run: none lost, none twice, even if nodes share an ID |
| Projection.RowAgrees | backend/ent/account_query.go:1036-1058 | two selections make of one row entities with one ID that agree on every column both select or both omit, documents selected equally often included |
| Projection.SameSelectionAgreesFully | backend/ent/account_query.go:1036-1058 | under one selection they agree in everything |
| Projection.HonestAlike | backend/ent/account_query.go:621-712 | whether the rows answer what was asked for does not depend on any selection, at any depth |
| Projection.RunsMatch | backend/ent/account_query.go:621-712 | loaded runs of two queries that request the same edges hold the same edges between the same neighbours, at every depth, agreeing column by column |
| Projection.ProjectionIsInvisible | backend/ent/account_query.go:1036-1058 | running such queries one after the other: one condition on the rows and one on the documents decides each, and both results stand side by side as RunsMatch says |
| QueryClone.Append | backend/ent/account_query.go:47-50 | Go's append: in place while the capacity suffices, a new backing array otherwise |
| QueryClone.Builder.Clone | backend/ent/account_query.go:435-457 | fresh context and backing arrays, same steps, no modifiers |
| QueryClone.Builder.Do | backend/ent/account_query.go:47-75 | each builder call changes exactly its own step: what becomes of each of the eight, field by field |
| QueryClone.Query.WithParent | backend/ent/account_query.go:494-502 | the edge's query is replaced, nothing else changes (WithChildren likewise) |
| QueryClone.EditMeans | backend/ent/account_query.go:461-516 | which part of a query an edit changes and which parts it leaves alone; an edit of a nested query that is not there does nothing |
| QueryClone.ShareMeans | backend/ent/account_query.go:435-457 | in an interleaving each edit comes last for the query it goes to and does not reach the other |
| QueryClone.Clone | backend/ent/account_query.go:435-457 | a fresh, disjoint query with the same spec but for modifiers, through every nested query |
| QueryClone.CloneIsDuplicateExactlyWithoutModifiers | backend/ent/account_query.go:433-457 | the clone builds the same spec if and only if no query in the tree has a modifier |
| QueryClone.CloneForgetsLocks | backend/ent/account_query.go:1117-1141 | cloning an edited query gives the clone edited without its locks and modifiers, for every list of edits at every level; on Postgres the Unique(false) of a lock survives |
| QueryClone.CloneThenEdit | backend/ent/account_query.go:435-457 | any interleaving of edits, nested ones included, leaves each of the two as if the other had not been touched |
| AccountCreate.Builder.Defaults | backend/ent/account_create.go:542-600 | fills what is unset, never overwrites, and stops exactly at the first of created_at, updated_at, credentials and extra that is unset and has no default function; which fields it leaves set, named, and with which values |
| AccountCreate.Builder.Check | backend/ent/account_create.go:603-677 | accepts exactly if the fourteen fields it requires are set and the six validators accept what is set, all named; otherwise it reports the first field that offends, in its order, and whether it is missing or invalid |
| AccountCreate.DefaultsDecide | backend/ent/account_create.go:542-677 | after defaults, check accepts exactly the creatable builders; where defaults stopped, check refuses |
| AccountCreate.DefaultsThenCheck | backend/ent/account_create.go:542-677 | the same of what defaults leaves, told as a function of the fields set before |
| AccountCreate.CreatableMeans | backend/ent/account_create.go:542-677 | a builder is creatable exactly if name, platform and type are set, the four function defaults are set or available, and the validators accept the values given or defaulted |
| AccountCreate.DefaultsMean | backend/ent/account_create.go:542-600 | what defaults leaves, field by field |
| AccountCreate.Builder.SingleAccepts | backend/ent/account_create.go:512-540 | single save accepts exactly if name, platform and type are set, the four function defaults are set or available, and the validators accept the values given or defaulted; then the fields are completed by the defaults |
| AccountCreate.Builder.BulkAccepts | backend/ent/account_create.go:2138-2149 | so does bulk save, although it drops the error of defaults |
| BulkCreate.Bulk.BatchCreate | backend/ent/account_create.go:2155-2164 | is only ever reached with every spec slot filled, and logs them |
| BulkCreate.Bulk.RunHook | backend/ent/account_create.go:2175-2179 | for any hook: state only grows and the builders before it are left alone; at most one batch if it calls next at most once; rows stay checked if it hands on what it was called with; passing through gives exactly the inner result |
| BulkCreate.Bulk.Create | backend/ent/account_create.go:2142-2177 | the innermost mutator: on a foreign mutation or a failed check of the builder's own it fails and changes nothing; else the builder holds the mutation it was called with and its spec has that mutation's fields, whatever the rest of the chain does; on success the mutation is done and the node has the ID of its spec; the last builder's sends exactly the specs filled so far |
| BulkCreate.UncheckedRow | backend/ent/account_create.go:2142-2164 | a hook that hands on another mutation gets it into the batch although it does not pass check |
| BulkCreate.Bulk.Save | backend/ent/account_create.go:2130-2187 | every batch is complete; at most one with hooks that call next once; every row of every batch has passed check with hooks that hand on what they were called with; with pass-through hooks exactly one batch, in builder order, if all checks pass, and none and nothing done otherwise |
| BulkCreate.SaveAccounts | backend/ent/account_create.go:2130-2187 | with pass-through hooks a bulk save succeeds exactly if every builder has what a caller has to set and the driver takes the batch; the driver sees one batch, of every builder's own fields completed by the defaults, in order, or none; with hooks that hand on what they were called with, no row that lacks a required field reaches the driver |
| PoolSpec.ReapExact | tools/openai_oauth_reauth_worker.py:321-326 | live processes stay, exited ones go, up to the first that exited unasked |
| PoolSpec.FillExact | tools/openai_oauth_reauth_worker.py:330-335 | one fresh process for each missing slot up to the target, nothing else touched |
| PoolSpec.ReconcileKeepsSound | tools/openai_oauth_reauth_worker.py:320-335 | at most one process per slot, and no slot beyond the maximum |
| PoolSpec.RaisesExactlyOnCrash | tools/openai_oauth_reauth_worker.py:320-326 | it raises if and only if some process exited unasked |
| PoolSpec.ReconcileReaches | tools/openai_oauth_reauth_worker.py:320-335 | a normal return leaves 1..target occupied by live processes and everything above asked to stop |
| PoolSpec.LiveProcessesStay | tools/openai_oauth_reauth_worker.py:320-335 | a live process keeps its slot, asked to stop only if it was or lies above the target |
| PoolSpec.EveryRunIsSound | tools/openai_oauth_reauth_worker.py:337-353 | soundness over every sequence of exits and reconcile calls |
| PoolSpec.OrderlyRunsNeverRaise | tools/openai_oauth_reauth_worker.py:321-326 | a run in which processes only exit after being asked never raises |
| PoolSpec.StoppingFallsWithEachReap | tools/openai_oauth_reauth_worker.py:320-335 | at an unchanged target the number of stopping processes falls by exactly the number reaped |
| PoolSpec.StoppingNeverRises | tools/openai_oauth_reauth_worker.py:320-335 | the same over every run at that target |
| PoolSpec.PoolConverges | tools/openai_oauth_reauth_worker.py:320-335 | from any pool, whatever earlier targets: once all processes asked to stop have exited, the pool is exactly slots 1..target, live and unasked |
| PoolInterleaving.WatchedReapIsReap | tools/openai_oauth_reauth_worker.py:321-326 | exits during the first loop are exits before it, of processes it had still to look at, or after it |
| PoolInterleaving.WatchedCallIsCall | tools/openai_oauth_reauth_worker.py:320-335 | however processes exit during a call, it ends as a call between some exits and the others, raising exactly if that one does |
| PoolInterleaving.WatchedRunIsRun | tools/openai_oauth_reauth_worker.py:337-353 | every run with exits at any time is a run with exits between calls: it raises exactly if that one does, with the same pool |
| PoolInterleaving.WatchedRunsAreSound | tools/openai_oauth_reauth_worker.py:337-353 | hence one process per slot and no slot beyond the maximum, whenever processes exit |
| WorkerPool.Pool.Reap | tools/openai_oauth_reauth_worker.py:321-326 | the first loop on the heap refines PoolSpec.Reap, joining what it removes |
| WorkerPool.Pool.Reconcile | tools/openai_oauth_reauth_worker.py:320-335 | reconcile_worker_pool refines PoolSpec.Reconciled; every started process is joined and exited, or held by exactly one entry |
| WorkerPool.Pool.Shutdown | tools/openai_oauth_reauth_worker.py:354-362 | leaves no started process alive or unjoined, whether or not processes obey |
| WorkerPool.RuntimeConcurrency | tools/openai_oauth_reauth_worker.py:128-161 | exactly which replies give which target, which are a WorkerError and which raise something else |
| WorkerPool.TargetIsInForce | tools/openai_oauth_reauth_worker.py:345-353 | the target of a call is the one the last poll that brought one has brought, a WorkerError or no poll keeping it, and the configured one before that; no other target is |
| WorkerPool.RunWorkerPool | tools/openai_oauth_reauth_worker.py:337-362 | raises exactly in the first round whose poll is answered by JSON that is no object or by something unforeseen, or in which a process has exited unasked; until then each call reconciles to the target in force, and the pool goes through exactly that run; ends with every process joined however it ends |
| WorkerPool.PoolRunsAreSound | tools/openai_oauth_reauth_worker.py:337-353 | throughout, before and after each call, slots lie in 1..16 with one process each |
| WorkerPool.WorkerIdsDistinct | tools/openai_oauth_reauth_worker.py:330-335 | held processes have pairwise distinct worker ids |
| SlotIdentity.SlotIsRecoverable | tools/openai_oauth_reauth_worker.py:316-318 | the digits after the last dash of a derived id print the slot, for every base |
| SlotIdentity.SlotIdsDistinct | tools/openai_oauth_reauth_worker.py:316-318 | no two slots share an id, under one base or several |
| SlotIdentity.LimitHoldsExactlyWhenSuffixFits | tools/openai_oauth_reauth_worker.py:316-318 | the id has at most 128 characters exactly while the suffix does, as for all slots up to 999 |
| SlotIdentity.ShortBasesAreKept | tools/openai_oauth_reauth_worker.py:316-318 | the base is cut only if the whole id would not fit |
| SlotIdentity.LimitFailsForLongSlots | tools/openai_oauth_reauth_worker.py:316-318 | for every base there is a slot whose id is too long |
| FailureText.CodesAreStable | tools/openai_oauth_reauth_worker.py:38-38 | every value of OPERATION_CODES is a key that maps to itself |
| FailureReport.SortedSetExact | tools/openai_oauth_reauth_worker.py:257-258 | sorted(set(..)): strictly ascending, same elements |
| FailureReport.ReasonTextReadsBack | tools/openai_oauth_reauth_worker.py:257-258 | the reason part is a list of words of at most 159 characters that splits back into the labels found |
| FailureReport.GroupsAreUnique | tools/openai_oauth_reauth_worker.py:410-410 | a text matches the regular expression in at most one way |
| FailureReport.NeverAcrossOutputs | tools/openai_oauth_reauth_worker.py:252-257 | a marker is found in the joined output exactly if one of the two streams contains it |
| FailureReport.RunFailureIsReadBack | tools/openai_oauth_reauth_worker.py:251-259 | for every output, the printed text fits 256 characters and is read back, exactly for exit codes of at most three digits, as security_check, password_rejected, mfa_required or authorization_denied by the markers written, named |
| FailureReport.RunFailureSays | tools/openai_oauth_reauth_worker.py:251-259 | the printed text: the label of the last stage marker written, and the labels of the reason markers written, each once, ascending |
| FailureReport.MoreOutputNeverRetracts | tools/openai_oauth_reauth_worker.py:252-257 | writing more on either stream never lowers the stage nor removes a reason |
| FailureReport.TimeoutIsRecognised | tools/openai_oauth_reauth_worker.py:418-419 | the text of a run that took too long is read as a timeout |
| FailureReport.OnlyForeignCodesAreUnknown | tools/openai_oauth_reauth_worker.py:402-405 | "unknown" is answered exactly for an OperationWorkerError raised with a text that is no code of the table |
| FailureReport.OperationFailuresAreNormalised | tools/openai_oauth_reauth_worker.py:59-64 | it keeps exactly the codes of the table |
| FailureReport.CodesClassifyAsThemselves | tools/openai_oauth_reauth_worker.py:402-407 | a code is classified as itself, from its text or from its exception |
| FailureReport.ClassifyingTwice | tools/openai_oauth_reauth_worker.py:433-437 | what run_once classifies and fail classifies again is the single classification, but "unknown" becomes "worker_failed" |
| FailureReport.OnlyCodesAreSent | tools/openai_oauth_reauth_worker.py:174-175 | whatever reason fail is given, it sends a code of the table or "worker_failed" |
| TaskProtocol.ProcessPasswordClaim | tools/openai_oauth_reauth_worker.py:183-294 | raises the first failure in the order of the code, with its text, after exactly the calls before it, both written out |
| TaskProtocol.RunOnce | tools/openai_oauth_reauth_worker.py:422-439 | the calls of a whole round and how it ends, written out, for every claim and every outcome |
| TaskProtocol.CredentialsSentExactly | tools/openai_oauth_reauth_worker.py:183-294 | the credentials call is made exactly if profile, mode and engine are the supported ones, both ids positive, email and password there, root, node and script found, the runner exited with 0 with complete tokens that validate, and no progress report raised anything but a WorkerError; and then the round is these five calls, and a report if they were not accepted |
| TaskProtocol.TextMeans | tools/openai_oauth_reauth_worker.py:184-194 | str(value or default), by kind of value |
| TaskProtocol.WholeMeans | tools/openai_oauth_reauth_worker.py:189-190 | int(value or 0), by kind of value |
| TaskProtocol.RoundTrace | tools/openai_oauth_reauth_worker.py:183-294 | credentials at most once, exactly if the claim is deliverable, and then those the runner produced; fail exactly once and last if processing raised, never otherwise, hence never after "succeeded" |
| TaskProtocol.RoundsWithoutTask | tools/openai_oauth_reauth_worker.py:422-436 | without a usable task id the round is the claim alone |
| TaskProtocol.ReasonsAreCodes | tools/openai_oauth_reauth_worker.py:433-437 | every reported reason is a code of the table or "worker_failed" |
| TaskProtocol.FailedRunsAreTold | tools/openai_oauth_reauth_worker.py:251-259 | the last call of a round whose run failed reports the code of the markers written, or worker_failed for longer exit codes |
| TaskProtocol.TimeoutsAreTold | tools/openai_oauth_reauth_worker.py:244-245 | the last call of a round whose run took too long reports a timeout |
| TaskProtocol.ServerCodesAreTold | tools/openai_oauth_reauth_worker.py:291-293 | an error code in the server's own answer is reported unchanged, as the last call |
| AuditExceptions.ParseExceptions | tools/check_pnpm_audit_exceptions.py:23-48 | the loop refines the line-by-line specification, exception included |
| AuditExceptions.RaisesExactlyOnBrokenLines | tools/check_pnpm_audit_exceptions.py:12-41 | it raises exactly if some list item has text but no colon |
| AuditExceptions.SkippedLinesDoNotMatter | tools/check_pnpm_audit_exceptions.py:29-33 | blank lines, comments and headers can stand anywhere |
| AuditExceptions.EntriesAreNotEmpty | tools/check_pnpm_audit_exceptions.py:34-48 | no entry of the result is empty |
| AuditExceptions.DictExact | tools/check_pnpm_audit_exceptions.py:37-45 | with distinct keys, an entry's dictionary holds exactly its pairs |
| AuditExceptions.SplitPair | tools/check_pnpm_audit_exceptions.py:12-20 | a line `key: value` gives the key and the value, as it is when not quoted, its inside between quotes of either kind, whatever whitespace stands around them |
| AuditExceptions.RoundTrip | tools/check_pnpm_audit_exceptions.py:12-48 | printing any list of entries, each value as it is or between quotes of either kind, and reading the text gives it back, for any values without line breaks |
| AuditFindings.IterVulns | tools/check_pnpm_audit_exceptions.py:64-111 | the findings of both report formats in order, exceptions included |
| AuditFindings.FindingsMean | tools/check_pnpm_audit_exceptions.py:64-111 | it raises exactly if the report or an entry does, and otherwise yields exactly what the entries give, told on the entries |
| AuditFindings.FindingsInOrder | tools/check_pnpm_audit_exceptions.py:64-111 | first one finding for each advisory, then the others entry by entry and item by item |
| AuditFindings.PicksFirstTrue | tools/check_pnpm_audit_exceptions.py:51-61 | pick_advisory_id gives the first true candidate of seven, the last if none is, and raises exactly if it gets as far as a "cves" that is true but has no first item |
| AuditFindings.VulnerabilitiesExact | tools/check_pnpm_audit_exceptions.py:80-111 | "vulnerabilities" yields exactly the true ids of its items under their entry's key and severity; raises exactly on an entry that is no object or has titles that cannot be joined |
| AuditFindings.ViaPicksFirstTrue | tools/check_pnpm_audit_exceptions.py:88-95 | an item of "via" gives the first true candidate of five |
| AuditFindings.OneFindingPerAdvisory | tools/check_pnpm_audit_exceptions.py:66-78 | each entry under "advisories" yields exactly one finding, with the entry's own severity, its module name or else its name, and the first true id candidate; raises exactly on an entry that is no object or on such "cves" |
| AuditFindings.VulnerabilitiesHaveIds | tools/check_pnpm_audit_exceptions.py:80-111 | every finding from "vulnerabilities" has an id and a name |
| AuditFindings.DroppedExactlyWithoutIds | tools/check_pnpm_audit_exceptions.py:84-111 | such an entry yields nothing exactly if no item gives an id |
| AuditGate.BuildIndex | tools/check_pnpm_audit_exceptions.py:153-185 | the index holds the first well-formed exception of each key; no problem exactly if all are well formed with distinct keys |
| AuditGate.FitsMeansExcused | tools/check_pnpm_audit_exceptions.py:207-219 | a finding fits the index exactly if the list holds an unexpired exception for it of its severity or a blank one |
| AuditGate.Scan | tools/check_pnpm_audit_exceptions.py:189-219 | no problem exactly if every named high finding has an id and the first under each key fits; raises exactly on a mistyped severity |
| AuditGate.AgreementSuffices | tools/check_pnpm_audit_exceptions.py:191-206 | if findings under one key agree on severity, the scan equals the plain check |
| AuditGate.OnceIsPlainExactly | tools/check_pnpm_audit_exceptions.py:191-206 | it does so for every index exactly if they agree or some finding has no id |
| AuditGate.OrderDoesNotMatter | tools/check_pnpm_audit_exceptions.py:191-219 | with agreement the verdict depends only on which findings there are |
| AuditGate.OrderMattersWithoutAgreement | tools/check_pnpm_audit_exceptions.py:191-219 | two findings whose order changes the verdict |
| AuditGate.Judge | tools/check_pnpm_audit_exceptions.py:156-243 | exit 0 exactly if all exceptions are sound and every finding is excused once per key; with agreement, every finding |
| AuditGate.RunGate | tools/check_pnpm_audit_exceptions.py:142-243 | from the report and the lines of the list: exactly when it raises; exit 0 only if the list is in order and every named high or critical finding the report gives has an id and an unexpired exception of its package and advisory; exactly then, severities compared, if findings about one advisory agree on severity; and in every case exactly as Verdict says, once per advisory |
| AuditGate.ExcusesMean | tools/check_pnpm_audit_exceptions.py:153-219 | an indexed exception excuses a finding exactly if its five fields are there, package and advisory are the finding's, its date has not passed, and its severity is the finding's or blank |
| AuditGate.CaseDoesNotMatter | tools/check_pnpm_audit_exceptions.py:114-131 | findings and exceptions match whatever the case of severity and advisory and the whitespace around all three: writing any of them differently in that respect alone does not change how the gate ends |

## Left out

- The edges usage_logs, account_groups and account_proxies: their loaders are loadChildren's template again.
- AccountQuery.SqlAll: queries of the groups, proxy and proxies edges are known by the columns they select and have no edges of their own, since those lead to other tables; interceptors, field-name validation and driver errors are not modelled. The driver's answer depends on the edges that lead to the query and on the IDs asked for.
- QueryClone: one class stands for the query types of all edges, with two of the eight with* fields; the interceptor slice (copied like the others) and the sql selector are not modelled, and a query handed to With* is owned by it alone.
- QueryClone.Append: the capacity Go gives a grown array is taken as twice the length; only that it is new matters.
- BulkCreate.Bulk.Save: hooks are followed for a bounded number of actions, so each statement covers every finite prefix of a run; an error recorded before Save (it is returned at once), `OnConflict`, the context and the transaction are not modelled.
- AccountCreate.Builder.SingleAccepts: the hooks around a single save and the insert itself.
- Setters, Upsert and panicking variants, `account_update.go`, locks in SQL, transactions and JSON contents: forwards or foreign code.
- WorkerPool.RunWorkerPool: an interrupt in the middle of a reconcile call, between starting a process and entering it into the dictionary; the rounds' clock is reduced to whether a poll was due.
- TaskProtocol.RunOnce: removing the temporary directory, log messages, the environment of the runner, and a termination signal, which ends the process; runner, files and validation of credentials are outcomes given beforehand.
- credential_operation_reason is defined but not called by the modelled functions.
- AuditGate.RunGate: argument parsing, opening and decoding the files, and the wording and order of messages; problems are recorded as data.
- AuditFindings.IterVulns: the titles, which only end up in messages, except that joining them can raise.
