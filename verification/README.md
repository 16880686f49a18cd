# Verification of the HMS notification fanout daemon

A Dafny model of `hmnfd`, the daemon that receives State Change Notifications (SCNs) from the
State Manager, coalesces them, matches them against subscriptions held in a key-value store under
flat string keys, sends them on, and prunes subscribers that are gone.

| file | what it models |
|---|---|
| `types.dfy`, `text.dfy` | the JSON records; Go's Split, Index, Contains, ToLower and key order, with their laws |
| `subscription_key.dfy` | the encoder of subscription keys, the parser, and their round trip |
| `scanners.dfy` | the substring shortcuts that read owners and attributes off raw keys, and exactly when they are right |
| `store.dfy` | the key-value store with faults, the range read, the prune map |
| `coalescer.dfy` | the SCN cache (`jdCache`, `jdCount`, `scnQ`) as a class, and its laws over all runs |
| `fanout.dfy` | `intersect`, `doScn`, the send loop, the dead-node pass |
| `batching.dfy` | fanning out batches means the same as fanning out the SCNs they merge |
| `availability.dfy` | when the batch an SCN goes into changes whether its components count as unavailable |
| `subscriptions.dfy` | the handlers of POST, PATCH, the three DELETEs, prune and the listing by xname |
| `subscription_laws.dfy` | what those handlers' effects add up to, and the store invariant |
| `handler_laws.dfy` | the handlers in terms of what a client sends: what is stored, replaced, listed, queued and marked |
| `hsm_tracker.dfy` | the loop that subscribes with the State Manager, over shared maps |
| `service.dfy` | whole runs with every request as one step |
| `hsm_coverage.dfy` | the service and that loop together: when all stored attributes are asked for |
| `interleaving.dfy`, `interleaved_runs.dfy` | the same requests cut into single store calls and lock holds, interleaving freely |
| `interleaved_coverage.dfy` | the State Manager's loop when requests interleave |
| `interleaved_laws.dfy`, `interleaved_ends.dfy` | what single requests still guarantee when others interleave, and that they end |

The handlers are methods over classes with the source's shared state (the store, the prune map, the
cache, the job pool, the tracker's maps). Each is proved against a function that describes the state
it leaves; the laws are lemmas about those functions. `service.dfy` puts the functions together into
a transition system (`Step`), proves that the handlers carry out its steps, and proves what holds in
every run. `interleaving.dfy` gives the same requests as sequences of small steps, proves that a
request left alone takes the atomic step, and `interleaved_runs.dfy` and `interleaved_laws.dfy` prove
invariants, provenance and what single requests still do when any number of them interleave.

Where Go would panic on an index or a slice, the method has a precondition (`ScanSafe`, `PatchSafe`,
`NodesListed`, `Parsable`). These are not assumptions of the run theorems: `NothingPanics`
discharges all of them from the store invariant, which holds in every run.

## Hypotheses

* A subscription is `Sound` if its xname starts with one of the letters of the xname library's types
  (a, d, p, s or x) and contains neither `#` nor `@`, if neither its xname nor its attribute values
  contain the letters `svc`, and if its agent contains no `#`. The API's enumerations guarantee this
  for values; the code does not check it. The xname library does not guarantee it either: `all_svc`
  is an accepted type, and the partition type's pattern has an unescaped dot, which lets any
  character through (`vendor/github.com/Cray-HPE/hms-xname/xnametypes/hmstypes.go:145` and `:161`).
  `ScannerExact`, `PatchScannerExact`, `AgentlessScanExact`, `AgentlessPatchScanExact` and
  `PatchOverrunExact` say exactly when each search goes wrong without it, and `XnameReadExactly` when
  the owner's xname is read correctly; `AllSvcMisread`, `DeleteNeedsSvcFree`, `PatchNeedsSvcFree` and
  `PartitionMisread` are witnesses.
* `SoundInput` asks of each accepted request that its subscription is sound, and of a v2 PATCH that
  its body has components and a Url. `PatchV2KeepsInvExactly` shows that the last part is needed.
* A run is that of one process. It begins on any store of sound keys and usable records, whatever an
  earlier process left, with an empty prune map, cache and queue.
* The results on coverage assume that the subscriptions of accepted POSTs and PATCHes have plain values
  and owners, so that keys tell their attributes; a key found at start-up that no plain subscription
  prints counts as covered.
* Provenance assumes that no SCN names a component called `bad_sub` or one containing `@`
  (`PlainComponents`): such a name would be taken for another subscriber's prune entry.
* The key round trip assumes attribute values without `#` and `.`, and an agent without either.
* `BatchingPreservesMeaning` assumes available SCNs, Enabled on all or none of them, and SubRole
  determined by the fields the cache compares. `BatchesTellAsStamped` needs none of this and says, for
  unavailable SCNs too, what is told instead. `MergeFaithfulExactly` and `CopyFaithfulExactly` give the
  exact conditions for one merge and for one copy into the cache; a merge of unavailable SCNs with one
  and the same header already fails, because its fanout leaves out the owners that the second one adds.

## Where the code and its comments or documentation disagree

The model follows the code.

* `cmd/hmi-nfd/api.go:347-349` says that a prune entry is kept when a delete fails; `prune` empties
  the whole map regardless (`Prune`, `PruneExact`).
* A DELETE's mark is there to stop queued sends, but the next prune round also takes it as an order
  to delete: a subscription made again within the interval is lost (`ResubscriptionIsPruned`), and so
  are the owner's other subscriptions and, after an agent-less one was deleted, those of all agents of
  the component (`DeleteThenPruneExactly`).
* v2 PATCH does not run the check its POST does, and takes the range it searches from the body
  although the owner comes from the path (`PatchV2KeepsInvExactly`, `V2RangeExactly`,
  `V2RangeMisses`).
* The cache comparison ignores SubRole, and the copy into the cache inherits an old Enabled
  (`SubRoleIsLost`, `EnabledIsInherited`). So components of an SCN that reports nothing bad can be
  marked for pruning, and a disabling SCN can be sent out as not disabling (`ArrivalExactly`).
* Neither PATCH handler tells the State Manager's loop of the attributes it stores, and a process that
  finds subscriptions in the store asks only for the start-up list (`cmd/hmi-nfd/hmnfd.go:652-674`):
  the comment at `cmd/hmi-nfd/fanout.go:50-51` says that the stored tracking data serve discovery on
  startup, but nothing but the health check reads them (`AlwaysCoveredExactly`).
* Two POSTs of one key can both pass the check for an existing key when they interleave
  (`PostOverwritesExactly`), and a PATCH whose store call fails after its delete has lost the
  subscription, but answers success (`PatchLosesExactly`).
* A failed subscription with the State Manager is to be retried, but its attributes already count as
  subscribed, so only one that asks for Enabled may be sent again (`FailedPostRecoversExactly`).
* The comments of the store library call a range read unsorted and closed at its end; etcd itself
  answers in key order over a half-open range, and that is what `Store` models.

## Model

| member | source | states |
|---|---|---|
| Coalescer.ScnCache.ScnHandler | cmd/hmi-nfd/api.go:1174-1204 | One accepted SCN: opens an empty cache, merges an SCN the cache calls equal (and emits the batch at Scn_max_cache), or emits the cached batch and starts over; the whole new cache, count and queue. |
| Coalescer.ScnCache.DeepCopy | cmd/hmi-nfd/api.go:1213-1226 | The header is replaced field by field, except that an SCN without Enabled leaves the old Enabled in the cache. |
| Coalescer.ScnCache.CheckScnCache | cmd/hmi-nfd/api.go:1249-1262 | The periodic check emits a cache with components and resets cache and count, and changes nothing otherwise. |
| Coalescer.ScnCache.NextScn | cmd/hmi-nfd/api.go:1266-1268 | The consumer takes the oldest queued batch and leaves the rest in order. |
| Coalescer.RunInv | cmd/hmi-nfd/api.go:1174-1262 | In every reachable state every emitted batch, and the cache, is accounted for by its own consecutive group of accepted SCNs, and jdCount is the size of the open group. |
| Coalescer.CoalescingConserves | cmd/hmi-nfd/api.go:1174-1275 | Handled batches, queued batches and the cache together hold the components of all accepted SCNs, in arrival order: nothing lost, invented or reordered. |
| Coalescer.BatchesAreConsecutiveRuns | cmd/hmi-nfd/api.go:1174-1262 | The accepted SCNs fall into consecutive groups, one per emitted batch; each batch is non-empty and shares State, Flag, SoftwareStatus and Role with the SCNs of its group that have components; jdCount is 0 only with an empty cache. |
| Coalescer.BatchSizeBound | cmd/hmi-nfd/api.go:1178-1204 | With Scn_max_cache at most M throughout, the cache at rest holds at most max(1, M-1) SCNs with components and no batch merges more than max(2, M) of them. |
| Coalescer.AcceptSplitsExactly | cmd/hmi-nfd/api.go:1174-1243 | After any run, an SCN that meets an open batch ends it if and only if State, Flag, SoftwareStatus or Role differ, or one of the two reports Enabled true and the other does not, or it fills the batch; what is queued, what stays open and under which header is given for every case. |
| Coalescer.PairMergedExactly | cmd/hmi-nfd/api.go:1186-1243 | Two SCNs with components, whatever Scn_max_cache, go out as one batch of both if and only if they agree in State, Flag, SoftwareStatus, Role and in reporting Enabled true, and otherwise as two. |
| Coalescer.SubRoleIsLost | cmd/hmi-nfd/api.go:1229-1243 | Because SubRole is not compared, components of an SCN that differs only in SubRole are sent out under another SCN's SubRole. |
| Coalescer.EnabledIsInherited | cmd/hmi-nfd/api.go:1219-1222 | A witness that copying can change an SCN: one without Enabled that follows a disabling one is sent out as disabling its own components; Batching.CopyFaithfulExactly says exactly when. |
| Batching.TellsExactly | cmd/hmi-nfd/api.go:1289-1404 | With any marks in force, fanning out an SCN tells a subscription about a component if and only if the key is scanned and matched, the SCN lists the component, the node list selects it, and the SCN is available or the owner is neither marked nor listed. |
| Batching.BatchTellsAsStamped | cmd/hmi-nfd/api.go:1174-1204 | With no hypothesis on the SCNs and any marks: a batch tells exactly what its SCNs announce under the batch's SubRole and Enabled, except to owners its own fanout suppresses. |
| Batching.BatchesTellAsStamped | cmd/hmi-nfd/api.go:1174-1275 | The same for every batch of every run, over a partition of all accepted SCNs. |
| Batching.BatchingPreservesMeaning | cmd/hmi-nfd/api.go:1174-1262 | For any run that leaves the cache empty, of available SCNs with Enabled on all or none and SubRole determined by the compared fields, the (subscription, component, header) notices of the batches are those of the SCNs sent one by one, whatever is marked on either side. |
| Batching.TickFlushes | cmd/hmi-nfd/api.go:1249-1262 | A run that ends in a cache tick leaves the cache empty, whatever came before. |
| Batching.MergeFaithfulExactly | cmd/hmi-nfd/api.go:1229-1243 | Merging an SCN that the cache comparison calls equal tells, for every store and all marks, what handling the two in order tells, if and only if it has no components; or agrees in SubRole and Enabled too and, when unavailable and merged into components, adds none that could own a subscription; or has no attribute to match by and adds no component. |
| Batching.MergeMarksExactly | cmd/hmi-nfd/api.go:1289-1297 | Merging marks what the two mark apart if and only if both or neither are unavailable, or the second one adds nothing to mark. |
| Batching.CopyFaithfulExactly | cmd/hmi-nfd/api.go:1213-1226 | An SCN copied into the cache tells, for every store and all marks, what it tells by itself, if and only if it has no components, or carries Enabled, or the cache has no Enabled left to inherit. |
| Availability.MarksOfBatch | cmd/hmi-nfd/api.go:1289-1297 | A batch marks an xname if and only if one of the SCNs it merges lists it and is unavailable under the batch's Enabled. |
| Availability.MemberVerdict | cmd/hmi-nfd/api.go:267-282 | A merged available SCN is treated as unavailable if and only if it is silent about Enabled and its batch disables; an unavailable one is treated as available if and only if it only disables and its batch is silent. |
| Availability.ArrivalExactly | cmd/hmi-nfd/api.go:1174-1204 | The same decided by what a caller can see when the SCN arrives: an available SCN will be treated as unavailable if and only if it is silent about Enabled and the cache still holds a disabling Enabled; an unavailable one is spared if and only if it only disables and is merged into a silent cache. |
| Availability.VerdictStaysInRun | cmd/hmi-nfd/api.go:1174-1262 | Whatever is received or ticks afterwards, the batch open at some point of a run is sent with the verdict it had then. |
| Availability.SentAsDecided | cmd/hmi-nfd/api.go:1174-1262 | So in every run an SCN with components goes out in a batch with the verdict decided when it arrived. |
| Availability.CarriedAtPlace | cmd/hmi-nfd/api.go:1174-1262 | And that batch, whenever it is sent, carries the SCN's State, Flag, Role and SoftwareStatus and all its components. |
| Availability.QueuedMarksAreReported | cmd/hmi-nfd/api.go:1266-1305 | In every run of the cache, an xname a queued batch marks was listed by a received SCN that is unavailable, or that is silent about Enabled while another received SCN disables. |
| SubscriptionKey.MakeSubscriptionKeyV2 | cmd/hmi-nfd/api.go:1047-1105 | Building the key string value by value prints exactly the key's tokens, joined. |
| SubscriptionKey.MakeSubscriptionKeyV1 | cmd/hmi-nfd/api.go:1107-1118 | The v1 key is the v2 key of the owner named by the agent@xname text, lower-cased. |
| SubscriptionKey.PopulateSubinfo | cmd/hmi-nfd/api.go:1534-1567 | One split token extends exactly the field its tag names; an agent token fills Subscriber, SubscriberComponent and SubscriberAgent. |
| SubscriptionKey.ParseSubscription | cmd/hmi-nfd/api.go:1615-1622 | The listing loop computes the parse of the key on every key it can index. |
| SubscriptionKey.TokensOf | cmd/hmi-nfd/api.go:1047-1105 | Splitting a printed key at the key delimiter gives back exactly the tokens it was printed from, the agent token last. |
| SubscriptionKey.RoundTrip | cmd/hmi-nfd/api.go:1534-1567 | Parsing a printed key returns xname, agent and the lower-cased attribute lists in order, with Enabled true exactly if it was given. |
| SubscriptionKey.KeyInjective | cmd/hmi-nfd/api.go:1047-1105 | Two requests share a key if and only if they have the same owner and the same attribute lists up to letter case and to the value inside Enabled. |
| SubscriptionKey.KeySpelled | cmd/hmi-nfd/api.go:1047-1105 | The key letter by letter for every subscription: categories in the source's order, each only if it has values, each value lower-cased behind a dot. |
| SubscriptionKey.ReencodeParsed | cmd/hmi-nfd/api.go:1047-1118 | Printing a parsed key again, through either API's encoder, gives the same key. |
| Scanners.ScannersFindAgent | cmd/hmi-nfd/api.go:828-836 | On every printed key whose xname and values are free of "svc", the first-"svc" search and PATCH's "svc." search both return the agent the key was printed with, and neither slices out of range. |
| Scanners.ScannerExact | cmd/hmi-nfd/api.go:964-968 | The first-"svc" search returns every possible agent of a subscription if and only if its xname and values are free of "svc". |
| Scanners.AllSvcMisread | vendor/github.com/Cray-HPE/hms-xname/xnametypes/hmstypes.go:145 | "all_svc" is a type of xname the library accepts, and some agent under it is misread. |
| Scanners.PatchScannerExact | cmd/hmi-nfd/api.go:828-836 | PATCH's search returns every possible agent if and only if neither the xname nor a value contains "svc." and no value but the last of its category ends in "svc". |
| Scanners.AgentlessScanExact | cmd/hmi-nfd/api.go:964-968 | On a key without an agent the first-"svc" search finds none if and only if xname and values are free of "svc", and slices past the end if and only if the only "svc" ends the key. |
| Scanners.AgentlessPatchScanExact | cmd/hmi-nfd/api.go:828-836 | On a key without an agent PATCH's search finds none under exactly the condition of PatchScannerExact. |
| Scanners.PatchOverrunExact | cmd/hmi-nfd/api.go:829-834 | PATCH's relative-index branch slices backwards if and only if a key delimiter follows the first "svc." and the text between the two is no longer than the text before. |
| Scanners.DeleteNeedsSvcFree | cmd/hmi-nfd/api.go:964-968 | A witness: a subscription to a state called svc makes the DELETE search slice past the end. |
| Scanners.PatchNeedsSvcFree | cmd/hmi-nfd/api.go:829-834 | A witness: a state ending in svc followed by another category makes PATCH's branch slice backwards. |
| Scanners.AttributeInSegment | cmd/hmi-nfd/api.go:1324-1330 | A delimiter-free attribute is contained in a key if and only if it occurs inside one of the pieces between delimiters. |
| Scanners.ListedAttributeFound | cmd/hmi-nfd/api.go:1321-1330 | Every value a subscription lists, and "enbl" if it lists Enabled, is found in its key by substring search. |
| Scanners.XnameReadExactly | cmd/hmi-nfd/api.go:1335-1336 | The second token of a printed key, which every handler takes for the owner's xname, is that xname if and only if the xname has no key delimiter. |
| Scanners.PartitionMisread | vendor/github.com/Cray-HPE/hms-xname/xnametypes/hmstypes.go:161 | A witness that the library accepts others: partition p0#1 is read as p0. |
| Scanners.ScannedExactly | cmd/hmi-nfd/api.go:172-173 | The scan of all subscriptions reads a printed key if and only if its xname starts with a letter from a to y. |
| Scanners.ScannedHasXname | cmd/hmi-nfd/api.go:172-173 | Every key in the scanned range has an xname token, so indexing it is in range. |
| Scanners.PatchRangeCovers | cmd/hmi-nfd/api.go:806-807 | Every key of a component lies in the range PATCH reads for that component. |
| Store.KvStore.GetRange | vendor/github.com/Cray-HPE/hms-hmetcd/kvs_etcd.go:218-236 | A successful range read lists exactly the records of the half-open range, each once, in key order. |
| Store.ListingUnique | vendor/github.com/Cray-HPE/hms-hmetcd/kvs_etcd.go:218-236 | There is only one such list, so a range read is a function of the store's content. |
| Store.KvStore.Get | vendor/github.com/Cray-HPE/hms-hmetcd/kvs_etcd.go:154-177 | A read reports presence, or an error; it changes nothing. |
| Store.KvStore.Put | vendor/github.com/Cray-HPE/hms-hmetcd/kvs_etcd.go:274-280 | A store call writes one record, or fails and changes nothing. |
| Store.KvStore.Delete | vendor/github.com/Cray-HPE/hms-hmetcd/kvs_etcd.go:306-312 | A delete removes one key, or fails and changes nothing. |
| Fanout.Intersect | cmd/hmi-nfd/api.go:213-257 | The buffer-filling loops compute the selection for "all" (the list itself), "allnodes" (its node-shaped elements with repetitions, in place) and explicit lists (each common element once, in the order the SCN first has them), with every write inside the pre-sized buffer. |
| Fanout.NodeShapedExactly | cmd/hmi-nfd/api.go:236 | A name counts as a node if and only if it is x, anything on one line, b and digits, n and digits. |
| Fanout.CommonNodesExact | cmd/hmi-nfd/api.go:213-257 | A component is selected if and only if the SCN lists it and the subscriber's node list is interested in it. |
| Fanout.FirstCommonOrdered | cmd/hmi-nfd/api.go:241-253 | An explicit node list selects each common component once, in the order of the SCN's first mentions. |
| Fanout.SelectionExactly | cmd/hmi-nfd/api.go:229-253 | What every node list selects from every component list, with order and repetitions, case by case. |
| Fanout.GetScnAttrs | cmd/hmi-nfd/api.go:1015-1034 | The attribute list is built field by field in the source's order. |
| Fanout.ScnMatchesExactly | cmd/hmi-nfd/api.go:1321-1330 | For an SCN of delimiter-free fields the attribute loop over raw keys matches if and only if some piece between a key's delimiters carries its Enabled tag, role, subrole, state or software status. |
| Fanout.DoScn | cmd/hmi-nfd/api.go:1279-1438 | Handling one SCN marks exactly the components of an unavailability notice and appends exactly the jobs the store's listing calls for; a failed range read queues nothing but keeps the marks. |
| Fanout.FanoutIsFilterMap | cmd/hmi-nfd/api.go:1321-1414 | The fanout is, in key order, one job per scanned key that matches, is not suppressed and has a non-empty intersection, and no other. |
| Fanout.JobsRepeatTheScn | cmd/hmi-nfd/api.go:1344-1372 | Every job goes to the key's xname and the stored Url, repeats the SCN's header except Flag, and lists exactly the components that the stored node list selects from the SCN's, in the order and with the repetitions of that selection. |
| Fanout.NothingToTheUnavailable | cmd/hmi-nfd/api.go:1289-1305 | An unavailability notice is queued neither for an xname it lists nor for one already marked. |
| Fanout.NoMissedNotification | cmd/hmi-nfd/api.go:1321-1404 | An unsuppressed subscription that asks for an attribute of the SCN and is interested in one of its components gets a job naming that component. |
| Fanout.SendScnToSubscriber | cmd/hmi-nfd/fanout.go:361-452 | Sending makes the stated number of attempts and marks the subscriber exactly when it is given up; an empty Url or an existing mark means no attempt. |
| Fanout.SendExact | cmd/hmi-nfd/fanout.go:396-445 | For every sequence of outcomes the loop stops at the first 200 or refusal, respects the retry limit, and gives up if and only if a refusal precedes any 200 or no attempt gets a 200. |
| Fanout.SendMarksExactly | cmd/hmi-nfd/fanout.go:361-445 | For every job and sequence of outcomes: no attempt for an empty Url or a marked subscriber; otherwise attempts up to the first 200 or refusal or the limit, and the subscriber is marked if and only if the last one was not answered with 200. |
| Fanout.PruneDeadWood | cmd/hmi-nfd/fanout.go:519-540 | The dead-node pass marks exactly the owners of scanned subscriptions that are reported in a bad state. |
| Subscriptions.MakeSubscriptionEntry | cmd/hmi-nfd/fanout.go:322-341 | Stores Url and components under the key, or reports the failed call and changes nothing. |
| Subscriptions.DoSubscribePost | cmd/hmi-nfd/api.go:667-738 | POST v1 stores one new record if and only if the body passes, the xname is known, the key is new and both calls succeed. |
| Subscriptions.SubscriptionsAgentPost | cmd/hmi-nfd/api_v2.go:190-303 | POST v2 likewise, for the owner named in the path. |
| Subscriptions.SubscriptionsAgentDelete | cmd/hmi-nfd/api_v2.go:38-120 | Deletes exactly the scanned records of this xname and agent, marks their owners, and reports a match even if every delete failed. |
| Subscriptions.SubscriptionsXNameDelete | cmd/hmi-nfd/api_v2.go:122-188 | Deletes exactly the scanned records of this xname and marks their owners. |
| Subscriptions.DoSubscribeDelete | cmd/hmi-nfd/api.go:905-1005 | DELETE v1 deletes exactly the scanned records whose owner and Url equal the body's up to letter case, and marks their owners. |
| Subscriptions.SubPrune | cmd/hmi-nfd/api.go:312-355 | Deletes exactly the scanned records whose xname or agent@xname is marked and whose deletion succeeds. |
| Subscriptions.Prune | cmd/hmi-nfd/api.go:368-381 | One round: SubPrune, after which the prune map is empty even if calls failed. |
| Subscriptions.DoSubscribePatch | cmd/hmi-nfd/api.go:761-890 | PATCH v1 replaces the first record of its range with the body's owner and Url, step by failing step, and does nothing if the body is rejected. |
| Subscriptions.SubscriptionsAgentPatch | cmd/hmi-nfd/api_v2.go:314-446 | PATCH v2 replaces the first record of the range named by the body that belongs to the owner named by the path; the body is not checked. |
| Subscriptions.SubscriptionsXNameGet | cmd/hmi-nfd/api_v2.go:457-555 | An invalid xname is refused before the store is read; otherwise the listing parses exactly the scanned records of the xname, in key order. |
| SubscriptionLaws.OwnerRead | cmd/hmi-nfd/api.go:333-337 | Everything any handler reads off a sound subscription's key by substring search is its true owner. |
| SubscriptionLaws.SoundIsParsable | cmd/hmi-nfd/api.go:1534-1567 | Every sound subscription's key can be parsed without an index out of range, even if its values contain delimiters. |
| SubscriptionLaws.NothingPanics | cmd/hmi-nfd/api.go:224 | In a sound store no handler's index or slice expression is out of range, including the first element of a node list. |
| SubscriptionLaws.PruneExact | cmd/hmi-nfd/api.go:312-381 | A prune removes a subscription if and only if its xname or agent@xname is marked and the calls succeed, and leaves its record unchanged otherwise. |
| SubscriptionLaws.AgentDeleteExact | cmd/hmi-nfd/api_v2.go:70-106 | The agent DELETE removes a subscription if and only if it names its xname and agent and the calls succeed. |
| SubscriptionLaws.XnameDeleteExact | cmd/hmi-nfd/api_v2.go:151-186 | The xname DELETE removes a subscription if and only if it names its xname and the calls succeed. |
| SubscriptionLaws.BodyDeleteExact | cmd/hmi-nfd/api.go:957-1003 | DELETE v1 removes a subscription if and only if its body names the owner and the Url, in any letter case, and the calls succeed. |
| SubscriptionLaws.FirstMatchLeast | cmd/hmi-nfd/api.go:822-887 | PATCH replaces the least key it could, and replaces one whenever there is one. |
| SubscriptionLaws.PatchIsLocal | cmd/hmi-nfd/api.go:853-885 | When calls succeed a PATCH changes at most one existing record; the store keeps its size, or loses one record if the new key was already there. |
| SubscriptionLaws.PatchLosesExactly | cmd/hmi-nfd/api.go:853-889 | A PATCH that finds a record leaves the store without the old and without the new one, though it answers success, if and only if the new key differs and is not stored yet, the old one is deleted and the store call fails. |
| SubscriptionLaws.PatchTouchesOneOwner | cmd/hmi-nfd/api.go:822-887 | Whatever calls fail, a PATCH of either version leaves the records of every other owner as they were: removed and written keys belong to one (xname, agent). |
| SubscriptionLaws.PatchRangeExactly | cmd/hmi-nfd/api.go:806-807 | A key is in PATCH's range if and only if it continues the start with nothing or with a character below z. |
| SubscriptionLaws.V1RangeComplete | cmd/hmi-nfd/api.go:800-836 | PATCH v1's range-limited scan finds the same record as a scan of all subscriptions. |
| SubscriptionLaws.V2RangeExactly | cmd/hmi-nfd/api_v2.go:355-366 | For every text the body may name: PATCH v2 finds in every sound store the record a full scan finds, if and only if that text is the path's xname or a prefix of it that goes on below z, or is the xname and a key delimiter and the path names an agent. |
| SubscriptionLaws.V2RangeMisses | cmd/hmi-nfd/api_v2.go:355-366 | If a delimiter-free body does not meet that condition, PATCH v2 finds nothing in any sound store, although it answers success. |
| SubscriptionLaws.AgentDeletesAddUp | cmd/hmi-nfd/api_v2.go:70-106 | Agent DELETEs in any order remove and mark exactly the records of the agents they name. |
| SubscriptionLaws.XnameDeleteIsAllAgentDeletes | cmd/hmi-nfd/api_v2.go:151-186 | The xname DELETE leaves the store and prune map of one agent DELETE per agent (the empty one included), in any order, and no other xname's record is touched. |
| SubscriptionLaws.ChecksAskForSomething | cmd/hmi-nfd/api.go:591-633 | The trigger check holds if and only if the body asks for some attribute; an accepted body has components, a Url and such an attribute, and v1 accepts no more than v2. |
| SubscriptionLaws.PostKeepsInv | cmd/hmi-nfd/api.go:643-751 | A POST of a sound subscription keeps the store invariant, whatever calls fail. |
| SubscriptionLaws.RemovalKeepsInv | cmd/hmi-nfd/api.go:957-1003 | No removal breaks the store invariant. |
| SubscriptionLaws.PatchV1KeepsInv | cmd/hmi-nfd/api.go:786-885 | PATCH v1 keeps the store invariant, whatever calls fail. |
| SubscriptionLaws.PatchV2KeepsInvExactly | cmd/hmi-nfd/api_v2.go:344-353 | PATCH v2, which does not check its body, keeps the store invariant if and only if it finds nothing to replace or its body has components and a Url. |
| SubscriptionLaws.StoredIsListed | cmd/hmi-nfd/api_v2.go:499-535 | A stored subscription is listed for its component as it was requested, lower-cased, with its components and Url; nothing but stored records is listed. |
| HandlerLaws.OwnerV1Exactly | cmd/hmi-nfd/api.go:685-692 | With at most one '@' in a Subscriber, the owner of v1 is what follows it and what precedes it, lower-cased, and what follows it is the text POST checks to be an xname. |
| HandlerLaws.CarriedOutExactly | cmd/hmi-nfd/api.go:591-640 | A request passes its handler's checks if and only if, in the fields as the client wrote them, v1 has a Subscriber with at most one '@', v2 an xname, POST a known xname, and all but PATCH v2 components, a Url and something to be notified of. |
| HandlerLaws.PostExactly | cmd/hmi-nfd/api.go:667-738 | A POST of either version stores the lower-cased components and Url under the key of body and owner, and changes nothing else, if and only if it is to be carried out, the store answers and does not have the key; otherwise it changes nothing. |
| HandlerLaws.PatchStartExactly | cmd/hmi-nfd/api.go:800-807 | Where the range of both PATCHes begins: after the first '@' of the body's Subscriber, unless the text starts with it. |
| HandlerLaws.PatchV1Exactly | cmd/hmi-nfd/api.go:800-887 | Whatever calls fail: of the stored subscriptions whose agent@xname is the body's Subscriber and whose Url is the body's, the first in key order makes way for the body's; without one, or if the read fails, nothing changes; what a failing delete or store leaves is given; every other record stays, the owner's with another Url included. |
| HandlerLaws.PatchV2Exactly | cmd/hmi-nfd/api_v2.go:345-446 | Likewise for v2: the first stored subscription of the path's owner in the range the body gives makes way for the body's, whatever its Url. |
| HandlerLaws.PostedIsNotified | cmd/hmi-nfd/api.go:1289-1404 | From request to notification: while the record of an accepted POST is there, an SCN with an attribute the body lists and a component its list selects queues a job for that component to the body's Url, unless the owner is suppressed. |
| HandlerLaws.PostedIsListed | cmd/hmi-nfd/api_v2.go:499-535 | From request to listing: while the record of an accepted POST is there, a GET for its component has it with every field of the body in its place, lower-cased. |
| HandlerLaws.ListedInKeyOrder | cmd/hmi-nfd/api_v2.go:499-535 | A GET has exactly one entry per record of the component, in key order, each the parsed key with the stored components and Url. |
| HandlerLaws.AgentDeleteMatched | cmd/hmi-nfd/api_v2.go:38-118 | The agent DELETE reports a match if and only if a subscription of that owner is stored. |
| HandlerLaws.QueueExactly | cmd/hmi-nfd/api.go:1344-1404 | Running a job takes that job out of the queue and leaves the others in order; only the handling of an SCN whose range read succeeds adds to it, at its end. |
| HandlerLaws.MarksExactly | cmd/hmi-nfd/api.go:1289-1305 | After a step a name is marked if and only if it was, or the step handles an SCN that makes it unavailable, gives up a job for it, finds it dead and stored, or deletes a subscription under its label; after a prune none is. |
| HsmTracker.AddMissing | cmd/hmi-nfd/fanout.go:177-184 | One category loop, on a map shared with its copy: adds every value, and asks for a post exactly if one was missing. |
| HsmTracker.NeedHsmSubs | cmd/hmi-nfd/fanout.go:173-216 | Needs a post if and only if an attribute is not tracked; the shared maps are updated at once, and only Enabled waits for the copy to be kept. |
| HsmTracker.AttributesListed | cmd/hmi-nfd/fanout.go:173-217 | What a subscription can bring: its states, software status, roles and subroles, lower-cased and kept apart, and Enabled only if it is true. |
| HsmTracker.HsmSubscriber.ServeOne | cmd/hmi-nfd/fanout.go:272-296 | One pass of the loop: drop, post and track, or re-queue with everything but Enabled already tracked. |
| HsmTracker.EveryAttributePosted | cmd/hmi-nfd/fanout.go:262-311 | If every post succeeds, the tracker holds exactly the attributes of the subscriptions taken off the channel, and exactly those of the subscriptions posted. |
| HsmTracker.ChannelIsFifo | cmd/hmi-nfd/fanout.go:271-290 | Whatever fails: the subscriptions taken off the channel, followed by those still on it, are those that were on it followed by those put on it, new or retried, in the order they were put on. |
| HsmTracker.ServedInOrder | cmd/hmi-nfd/fanout.go:271-290 | So a failing post holds nothing up: with k passes and at least k subscriptions waiting, exactly the first k have been taken, in order, and the next one is at the front. |
| HsmTracker.PostsBounded | cmd/hmi-nfd/fanout.go:262-311 | Whatever fails, there are at most as many successful posts as tracked attributes, and Enabled is tracked if and only if a successful post asked for it. |
| HsmTracker.RetryPostsExactly | cmd/hmi-nfd/fanout.go:286-292 | After a failed post the re-queued subscription is posted later if and only if it asks for Enabled and no post has brought Enabled meanwhile. |
| HsmTracker.FailedPostRecoversExactly | cmd/hmi-nfd/fanout.go:286-296 | Whatever happens after a failed post: the subscription is posted at most once more, and is if and only if it asks for Enabled and comes off the channel, on a pass whose post succeeds, before another post brings Enabled. |
| HsmTracker.EnabledByPostOnly | cmd/hmi-nfd/fanout.go:207-211 | Enabled is tracked if and only if it was, or a successful post asked for it since. |
| HsmTracker.TrackedExactly | cmd/hmi-nfd/fanout.go:262-311 | Whatever fails, the tracker holds exactly what was posted together with what failed posts asked for apart from Enabled. |
| HsmCoverage.AskedExactly | cmd/hmi-nfd/hmnfd.go:652-674 | In every process, with posts failing as they may, what is tracked or waiting on the channel is exactly the start-up list and what accepted POSTs asked for since; Enabled is always among it. |
| HsmCoverage.StartUpAsksFor | cmd/hmi-nfd/hmnfd.go:652-674 | The start-up subscription asks for exactly Enabled, the roles compute and service, and seven states. |
| HsmCoverage.UnavailabilityIsAskedFor | cmd/hmi-nfd/api.go:267-282 | In every process, whatever posts fail, whatever can make an SCN count as unavailable is tracked or waiting to be asked for: its state, or Enabled. |
| HsmCoverage.StepStaysCoveredExactly | cmd/hmi-nfd/api.go:761-890 | If every attribute the stored keys name is tracked or waiting, it is so after a step if and only if the step is no PATCH that stores an attribute that was not: PATCH handlers send nothing to the State Manager's loop. |
| HsmCoverage.AlwaysCoveredExactly | cmd/hmi-nfd/hmnfd.go:860-864 | Throughout a process started on any store, every attribute a stored key names, Enabled included, is tracked or waiting, if and only if the keys found at start name only attributes of the start-up list, and every PATCH that stored named only attributes of that list or of POSTs accepted before it. |
| InterleavedCoverage.FullStepExactly | cmd/hmi-nfd/api.go:738-747 | When requests interleave, between a POST's store and its channel send its attributes are owed: a move keeps every named attribute asked for or owed if and only if it is no store step of a PATCH that brings another one. |
| InterleavedCoverage.CoveredThroughoutExactly | cmd/hmi-nfd/api.go:738-747 | So under every interleaving every attribute a stored key names is throughout asked for or owed by a POST that has stored, under the same condition on start-up keys and PATCHes as in HsmCoverage.AlwaysCoveredExactly. |
| Service.PerformWrite | cmd/hmi-nfd/api.go:643-890 | The POST and PATCH handlers of both versions carry out the service's steps, and in a sound store they cannot index out of range. |
| Service.PerformRemoval | cmd/hmi-nfd/api.go:312-381 | The DELETE handlers and the prune round carry out the service's steps. |
| Service.PerformScn | cmd/hmi-nfd/api.go:1129-1262 | The SCN handler and the cache check carry out the service's steps. |
| Service.PerformFanout | cmd/hmi-nfd/api.go:1266-1438 | Taking a batch off the queue and fanning it out carries out the service's step. |
| Service.PerformSend | cmd/hmi-nfd/fanout.go:361-452 | A worker running a send job carries out the service's step. |
| Service.PerformDeadWood | cmd/hmi-nfd/fanout.go:519-540 | The dead-node pass carries out the service's step. |
| Service.StoreInvAlways | cmd/hmi-nfd/api.go:591-633 | In every reachable state of a process started on any sound store every stored key is the key of a sound subscription and every record has components and a Url. |
| Service.JobsAlwaysSound | cmd/hmi-nfd/api.go:1404 | In every reachable state every queued job goes to a well-formed xname. |
| Service.MarkHasCause | cmd/hmi-nfd/api.go:368-381 | Every mark in force was added by an event since the last prune step. |
| Service.WhyASubscriptionDisappears | cmd/hmi-nfd/api.go:312-381 | In every run a stored subscription disappears only by a DELETE or PATCH naming its owner, or by a prune step preceded, since the last one, by a batch marking its xname, a send to it given up, the dead-node pass on it, or a DELETE recorded as its xname or agent@xname; and a batch does that only if a received SCN listed the xname and is unavailable, or is silent about Enabled while another received SCN disables. |
| Service.CondemnedAreRemoved | cmd/hmi-nfd/api.go:368-381 | Conversely, once an event has marked an xname or agent@xname, the next prune step that succeeds leaves none of their subscriptions. |
| Service.DeleteThenPruneExactly | cmd/hmi-nfd/api.go:993-1000 | What a DELETE and the prune step after it remove together: besides the DELETE's own records and what was marked already, exactly every subscription of an owner it deleted one of, and every subscription of a component it deleted an agent-less one of. |
| Service.ResubscriptionIsPruned | cmd/hmi-nfd/api.go:993-1000 | A subscription POSTed between such a DELETE and the next prune step is removed by that prune step. |
| Service.CondemnedGetNothing | cmd/hmi-nfd/fanout.go:370-382 | From the mark until the next prune step no job for that xname makes any attempt to send. |
| Service.SubscriberIsNotified | cmd/hmi-nfd/api.go:1321-1404 | In every run, handling an SCN queues a job for every unsuppressed stored subscription that asks for one of its attributes and is interested in one of its components. |
| Service.ReceivedIsDelivered | cmd/hmi-nfd/api.go:1174-1404 | From end to end, in every run: the step that handles the batch a received SCN went into queues a job naming each of its components for every stored, unsuppressed subscription that asks for its State, Role or SoftwareStatus and is interested in that component. |
| Service.CacheOfRun | cmd/hmi-nfd/api.go:1174-1275 | In every run of the whole service the cache and queue are those of the coalescing cache on its own events, so the laws of the cache hold there. |
| Interleaving.AloneIsAtomic | cmd/hmi-nfd/api.go:368-381 | Every request, run step by step (one store call or one hold of the prune map's lock at a time) with nothing in between, takes exactly the service's atomic step. |
| InterleavedRuns.AlwaysSound | cmd/hmi-nfd/api.go:643-1005 | However requests, sends, fanouts and prune rounds interleave, the store invariant holds, every snapshot still in use holds only sound records, and whatever is about to be stored is sound. |
| InterleavedRuns.NothingPanicsInterleaved | cmd/hmi-nfd/api.go:320-337 | So no goroutine's index or slice expression is out of range, even on records deleted since they were read. |
| InterleavedRuns.AlwaysOneRound | cmd/hmi-nfd/api.go:370-379 | At most one prune round runs at a time, and the lock is held while it does. |
| InterleavedRuns.MarkCause | cmd/hmi-nfd/api.go:368-381 | Under every interleaving, every mark in force was added by a step since the prune map was last emptied. |
| InterleavedRuns.CacheOfMoves | cmd/hmi-nfd/api.go:1174-1275 | Under every interleaving the cache and queue are those of the coalescing cache on the events started so far. |
| InterleavedRuns.WhyItDisappears | cmd/hmi-nfd/api.go:312-381 | Whole-run provenance under every interleaving: a subscription disappears only in a step of a DELETE or PATCH naming its owner, or of a prune round after a step that condemned the owner since the map was last emptied; and a batch condemns only what received SCNs reported, as in Service.WhyASubscriptionDisappears. |
| InterleavedRuns.PruneRoundRemoves | cmd/hmi-nfd/api.go:368-381 | A prune round does its work whatever interleaves with it: at its end no key marked at its start is stored, unless a POST or PATCH stored it during the round; the map is empty and the lock free. |
| InterleavedRuns.MarkedAreRemoved | cmd/hmi-nfd/api.go:368-381 | No mark is lost to the concurrent emptying of the map: what was marked before a round is gone after it, unless stored again during it. |
| InterleavedLaws.PatchStepsAddExactly | cmd/hmi-nfd/api_v2.go:403-440 | For all states of the store at the delete and at the store step of a PATCH of either version: how many records the two steps add together, and that they add one if and only if the store call succeeds, the new key is free then, and the found key is the new one or was gone at the delete. |
| InterleavedLaws.PatchAddsExactly | cmd/hmi-nfd/api_v2.go:377-443 | The same in every interleaved run; and a PATCH adds a record only if another goroutine removed the found key since the PATCH began. |
| InterleavedLaws.RacingPatchesMultiply | cmd/hmi-nfd/api_v2.go:377-443 | A witness that it happens: two PATCHes of one subscription that both read before either deletes leave two in its place. |
| InterleavedLaws.PostOverwritesExactly | cmd/hmi-nfd/api.go:706-738 | An interleaved POST finds its key taken when it stores, and overwrites the record, if and only if since its read another request stored that key and nobody has deleted it; otherwise it adds exactly one record. |
| InterleavedLaws.DeleteRemoves | cmd/hmi-nfd/api.go:957-1003 | Whatever interleaves with it: at a DELETE's end no record of its target that was stored at its read, and whose deletion succeeds, is stored, unless a POST or PATCH stored it since. |
| InterleavedEnds.DeleteMarks | cmd/hmi-nfd/api.go:993-1000 | By its end an interleaved DELETE has marked the owner of every record of its target that it read and can delete. |
| InterleavedEnds.DeleteThenRound | cmd/hmi-nfd/api.go:993-1000 | Under every interleaving, a DELETE of a record and a later prune round, with the map not emptied in between, leave no subscription of the record's owner, nor of its component if the record named no agent, but those stored during the round. |
| InterleavedEnds.GoroutinesEnd | cmd/hmi-nfd/api.go:320-380 | However they interleave, the moves that get a request, a prune round, a send or a fanout that has read the store on are fewer than what it had to do when it began, so it ends. |
| InterleavedEnds.AdvanceShrinks | cmd/hmi-nfd/api.go:374-379 | A goroutine's own move changes nothing only while a prune round holds the lock, and a prune round never waits. |
| InterleavedLaws.MarkedGetsNothing | cmd/hmi-nfd/fanout.go:370-382 | Under every interleaving, from a mark until the map is next emptied a worker that takes a job for the marked xname makes no attempt and leaves no send behind. |
| InterleavedLaws.SnapshotIsFannedOut | cmd/hmi-nfd/api.go:1321-1414 | Under every interleaving a fanout queues, before it ends, the job of every matching record it read, whatever happens to the record meanwhile. |
| InterleavedLaws.NotifiedInterleaved | cmd/hmi-nfd/api.go:1321-1404 | So a subscription that asks for one of the SCN's attributes, is interested in one of its components, and is stored and unsuppressed when the fanout reads the store, gets a job naming the component before the fanout ends. |

## Left out

- HTTP, routing, status codes and problem details: a request is its parsed body, and only the decision to accept, reject or change the store remains.
- JSON: bodies and stored values are records, so unmarshalling errors (which end a fanout or a PATCH early) do not occur. Lower-casing a body before parsing becomes lower-casing its strings.
- Timestamps, sleeps, back-off and the wall clock: timers are steps that may happen at any time.
- The telemetry bus, logging, health, parameters, start-up apart from the mandatory subscription and the dead-node pass, the v1 listing of all subscriptions and the fake subscriber.
- xname validation and normalisation: the library's verdict is an input, and an invalid xname in a path is the empty string.
- The worker pool and fanout-sync mode: queued jobs are a list from which any job may run next.
- Other replicas: they share the store and the State Manager but have prune maps, caches and trackers of their own; in the model only this process changes the store while it runs.
- Bounded channels: the SCN queue and the State Manager queue never block their senders.
- Key-value store internals, and its in-memory variant (unsorted, with a range closed at its end).
- The `hsmsubs` and `hmnfd_params` keys, and `Nosm` other than 0.
- Text beyond ASCII: lower-casing changes only the letters A to Z.
- That a mark for agent@xname stops queued sends: it does not, since sends look up the bare xname only.
- That substring matching never matches too much: it does, inside longer values, as `AttributeInSegment` says exactly.
- The slice that `scnToLower` shares with its caller: the components of an SCN are lower-cased in place, and only the lower-cased ones are read afterwards.
- Batching.BatchingPreservesMeaning: about sets of notices over a store that stays fixed; it does not count how often a subscriber hears the same thing.
- InterleavedRuns.WhyItDisappears: a request that has to wait for the lock before its first step is modelled as beginning later; a worker's attempts to send are one step with the mark that may follow as another.
- InterleavedRuns.PruneRoundRemoves: for rounds whose range read succeeds and a key whose deletion does not fail.
- InterleavedEnds.GoroutinesEnd: that a goroutine is ever scheduled is not stated.
